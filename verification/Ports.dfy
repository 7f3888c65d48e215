// docker/moby api/common.go: DisplayablePorts, which compresses the ports of a container into ranges.

module Ports {

  const U16: int := 0x1_0000

  type uint16 = n: int | 0 <= n < 0x1_0000

  datatype Port = Port(ip: string, privatePort: uint16, publicPort: uint16, proto: string)

  // ---------------------------------------------------------------------------------------------
  // The sort order

  predicate StringLess(a: string, b: string) {
    if b == "" then false
    else if a == "" then true
    else if a[0] != b[0] then a[0] < b[0]
    else StringLess(a[1..], b[1..])
  }

  predicate Less(a: Port, b: Port) {
    if a.privatePort != b.privatePort then a.privatePort < b.privatePort
    else if a.ip != b.ip then StringLess(a.ip, b.ip)
    else if a.publicPort != b.publicPort then a.publicPort < b.publicPort
    else StringLess(a.proto, b.proto)
  }

  ghost predicate Sorted(ports: seq<Port>) {
    forall i, j :: 0 <= i < j < |ports| ==> !Less(ports[j], ports[i])
  }

  function Insert(p: Port, ports: seq<Port>): seq<Port> {
    if ports == [] || Less(p, ports[0]) then [p] + ports else [ports[0]] + Insert(p, ports[1..])
  }

  function Sort(ports: seq<Port>): seq<Port> {
    if ports == [] then [] else Insert(ports[0], Sort(ports[1..]))
  }

  // ---------------------------------------------------------------------------------------------
  // What is displayed

  // A displayed range of one group key, or a host mapping.
  datatype Item =
    | Range(key: string, first: uint16, last: uint16)
    | Mapping(ip: string, publicPort: uint16, privatePort: uint16, proto: string)

  datatype Group = Group(first: uint16, last: uint16)

  // A port is shown as a mapping of its own when the host port differs from the container port.
  predicate IsMapping(p: Port) {
    p.ip != "" && p.publicPort != p.privatePort
  }

  function KeyOf(p: Port): string {
    if p.ip != "" then p.ip + "/" + p.proto else p.proto
  }

  // The variables of the loop: the open group of each key, the keys in order of creation, the ranges closed
  // so far and the mappings.
  datatype Display = Display(groups: map<string, Group>, keys: seq<string>, result: seq<Item>, mappings: seq<Item>)

  const EMPTY := Display(map[], [], [], [])

  function Add(d: Display, p: Port): Display {
    var current, key := p.privatePort, KeyOf(p);
    if IsMapping(p) then
      d.(mappings := d.mappings + [Mapping(p.ip, p.publicPort, p.privatePort, p.proto)])
    else if key !in d.groups then
      d.(groups := d.groups[key := Group(current, current)], keys := d.keys + [key])
    else
      var group := d.groups[key];
      if current == (group.last + 1) % U16 then
        d.(groups := d.groups[key := Group(group.first, current)])
      else
        d.(result := d.result + [Range(key, group.first, group.last)],
           groups := d.groups[key := Group(current, current)])
  }

  function AddAll(ports: seq<Port>): Display {
    if ports == [] then EMPTY else Add(AddAll(ports[..|ports| - 1]), ports[|ports| - 1])
  }

  function OpenGroups(keys: seq<string>, groups: map<string, Group>): seq<Item>
    requires forall k :: k in keys ==> k in groups
  {
    seq(|keys|, i requires 0 <= i < |keys| => Range(keys[i], groups[keys[i]].first, groups[keys[i]].last))
  }

  ghost predicate KeysListed(d: Display) {
    && (forall k :: k in d.keys <==> k in d.groups)
    && (forall i, j :: 0 <= i < j < |d.keys| ==> d.keys[i] != d.keys[j])
  }

  lemma {:induction false} KeysOfAll(ports: seq<Port>)
    ensures KeysListed(AddAll(ports))
  {
    if ports != [] {
      KeysOfAll(ports[..|ports| - 1]);
    }
  }

  // The items displayed for sorted ports.
  function Items(d: Display): seq<Item>
    requires forall k :: k in d.keys ==> k in d.groups
  {
    d.result + OpenGroups(d.keys, d.groups) + d.mappings
  }

  // DisplayablePorts sorts the caller's slice in place and folds it into ranges and mappings.
  method DisplayablePorts(ports: array<Port>) returns (items: seq<Item>, text: string)
    modifies ports
    ensures ports[..] == Sort(old(ports[..]))
    ensures KeysListed(AddAll(ports[..])) && items == Items(AddAll(ports[..]))
    ensures text == Join(items)
  {
    SortInPlace(ports);
    var groupMap: map<string, Group> := map[];
    var groupMapKeys: seq<string> := [];
    var result: seq<Item> := [];
    var hostMappings: seq<Item> := [];
    for i := 0 to ports.Length
      invariant Display(groupMap, groupMapKeys, result, hostMappings) == AddAll(ports[..i])
    {
      assert ports[..i + 1][..i] == ports[..i];
      var port := ports[i];
      var current := port.privatePort;
      var portKey := port.proto;
      if port.ip != "" {
        if port.publicPort != current {
          hostMappings := hostMappings + [Mapping(port.ip, port.publicPort, port.privatePort, port.proto)];
          continue;
        }
        portKey := port.ip + "/" + port.proto;
      }
      if portKey !in groupMap {
        groupMap := groupMap[portKey := Group(current, current)];
        groupMapKeys := groupMapKeys + [portKey];
        continue;
      }
      var group := groupMap[portKey];
      if current == (group.last + 1) % U16 {
        groupMap := groupMap[portKey := Group(group.first, current)];
        continue;
      }
      result := result + [Range(portKey, group.first, group.last)];
      groupMap := groupMap[portKey := Group(current, current)];
    }
    assert ports[..ports.Length] == ports[..];
    KeysOfAll(ports[..]);
    items := CloseGroups(result, groupMapKeys, groupMap);
    items := items + hostMappings;
    text := Join(items);
  }

  // The groups still open at the end, in the order their keys were created.
  method CloseGroups(result: seq<Item>, keys: seq<string>, groups: map<string, Group>) returns (items: seq<Item>)
    requires forall k :: k in keys ==> k in groups
    ensures items == result + OpenGroups(keys, groups)
  {
    items := result;
    for i := 0 to |keys|
      invariant items == result + OpenGroups(keys[..i], groups)
    {
      var g := groups[keys[i]];
      assert OpenGroups(keys[..i + 1], groups) == OpenGroups(keys[..i], groups) + [Range(keys[i], g.first, g.last)];
      items := items + [Range(keys[i], g.first, g.last)];
    }
    assert keys[..|keys|] == keys;
  }

  // The library sort; its result is determined by the order alone (see PortsProofs.SortIsUnique).
  method SortInPlace(ports: array<Port>)
    modifies ports
    ensures ports[..] == Sort(old(ports[..]))
  {
    ghost var before := ports[..];
    var sorted := Sort(ports[..]);
    SortLength(ports[..]);
    for i := 0 to ports.Length
      invariant ports[..i] == sorted[..i]
    {
      ports[i] := sorted[i];
      assert ports[..i + 1] == ports[..i] + [sorted[i]];
    }
    assert ports[..ports.Length] == ports[..];
  }

  lemma {:induction false} InsertLength(p: Port, ports: seq<Port>)
    ensures |Insert(p, ports)| == |ports| + 1
  {
    if ports != [] && !Less(p, ports[0]) {
      InsertLength(p, ports[1..]);
    }
  }

  lemma {:induction false} SortLength(ports: seq<Port>)
    ensures |Sort(ports)| == |ports|
  {
    if ports != [] {
      SortLength(ports[1..]);
      InsertLength(ports[0], Sort(ports[1..]));
    }
  }

  // ---------------------------------------------------------------------------------------------
  // The text of a range

  function Split(s: string): (parts: seq<string>)
    ensures |parts| >= 1
  {
    if s == "" then [""]
    else if s[0] == '/' then [""] + Split(s[1..])
    else var rest := Split(s[1..]); [[s[0]] + rest[0]] + rest[1..]
  }

  function Itoa(n: nat): string {
    if n < 10 then ["0123456789"[n]] else Itoa(n / 10) + ["0123456789"[n % 10]]
  }

  function FormGroup(key: string, start: uint16, last: uint16): string {
    var parts := Split(key);
    var ip := if |parts| > 1 then parts[0] else "";
    var groupType := if |parts| > 1 then parts[1] else parts[0];
    var group := if start != last then Itoa(start) + "-" + Itoa(last) else Itoa(start);
    (if ip != "" then ip + ":" + group + "->" + group else group) + "/" + groupType
  }

  function Text(i: Item): string {
    match i
    case Range(key, first, last) => FormGroup(key, first, last)
    case Mapping(ip, publicPort, privatePort, proto) =>
      ip + ":" + Itoa(publicPort) + "->" + Itoa(privatePort) + "/" + proto
  }

  function Join(items: seq<Item>): string {
    if items == [] then ""
    else if |items| == 1 then Text(items[0])
    else Text(items[0]) + ", " + Join(items[1..])
  }
}
