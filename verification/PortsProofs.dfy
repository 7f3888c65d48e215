// What the compressed display of ports promises: it loses nothing, and it uses the fewest ranges.

module PortsProofs {
  import opened Ports

  // ---------------------------------------------------------------------------------------------
  // The sort

  lemma {:induction false} StringOrder(a: string, b: string)
    ensures StringLess(a, b) || StringLess(b, a) || a == b
    ensures !(StringLess(a, b) && StringLess(b, a))
    ensures !StringLess(a, a)
  {
    if a != "" {
      StringOrder(a[1..], a[1..]);
    }
    if a != "" && b != "" && a[0] == b[0] {
      StringOrder(a[1..], b[1..]);
      assert a == [a[0]] + a[1..] && b == [b[0]] + b[1..];
    }
  }

  // Strings are compared at the first place where they differ, an ended string being less.
  lemma {:induction false} StringLessExactly(a: string, b: string)
    ensures StringLess(a, b) <==>
            exists k :: 0 <= k <= |a| && k < |b| && a[..k] == b[..k] && (k < |a| ==> a[k] < b[k])
  {
    if a != "" && b != "" && a[0] == b[0] {
      var a', b' := a[1..], b[1..];
      StringLessExactly(a', b');
      if StringLess(a', b') {
        var k :| 0 <= k <= |a'| && k < |b'| && a'[..k] == b'[..k] && (k < |a'| ==> a'[k] < b'[k]);
        assert a[..k + 1] == [a[0]] + a'[..k] && b[..k + 1] == [b[0]] + b'[..k];
      }
      if k :| 0 <= k <= |a| && k < |b| && a[..k] == b[..k] && (k < |a| ==> a[k] < b[k]) {
        assert k > 0;
        assert a'[..k - 1] == a[..k][1..] && b'[..k - 1] == b[..k][1..];
      }
    } else if a == "" && b != "" {
      assert a[..0] == b[..0];
    } else if b != "" {
      assert a[..0] == b[..0];
      forall k | 0 < k <= |a| && k < |b| ensures a[..k] != b[..k] {
        assert a[..k][0] == a[0] && b[..k][0] == b[0];
      }
    }
  }

  lemma {:induction false} StringTransitive(a: string, b: string, c: string)
    requires !StringLess(b, a) && !StringLess(c, b)
    ensures !StringLess(c, a)
  {
    if a != "" && b != "" && c != "" && a[0] == b[0] == c[0] {
      StringTransitive(a[1..], b[1..], c[1..]);
    }
  }

  // The order compares all four fields, so ports that do not differ in it are the same.
  lemma LessTotal(a: Port, b: Port)
    ensures Less(a, b) || Less(b, a) || a == b
    ensures !(Less(a, b) && Less(b, a))
  {
    StringOrder(a.ip, b.ip);
    StringOrder(a.proto, b.proto);
  }

  lemma LessTransitive(a: Port, b: Port, c: Port)
    requires !Less(b, a) && !Less(c, b)
    ensures !Less(c, a)
  {
    StringOrder(a.ip, b.ip);
    StringOrder(b.ip, c.ip);
    StringOrder(a.ip, c.ip);
    if a.privatePort == b.privatePort == c.privatePort {
      StringTransitive(a.ip, b.ip, c.ip);
      if a.ip == b.ip == c.ip && a.publicPort == b.publicPort == c.publicPort {
        StringTransitive(a.proto, b.proto, c.proto);
      }
    }
  }

  lemma {:induction false} InsertSorted(p: Port, ports: seq<Port>)
    requires Sorted(ports)
    ensures Sorted(Insert(p, ports)) && multiset(Insert(p, ports)) == multiset{p} + multiset(ports)
  {
    if ports == [] {
    } else if Less(p, ports[0]) {
      forall j | 0 <= j < |ports| ensures !Less(ports[j], p) {
        LessTotal(p, ports[0]);
        if j > 0 {
          LessTransitive(p, ports[0], ports[j]);
        }
      }
    } else {
      var rest := Insert(p, ports[1..]);
      InsertSorted(p, ports[1..]);
      assert ports == [ports[0]] + ports[1..];
      forall j | 0 <= j < |rest| ensures !Less(rest[j], ports[0]) {
        assert rest[j] in multiset(rest);
        assert rest[j] == p || rest[j] in ports[1..];
      }
    }
  }

  lemma {:induction false} SortCorrect(ports: seq<Port>)
    ensures Sorted(Sort(ports)) && multiset(Sort(ports)) == multiset(ports)
  {
    if ports != [] {
      SortCorrect(ports[1..]);
      InsertSorted(ports[0], Sort(ports[1..]));
      assert ports == [ports[0]] + ports[1..];
    }
  }

  lemma LeastFirst(a: seq<Port>, p: Port)
    requires Sorted(a) && p in multiset(a)
    ensures a != [] && !Less(p, a[0])
  {
    var i :| 0 <= i < |a| && a[i] == p;
    LessTotal(a[0], a[0]);
  }

  // Whatever algorithm sorts the ports, stable or not, the result is the same.
  lemma {:induction false} SortIsUnique(a: seq<Port>, b: seq<Port>)
    requires Sorted(a) && Sorted(b) && multiset(a) == multiset(b)
    ensures a == b
  {
    assert |multiset(a)| == |a| && |multiset(b)| == |b|;
    if a != [] {
      assert a[0] in multiset(a) && b[0] in multiset(b);
      LeastFirst(b, a[0]);
      LeastFirst(a, b[0]);
      LessTotal(a[0], b[0]);
      WithoutFirst(a);
      WithoutFirst(b);
      SortIsUnique(a[1..], b[1..]);
    }
  }

  lemma WithoutFirst(a: seq<Port>)
    requires a != []
    ensures a == [a[0]] + a[1..] && multiset(a[1..]) == multiset(a) - multiset{a[0]}
  {
    assert a == [a[0]] + a[1..];
    assert multiset(a) == multiset{a[0]} + multiset(a[1..]);
  }

  // ---------------------------------------------------------------------------------------------
  // What is shown, as a multiset

  // What one port contributes: one number under a key, or a mapping.
  datatype Shown =
    | Number(key: string, port: int)
    | Mapped(ip: string, publicPort: uint16, privatePort: uint16, proto: string)

  type Bag = multiset<Shown>

  function ShownAs(p: Port): Shown {
    if p.ip == "" then Number(p.proto, p.privatePort)
    else if p.publicPort == p.privatePort then Number(p.ip + "/" + p.proto, p.privatePort)
    else Mapped(p.ip, p.publicPort, p.privatePort, p.proto)
  }

  function ShownAll(ports: seq<Port>): Bag {
    if ports == [] then multiset{} else ShownAll(ports[..|ports| - 1]) + multiset{ShownAs(ports[|ports| - 1])}
  }

  // All numbers of a range, each once.
  function ExpandRange(key: string, first: int, last: int): Bag
    decreases last - first
  {
    if first > last then multiset{} else ExpandRange(key, first, last - 1) + multiset{Number(key, last)}
  }

  function Expand(i: Item): Bag {
    match i
    case Range(key, first, last) => ExpandRange(key, first, last)
    case Mapping(ip, publicPort, privatePort, proto) => multiset{Mapped(ip, publicPort, privatePort, proto)}
  }

  // The first and the last element of an item.
  function Start(i: Item): Bag {
    match i
    case Range(key, first, last) => if first <= last then multiset{Number(key, first)} else multiset{}
    case Mapping(_, _, _, _) => Expand(i)
  }

  function End(i: Item): Bag {
    match i
    case Range(key, first, last) => if first <= last then multiset{Number(key, last)} else multiset{}
    case Mapping(_, _, _, _) => Expand(i)
  }

  function Sum(f: Item -> Bag, items: seq<Item>): Bag {
    if items == [] then multiset{} else Sum(f, items[..|items| - 1]) + f(items[|items| - 1])
  }

  lemma {:induction false} RangeContents(key: string, first: int, last: int, s: Shown)
    ensures ExpandRange(key, first, last)[s]
         == if s.Number? && s.key == key && first <= s.port <= last then 1 else 0
    decreases last - first
  {
    if first <= last {
      RangeContents(key, first, last - 1, s);
    }
  }

  lemma {:induction false} SumMore(f: Item -> Bag, a: seq<Item>, b: seq<Item>)
    ensures Sum(f, a + b) == Sum(f, a) + Sum(f, b)
  {
    if b == [] {
      assert a + b == a;
    } else {
      assert (a + b)[..|a + b| - 1] == a + b[..|b| - 1];
      SumMore(f, a, b[..|b| - 1]);
    }
  }

  lemma SumSnoc(f: Item -> Bag, items: seq<Item>, i: Item)
    ensures Sum(f, items + [i]) == Sum(f, items) + f(i)
  {
    assert (items + [i])[..|items|] == items;
  }

  // Taking one item out of the middle.
  lemma SumOut(f: Item -> Bag, items: seq<Item>, j: nat)
    requires j < |items|
    ensures Sum(f, items) == Sum(f, items[..j] + items[j + 1..]) + f(items[j])
  {
    var a, b, c := items[..j], items[j], items[j + 1..];
    Pieces(items, j);
    SumMore(f, a + [b], c);
    SumSnoc(f, a, b);
    SumMore(f, a, c);
  }

  lemma Pieces(items: seq<Item>, j: nat)
    requires j < |items|
    ensures items[..j] + [items[j]] + items[j + 1..] == items
  {
  }

  lemma SumUpdate(f: Item -> Bag, items: seq<Item>, j: nat, i: Item)
    requires j < |items|
    ensures Sum(f, items[j := i]) + f(items[j]) == Sum(f, items) + f(i)
  {
    var updated := items[j := i];
    SumOut(f, items, j);
    SumOut(f, updated, j);
    assert updated[..j] == items[..j] && updated[j + 1..] == items[j + 1..];
  }

  lemma {:induction false} ShownMore(p: Port, ports: seq<Port>)
    ensures ShownAll([p] + ports) == multiset{ShownAs(p)} + ShownAll(ports)
  {
    if ports == [] {
      assert ([p] + ports)[..0] == [];
    } else {
      assert ([p] + ports)[..|ports|] == [p] + ports[..|ports| - 1];
      ShownMore(p, ports[..|ports| - 1]);
    }
  }

  lemma {:induction false} ShownInsert(p: Port, ports: seq<Port>)
    ensures ShownAll(Insert(p, ports)) == multiset{ShownAs(p)} + ShownAll(ports)
  {
    if ports == [] || Less(p, ports[0]) {
      ShownMore(p, ports);
    } else {
      var q, rest := ports[0], ports[1..];
      assert ports == [q] + rest;
      calc {
        ShownAll(Insert(p, ports));
        { ShownMore(q, Insert(p, rest)); }
        multiset{ShownAs(q)} + ShownAll(Insert(p, rest));
        { ShownInsert(p, rest); }
        multiset{ShownAs(q)} + (multiset{ShownAs(p)} + ShownAll(rest));
        multiset{ShownAs(p)} + (multiset{ShownAs(q)} + ShownAll(rest));
        { ShownMore(q, rest); }
        multiset{ShownAs(p)} + ShownAll(ports);
      }
    }
  }

  lemma {:induction false} ShownSorted(ports: seq<Port>)
    ensures ShownAll(Sort(ports)) == ShownAll(ports)
  {
    if ports != [] {
      ShownSorted(ports[1..]);
      ShownInsert(ports[0], Sort(ports[1..]));
      ShownMore(ports[0], ports[1..]);
      assert ports == [ports[0]] + ports[1..];
    }
  }

  // ---------------------------------------------------------------------------------------------
  // One round of the loop

  ghost predicate Ascending(ports: seq<Port>) {
    forall i, j :: 0 <= i < j < |ports| ==> ports[i].privatePort <= ports[j].privatePort
  }

  // The sum of all that would be displayed if the loop stopped here.
  ghost function Held(f: Item -> Bag, d: Display): Bag
    requires KeysListed(d)
  {
    Sum(f, d.result) + Sum(f, OpenGroups(d.keys, d.groups)) + Sum(f, d.mappings)
  }

  // The uint16 successor of the last port of a group never wraps into a match, because the ports ascend.
  lemma NoFalseMerge(last: uint16, current: uint16)
    requires last <= current
    ensures current == (last + 1) % U16 <==> current == last + 1
  {
  }

  ghost predicate Extends(d: Display, p: Port) {
    !IsMapping(p) && KeyOf(p) in d.groups && p.privatePort == (d.groups[KeyOf(p)].last + 1) % U16
  }

  // A port that does not extend a group is an item of its own.
  function Single(p: Port): Item {
    if IsMapping(p) then Mapping(p.ip, p.publicPort, p.privatePort, p.proto)
    else Range(KeyOf(p), p.privatePort, p.privatePort)
  }

  // Replacing the open group of a key.
  lemma Regroup(f: Item -> Bag, d: Display, key: string, g: Group)
    requires KeysListed(d) && key in d.groups
    ensures Sum(f, OpenGroups(d.keys, d.groups[key := g])) + f(Range(key, d.groups[key].first, d.groups[key].last))
         == Sum(f, OpenGroups(d.keys, d.groups)) + f(Range(key, g.first, g.last))
  {
    var j :| 0 <= j < |d.keys| && d.keys[j] == key;
    var items := OpenGroups(d.keys, d.groups);
    assert OpenGroups(d.keys, d.groups[key := g]) == items[j := Range(key, g.first, g.last)];
    SumUpdate(f, items, j, Range(key, g.first, g.last));
  }

  lemma OpenKey(f: Item -> Bag, keys: seq<string>, groups: map<string, Group>, key: string, g: Group)
    requires key !in groups && forall k :: k in keys ==> k in groups
    ensures Sum(f, OpenGroups(keys + [key], groups[key := g]))
         == Sum(f, OpenGroups(keys, groups)) + f(Range(key, g.first, g.last))
  {
    assert OpenGroups(keys + [key], groups[key := g]) == OpenGroups(keys, groups) + [Range(key, g.first, g.last)];
    SumSnoc(f, OpenGroups(keys, groups), Range(key, g.first, g.last));
  }

  // Rearrangements of sums.
  lemma Closed(result: Bag, open: Bag, open': Bag, mappings: Bag, closed: Bag, single: Bag)
    requires open' + closed == open + single
    ensures (result + closed) + open' + mappings == result + open + mappings + single
  {
    assert (result + closed) + open' == result + (open' + closed);
  }

  lemma Opened(result: Bag, open: Bag, mappings: Bag, single: Bag)
    ensures result + (open + single) + mappings == result + open + mappings + single
    ensures result + open + (mappings + single) == result + open + mappings + single
  {
  }

  lemma Replaced(result: Bag, open: Bag, open': Bag, mappings: Bag, before: Bag, now: Bag)
    requires open' + before == open + now
    ensures result + open' + mappings + before == result + open + mappings + now
  {
    assert result + open' + mappings + before == result + mappings + (open' + before);
    assert result + open + mappings + now == result + mappings + (open + now);
  }

  lemma AddSingle(f: Item -> Bag, d: Display, p: Port)
    requires KeysListed(d) && !Extends(d, p)
    ensures KeysListed(Add(d, p)) && Held(f, Add(d, p)) == Held(f, d) + f(Single(p))
  {
    var result, open, mappings := Sum(f, d.result), Sum(f, OpenGroups(d.keys, d.groups)), Sum(f, d.mappings);
    var key, n := KeyOf(p), p.privatePort;
    if IsMapping(p) {
      SumSnoc(f, d.mappings, Single(p));
      Opened(result, open, mappings, f(Single(p)));
    } else if key !in d.groups {
      OpenKey(f, d.keys, d.groups, key, Group(n, n));
      Opened(result, open, mappings, f(Single(p)));
    } else {
      var closed := Range(key, d.groups[key].first, d.groups[key].last);
      SumSnoc(f, d.result, closed);
      Regroup(f, d, key, Group(n, n));
      Closed(result, open, Sum(f, OpenGroups(d.keys, d.groups[key := Group(n, n)])), mappings, f(closed), f(Single(p)));
    }
  }

  lemma AddExtending(f: Item -> Bag, d: Display, p: Port)
    requires KeysListed(d) && Extends(d, p)
    ensures KeysListed(Add(d, p))
    ensures var g := d.groups[KeyOf(p)];
      Held(f, Add(d, p)) + f(Range(KeyOf(p), g.first, g.last))
        == Held(f, d) + f(Range(KeyOf(p), g.first, p.privatePort))
  {
    var key := KeyOf(p);
    var g := d.groups[key];
    var longer := Group(g.first, p.privatePort);
    Regroup(f, d, key, longer);
    Replaced(Sum(f, d.result), Sum(f, OpenGroups(d.keys, d.groups)),
             Sum(f, OpenGroups(d.keys, d.groups[key := longer])),
             Sum(f, d.mappings), f(Range(key, g.first, g.last)), f(Range(key, g.first, p.privatePort)));
  }

  // ---------------------------------------------------------------------------------------------
  // The loop

  // Every number so far is at most `bound`.
  ghost predicate Below(all: Bag, bound: int) {
    forall k, n :: all[Number(k, n)] > 0 ==> n <= bound
  }

  // The last port of the open group of a key is the highest number of the key.
  ghost predicate LastIsHighest(d: Display, all: Bag) {
    && (forall k :: k in d.groups ==> d.groups[k].first <= d.groups[k].last && all[Number(k, d.groups[k].last)] > 0)
    && (forall k, n :: all[Number(k, n)] > 0 ==> k in d.groups && n <= d.groups[k].last)
  }

  ghost predicate ItemsOk(items: seq<Item>) {
    forall i :: 0 <= i < |items| && items[i].Range? ==> items[i].first <= items[i].last
  }

  ghost predicate DisplayOk(d: Display) {
    KeysListed(d) && ItemsOk(d.result) && ItemsOk(d.mappings)
  }

  lemma HighestStep(d: Display, all: Bag, p: Port)
    requires LastIsHighest(d, all) && Below(all, p.privatePort)
    ensures LastIsHighest(Add(d, p), all + multiset{ShownAs(p)})
  {
    if !IsMapping(p) && KeyOf(p) in d.groups {
      NoFalseMerge(d.groups[KeyOf(p)].last, p.privatePort);
    }
  }

  lemma OkStep(d: Display, all: Bag, p: Port)
    requires DisplayOk(d) && LastIsHighest(d, all)
    ensures DisplayOk(Add(d, p))
  {
  }

  lemma {:induction false} ShownBelow(ports: seq<Port>, bound: int)
    requires forall i :: 0 <= i < |ports| ==> ports[i].privatePort <= bound
    ensures Below(ShownAll(ports), bound)
  {
    if ports != [] {
      ShownBelow(ports[..|ports| - 1], bound);
    }
  }

  lemma {:induction false} LoopState(ports: seq<Port>)
    requires Ascending(ports)
    ensures DisplayOk(AddAll(ports)) && LastIsHighest(AddAll(ports), ShownAll(ports))
  {
    if ports != [] {
      var before, p := ports[..|ports| - 1], ports[|ports| - 1];
      LoopState(before);
      ShownBelow(before, p.privatePort);
      HighestStep(AddAll(before), ShownAll(before), p);
      OkStep(AddAll(before), ShownAll(before), p);
    }
  }

  lemma SingleShown(p: Port)
    ensures Expand(Single(p)) == Start(Single(p)) == multiset{ShownAs(p)}
  {
    assert ExpandRange(KeyOf(p), p.privatePort, p.privatePort - 1) == multiset{};
  }

  lemma Successor(d: Display, p: Port, all: Bag)
    requires LastIsHighest(d, all) && Below(all, p.privatePort)
    ensures Extends(d, p) <==>
      !IsMapping(p) && KeyOf(p) in d.groups && p.privatePort == d.groups[KeyOf(p)].last + 1
    ensures Extends(d, p) <==> Continues(all, ShownAs(p))
  {
    if KeyOf(p) in d.groups {
      NoFalseMerge(d.groups[KeyOf(p)].last, p.privatePort);
    }
  }

  lemma ExpandExtending(d: Display, p: Port)
    requires KeysListed(d) && Extends(d, p) && p.privatePort == d.groups[KeyOf(p)].last + 1
    requires d.groups[KeyOf(p)].first <= p.privatePort
    ensures Held(Expand, Add(d, p)) == Held(Expand, d) + multiset{ShownAs(p)}
  {
    var key, g := KeyOf(p), d.groups[KeyOf(p)];
    AddExtending(Expand, d, p);
    assert Expand(Range(key, g.first, p.privatePort)) == Expand(Range(key, g.first, g.last)) + multiset{ShownAs(p)};
    Cancel(Held(Expand, Add(d, p)), Held(Expand, d), Expand(Range(key, g.first, g.last)), multiset{ShownAs(p)});
  }

  lemma ExpandStep(d: Display, p: Port, all: Bag)
    requires KeysListed(d) && LastIsHighest(d, all) && Below(all, p.privatePort)
    ensures KeysListed(Add(d, p)) && Held(Expand, Add(d, p)) == Held(Expand, d) + multiset{ShownAs(p)}
  {
    if Extends(d, p) {
      Successor(d, p, all);
      ExpandExtending(d, p);
    } else {
      AddSingle(Expand, d, p);
      SingleShown(p);
    }
  }

  lemma Cancel(a: Bag, b: Bag, c: Bag, one: Bag)
    requires a + c == b + (c + one)
    ensures a == b + one
  {
    assert a == (a + c) - c;
    assert b + one == (b + (c + one)) - c;
  }

  lemma {:induction false} LoopLossless(ports: seq<Port>)
    requires Ascending(ports)
    ensures KeysListed(AddAll(ports)) && Held(Expand, AddAll(ports)) == ShownAll(ports)
  {
    if ports != [] {
      var before, p := ports[..|ports| - 1], ports[|ports| - 1];
      LoopLossless(before);
      LoopState(before);
      ShownBelow(before, p.privatePort);
      ExpandStep(AddAll(before), p, ShownAll(before));
    }
  }

  // A number starts as many ranges as it occurs, less one if its predecessor occurs as well.
  ghost function StartsOf(all: Bag, key: string, n: int): nat {
    if all[Number(key, n)] > 0 && all[Number(key, n - 1)] > 0 then all[Number(key, n)] - 1 else all[Number(key, n)]
  }

  lemma StartStep(d: Display, p: Port, all: Bag)
    requires KeysListed(d) && LastIsHighest(d, all) && Below(all, p.privatePort)
    ensures KeysListed(Add(d, p))
    ensures Held(Start, Add(d, p)) == if Extends(d, p) then Held(Start, d) else Held(Start, d) + multiset{ShownAs(p)}
  {
    if Extends(d, p) {
      AddExtending(Start, d, p);
      Cancel(Held(Start, Add(d, p)), Held(Start, d),
             Start(Range(KeyOf(p), d.groups[KeyOf(p)].first, p.privatePort)), multiset{});
    } else {
      AddSingle(Start, d, p);
      SingleShown(p);
    }
  }

  lemma StartCount(all: Bag, s: Shown, key: string, n: int)
    requires s.Number? ==> Below(all, s.port)
    ensures StartsOf(all + multiset{s}, key, n) == StartsOf(all, key, n)
      + if s == Number(key, n) && !Continues(all, s) then 1 else 0
  {
  }

  lemma StartCountStep(d: Display, p: Port, all: Bag, key: string, n: int)
    requires KeysListed(d) && LastIsHighest(d, all) && Below(all, p.privatePort)
    requires Held(Start, d)[Number(key, n)] == StartsOf(all, key, n)
    ensures KeysListed(Add(d, p))
    ensures Held(Start, Add(d, p))[Number(key, n)] == StartsOf(all + multiset{ShownAs(p)}, key, n)
  {
    StartStep(d, p, all);
    Successor(d, p, all);
    StartCount(all, ShownAs(p), key, n);
    StartValues(Held(Start, d), Held(Start, Add(d, p)), all, ShownAs(p), key, n);
  }

  // A number that occurs for the first time after its predecessor.
  ghost predicate Continues(all: Bag, s: Shown) {
    s.Number? && all[s] == 0 && all[Number(s.key, s.port - 1)] > 0
  }

  lemma StartValues(starts: Bag, starts': Bag, all: Bag, s: Shown, key: string, n: int)
    requires starts[Number(key, n)] == StartsOf(all, key, n)
    requires starts' == if Continues(all, s) then starts else starts + multiset{s}
    requires StartsOf(all + multiset{s}, key, n)
          == StartsOf(all, key, n) + if s == Number(key, n) && !Continues(all, s) then 1 else 0
    ensures starts'[Number(key, n)] == StartsOf(all + multiset{s}, key, n)
  {
  }

  lemma {:induction false} LoopStarts(ports: seq<Port>, key: string, n: int)
    requires Ascending(ports)
    ensures KeysListed(AddAll(ports)) && Held(Start, AddAll(ports))[Number(key, n)] == StartsOf(ShownAll(ports), key, n)
  {
    if ports != [] {
      var before, p := ports[..|ports| - 1], ports[|ports| - 1];
      LoopStarts(before, key, n);
      LoopState(before);
      ShownBelow(before, p.privatePort);
      StartCountStep(AddAll(before), p, ShownAll(before), key, n);
    }
  }

  // ---------------------------------------------------------------------------------------------
  // Main results

  // What DisplayablePorts displays for a list of ports.
  function Displayed(ports: seq<Port>): (items: seq<Item>) {
    KeysOfAll(Sort(ports));
    Items(AddAll(Sort(ports)))
  }

  lemma SortAscends(ports: seq<Port>)
    ensures Ascending(Sort(ports))
  {
    SortCorrect(ports);
    var sorted := Sort(ports);
    forall i, j | 0 <= i < j < |sorted| ensures sorted[i].privatePort <= sorted[j].privatePort {
      assert !Less(sorted[j], sorted[i]);
    }
  }

  lemma DisplayedSum(f: Item -> Bag, ports: seq<Port>)
    ensures KeysListed(AddAll(Sort(ports))) && Sum(f, Displayed(ports)) == Held(f, AddAll(Sort(ports)))
  {
    var d := AddAll(Sort(ports));
    KeysOfAll(Sort(ports));
    SumMore(f, d.result + OpenGroups(d.keys, d.groups), d.mappings);
    SumMore(f, d.result, OpenGroups(d.keys, d.groups));
  }

  // Nothing is lost and nothing is added: the expansion of all that is displayed is the input, duplicates
  // included.
  lemma Lossless(ports: seq<Port>)
    ensures Sum(Expand, Displayed(ports)) == ShownAll(ports)
  {
    SortAscends(ports);
    ShownSorted(ports);
    LoopLossless(Sort(ports));
    DisplayedSum(Expand, ports);
  }

  lemma DisplayedStarts(ports: seq<Port>, key: string, n: int)
    ensures Sum(Start, Displayed(ports))[Number(key, n)] == StartsOf(ShownAll(ports), key, n)
  {
    SortAscends(ports);
    ShownSorted(ports);
    LoopStarts(Sort(ports), key, n);
    DisplayedSum(Start, ports);
  }

  lemma DisplayedOk(ports: seq<Port>)
    ensures ItemsOk(Displayed(ports))
  {
    SortAscends(ports);
    LoopState(Sort(ports));
    var d := AddAll(Sort(ports));
    assert Displayed(ports) == d.result + OpenGroups(d.keys, d.groups) + d.mappings;
  }

  // In any list of items: the ranges that end at n - 1 or cover n number as many as those that start at n or
  // cover n - 1.
  lemma {:induction false} Balance(items: seq<Item>, key: string, n: int)
    ensures Sum(End, items)[Number(key, n - 1)] + Sum(Expand, items)[Number(key, n)]
         == Sum(Start, items)[Number(key, n)] + Sum(Expand, items)[Number(key, n - 1)]
  {
    if items != [] {
      Balance(items[..|items| - 1], key, n);
      BalanceOne(items[|items| - 1], key, n);
    }
  }

  lemma BalanceOne(i: Item, key: string, n: int)
    ensures End(i)[Number(key, n - 1)] + Expand(i)[Number(key, n)]
         == Start(i)[Number(key, n)] + Expand(i)[Number(key, n - 1)]
  {
    if i.Range? {
      RangeContents(i.key, i.first, i.last, Number(key, n));
      RangeContents(i.key, i.first, i.last, Number(key, n - 1));
    }
  }

  lemma {:induction false} StartsAreItems(items: seq<Item>)
    ensures |Sum(Start, items)| <= |items|
    ensures ItemsOk(items) ==> |Sum(Start, items)| == |items|
  {
    if items != [] {
      StartsAreItems(items[..|items| - 1]);
    }
  }

  lemma {:induction false} MappingStarts(items: seq<Item>, s: Shown)
    requires s.Mapped?
    ensures Sum(Start, items)[s] == Sum(Expand, items)[s]
  {
    if items != [] {
      MappingStarts(items[..|items| - 1], s);
      var i := items[|items| - 1];
      if i.Range? {
        RangeContents(i.key, i.first, i.last, s);
      }
    }
  }

  lemma {:induction false} Find(f: Item -> Bag, items: seq<Item>, s: Shown) returns (j: nat)
    requires Sum(f, items)[s] > 0
    ensures j < |items| && f(items[j])[s] > 0
  {
    j := |items| - 1;
    if f(items[j])[s] == 0 {
      j := Find(f, items[..j], s);
    }
  }

  // Two successive ports of one key that both occur more than once.
  ghost predicate RepeatedNeighbours(ports: seq<Port>, key: string, n: int) {
    ShownAll(ports)[Number(key, n - 1)] > 1 && ShownAll(ports)[Number(key, n)] > 1
  }

  // No list of ranges and mappings that shows the same is shorter.
  ghost predicate Fewest(ports: seq<Port>) {
    forall other :: Sum(Expand, other) == ShownAll(ports) ==> |Displayed(ports)| <= |other|
  }

  lemma NoFewer(ports: seq<Port>, other: seq<Item>)
    requires forall key, n :: !RepeatedNeighbours(ports, key, n)
    requires Sum(Expand, other) == ShownAll(ports)
    ensures |Displayed(ports)| <= |other|
  {
    var mine, theirs := Sum(Start, Displayed(ports)), Sum(Start, other);
    forall s: Shown ensures mine[s] <= theirs[s] {
      NoFewerStarts(ports, other, s);
    }
    Larger(mine, theirs);
    DisplayedOk(ports);
    StartsAreItems(Displayed(ports));
    StartsAreItems(other);
  }

  lemma Larger(a: Bag, b: Bag)
    requires forall s :: a[s] <= b[s]
    ensures |a| <= |b|
  {
    assert b == a + (b - a);
  }

  lemma NoFewerStarts(ports: seq<Port>, other: seq<Item>, s: Shown)
    requires forall key, n :: !RepeatedNeighbours(ports, key, n)
    requires Sum(Expand, other) == ShownAll(ports)
    ensures Sum(Start, Displayed(ports))[s] <= Sum(Start, other)[s]
  {
    if s.Number? {
      assert !RepeatedNeighbours(ports, s.key, s.port);
      NoFewerNumbers(ports, other, s.key, s.port);
    } else {
      Lossless(ports);
      MappingStarts(Displayed(ports), s);
      MappingStarts(other, s);
    }
  }

  lemma NoFewerNumbers(ports: seq<Port>, other: seq<Item>, key: string, n: int)
    requires !RepeatedNeighbours(ports, key, n) && Sum(Expand, other) == ShownAll(ports)
    ensures Sum(Start, Displayed(ports))[Number(key, n)] <= Sum(Start, other)[Number(key, n)]
  {
    DisplayedStarts(ports, key, n);
    StartsNeeded(ShownAll(ports), other, key, n);
  }

  lemma StartsNeeded(all: Bag, items: seq<Item>, key: string, n: int)
    requires Sum(Expand, items) == all && (all[Number(key, n - 1)] <= 1 || all[Number(key, n)] <= 1)
    ensures StartsOf(all, key, n) <= Sum(Start, items)[Number(key, n)]
  {
    Balance(items, key, n);
  }

  lemma {:induction false} RangeJoin(key: string, first: int, middle: int, last: int)
    requires first <= middle <= last + 1
    ensures ExpandRange(key, first, last) == ExpandRange(key, first, middle - 1) + ExpandRange(key, middle, last)
    decreases last - middle
  {
    if middle <= last {
      RangeJoin(key, first, middle, last - 1);
      var left, right := ExpandRange(key, first, middle - 1), ExpandRange(key, middle, last - 1);
      var one := multiset{Number(key, last)};
      assert (left + right) + one == left + (right + one);
    }
  }

  // Joining a range that ends at n - 1 with one that starts at n.
  lemma JoinItems(items: seq<Item>, i: nat, j: nat) returns (other: seq<Item>)
    requires i < |items| && j < |items| && items[i].Range? && items[j].Range? && items[i].key == items[j].key
    requires items[i].first <= items[i].last == items[j].first - 1 && items[j].first <= items[j].last
    ensures Sum(Expand, other) == Sum(Expand, items) && |other| == |items| - 1
  {
    var key, first, last := items[i].key, items[i].first, items[j].last;
    var joined := items[i := Range(key, first, last)];
    SumUpdate(Expand, items, i, Range(key, first, last));
    other := joined[..j] + joined[j + 1..];
    assert joined[j] == items[j];
    SumOut(Expand, joined, j);
    JoinTwo(items[i], items[j]);
    Joined(Sum(Expand, items), Sum(Expand, joined), Sum(Expand, other), Expand(items[i]), Expand(items[j]));
  }

  lemma JoinTwo(a: Item, b: Item)
    requires a.Range? && b.Range? && a.key == b.key && a.first <= a.last == b.first - 1 && b.first <= b.last
    ensures Expand(Range(a.key, a.first, b.last)) == Expand(a) + Expand(b)
  {
    RangeJoin(a.key, a.first, b.first, b.last);
  }

  lemma Joined(items: Bag, joined: Bag, other: Bag, left: Bag, right: Bag)
    requires joined + left == items + (left + right) && joined == other + right
    ensures other == items
  {
    assert other == joined + left - left - right;
  }

  lemma OneLess(ports: seq<Port>, key: string, n: int)
    requires RepeatedNeighbours(ports, key, n)
    ensures !Fewest(ports)
  {
    var items := Displayed(ports);
    Lossless(ports);
    Balance(items, key, n);
    DisplayedStarts(ports, key, n);
    var i := Find(End, items, Number(key, n - 1));
    var j := Find(Start, items, Number(key, n));
    var other := JoinItems(items, i, j);
  }

  // The display is as short as possible exactly when no two successive ports of a key both occur twice.
  lemma FewestExactly(ports: seq<Port>)
    ensures Fewest(ports) <==> forall key, n :: !RepeatedNeighbours(ports, key, n)
  {
    if key, n :| RepeatedNeighbours(ports, key, n) {
      OneLess(ports, key, n);
    } else {
      forall other | Sum(Expand, other) == ShownAll(ports) ensures |Displayed(ports)| <= |other| {
        NoFewer(ports, other);
      }
    }
  }

  // The ports 5, 5, 6, 6 of one key are shown as 5, 5-6 and 6, where 5-6 twice would do.
  lemma NotAlwaysFewest()
    ensures exists ports :: !Fewest(ports)
  {
    var four := FourPorts();
    OneLess(four, "tcp", 6);
  }

  lemma FourPorts() returns (four: seq<Port>)
    ensures RepeatedNeighbours(four, "tcp", 6)
  {
    var five, six := Port("", 5, 0, "tcp"), Port("", 6, 0, "tcp");
    var two := [] + [five] + [five];
    TwoMore([], five, Number("tcp", 5));
    TwoMore(two, six, Number("tcp", 6));
    four := two + [six] + [six];
  }

  lemma TwoMore(ports: seq<Port>, p: Port, s: Shown)
    requires ShownAs(p) == s
    ensures ShownAll(ports + [p] + [p])[s] == ShownAll(ports)[s] + 2
    ensures forall t :: t != s ==> ShownAll(ports + [p] + [p])[t] == ShownAll(ports)[t]
  {
    ShownSnoc(ports, p);
    ShownSnoc(ports + [p], p);
  }

  lemma ShownSnoc(ports: seq<Port>, p: Port)
    ensures ShownAll(ports + [p]) == ShownAll(ports) + multiset{ShownAs(p)}
  {
    assert (ports + [p])[..|ports|] == ports;
  }

  // When no port of a key repeats, the ranges of the key are disjoint and never adjacent.
  lemma RangesApart(ports: seq<Port>, a: nat, b: nat)
    requires forall s :: ShownAll(ports)[s] <= 1
    requires a < |Displayed(ports)| && b < |Displayed(ports)| && a != b
    requires Displayed(ports)[a].Range? && Displayed(ports)[b].Range?
    requires Displayed(ports)[a].key == Displayed(ports)[b].key
    ensures || Displayed(ports)[a].last + 1 < Displayed(ports)[b].first
            || Displayed(ports)[b].last + 1 < Displayed(ports)[a].first
  {
    var items := Displayed(ports);
    var key := items[a].key;
    DisplayedOk(ports);
    Lossless(ports);
    if items[a].first <= items[b].first {
      AfterRange(ports, a, b);
    } else {
      AfterRange(ports, b, a);
    }
  }

  lemma AfterRange(ports: seq<Port>, a: nat, b: nat)
    requires forall s :: ShownAll(ports)[s] <= 1
    requires a < |Displayed(ports)| && b < |Displayed(ports)| && a != b
    requires Displayed(ports)[a].Range? && Displayed(ports)[b].Range?
    requires Displayed(ports)[a].key == Displayed(ports)[b].key
    requires Displayed(ports)[a].first <= Displayed(ports)[b].first
    ensures Displayed(ports)[a].last + 1 < Displayed(ports)[b].first
  {
    var items := Displayed(ports);
    var key, first := items[a].key, items[b].first;
    DisplayedOk(ports);
    Lossless(ports);
    DisplayedStarts(ports, key, first);
    TwoItems(Start, items, a, b);
    TwoItems(Expand, items, a, b);
    assert Sum(Start, items)[Number(key, first)] == 1;
    RangeContents(key, items[b].first, items[b].last, Number(key, first));
    RangeContents(key, items[a].first, items[a].last, Number(key, first));
    RangeContents(key, items[a].first, items[a].last, Number(key, first - 1));
    assert Sum(Expand, items)[Number(key, first - 1)] == 0;
  }

  lemma TwoItems(f: Item -> Bag, items: seq<Item>, a: nat, b: nat)
    requires a < |items| && b < |items| && a != b
    ensures f(items[a]) + f(items[b]) <= Sum(f, items)
  {
    SumOut(f, items, a);
    var rest, c := items[..a] + items[a + 1..], if b < a then b else b - 1;
    assert rest[c] == items[b];
    SumOut(f, rest, c);
  }

  // ---------------------------------------------------------------------------------------------
  // Reading the display back

  // What the display keeps of a port: the host port only when there is an address.
  datatype Entry =
    | Exposed(privatePort: int, proto: string)
    | Published(ip: string, publicPort: int, privatePort: int, proto: string)

  function EntryOf(p: Port): Entry {
    if p.ip == "" then Exposed(p.privatePort, p.proto) else Published(p.ip, p.publicPort, p.privatePort, p.proto)
  }

  // What formGroup makes of a number: the key is split at its slashes again.
  function Read(s: Shown): Entry {
    match s
    case Number(key, n) =>
      var parts := Split(key);
      if |parts| > 1 then Published(parts[0], n, n, parts[1]) else Exposed(n, parts[0])
    case Mapped(ip, publicPort, privatePort, proto) => Published(ip, publicPort, privatePort, proto)
  }

  predicate SlashFree(p: Port) {
    '/' !in p.ip && '/' !in p.proto
  }

  lemma {:induction false} SplitPlain(s: string)
    requires '/' !in s
    ensures Split(s) == [s]
  {
    if s != "" {
      SplitPlain(s[1..]);
      assert s == [s[0]] + s[1..];
    }
  }

  lemma {:induction false} SplitAt(a: string, b: string)
    requires '/' !in a
    ensures Split(a + "/" + b) == [a] + Split(b)
  {
    var s := a + "/" + b;
    if a == "" {
      assert s[1..] == b;
    } else {
      assert s[1..] == a[1..] + "/" + b;
      SplitAt(a[1..], b);
      assert a == [a[0]] + a[1..];
    }
  }

  lemma KeyParts(p: Port)
    requires SlashFree(p)
    ensures Split(KeyOf(p)) == if p.ip != "" then [p.ip, p.proto] else [p.proto]
  {
    SplitPlain(p.proto);
    if p.ip != "" {
      SplitAt(p.ip, p.proto);
    }
  }

  lemma {:induction false} PartsSlashFree(s: string)
    ensures forall i :: 0 <= i < |Split(s)| ==> '/' !in Split(s)[i]
    ensures |Split(s)| == 1 <==> '/' !in s
  {
    if s != "" {
      PartsSlashFree(s[1..]);
      assert s == [s[0]] + s[1..];
    }
  }

  // A port is read back as it was given exactly when it is a mapping or has no slash in address and protocol.
  lemma ReadBack(p: Port)
    ensures Read(ShownAs(p)) == EntryOf(p) <==> IsMapping(p) || SlashFree(p)
  {
    if SlashFree(p) {
      KeyParts(p);
    } else if !IsMapping(p) {
      PartsSlashFree(KeyOf(p));
      if p.ip != "" {
        assert KeyOf(p)[|p.ip|] == '/';
      }
    }
  }

  // With a slash in the protocol the address is guessed wrongly, and two different ports share a group.
  lemma SlashConfuses()
    ensures exists p: Port, q: Port :: p.ip == "" != q.ip && KeyOf(p) == KeyOf(q) && EntryOf(p) != Read(ShownAs(p))
  {
    var p, q := Port("", 80, 0, "a/b"), Port("a", 80, 80, "b");
    assert KeyOf(q) == "a/b" == "a" + "/" + "b";
    SplitAt("a", "b");
    assert Split(KeyOf(p)) == ["a"] + Split("b");
  }

  function EntriesOf(ports: seq<Port>): multiset<Entry> {
    if ports == [] then multiset{} else EntriesOf(ports[..|ports| - 1]) + multiset{EntryOf(ports[|ports| - 1])}
  }

  lemma {:induction false} SameCount(ports: seq<Port>, p: Port)
    requires SlashFree(p) && forall i :: 0 <= i < |ports| ==> SlashFree(ports[i])
    ensures ShownAll(ports)[ShownAs(p)] == EntriesOf(ports)[EntryOf(p)]
  {
    if ports != [] {
      var q := ports[|ports| - 1];
      SameCount(ports[..|ports| - 1], p);
      ReadBack(p);
      ReadBack(q);
      assert EntryOf(p) == EntryOf(q) ==> ShownAs(p) == ShownAs(q);
    }
  }

  lemma {:induction false} ShownFrom(ports: seq<Port>, s: Shown) returns (p: Port)
    requires ShownAll(ports)[s] > 0
    ensures p in ports && s == ShownAs(p)
  {
    p := ports[|ports| - 1];
    if ShownAs(p) != s {
      p := ShownFrom(ports[..|ports| - 1], s);
    }
  }

  // For addresses and protocols without a slash, each entry of the input is displayed as often as it occurs
  // (with its host port if it has an address), and what is displayed is an entry of the input.
  lemma EntriesKept(ports: seq<Port>, s: Shown)
    requires forall i :: 0 <= i < |ports| ==> SlashFree(ports[i])
    ensures Sum(Expand, Displayed(ports))[s] > 0 ==> Sum(Expand, Displayed(ports))[s] == EntriesOf(ports)[Read(s)]
    ensures forall p :: p in ports ==> Sum(Expand, Displayed(ports))[ShownAs(p)] == EntriesOf(ports)[EntryOf(p)] > 0
  {
    Lossless(ports);
    if ShownAll(ports)[s] > 0 {
      var p := ShownFrom(ports, s);
      SameCount(ports, p);
      ReadBack(p);
    }
    forall p | p in ports ensures ShownAll(ports)[ShownAs(p)] == EntriesOf(ports)[EntryOf(p)] > 0 {
      SameCount(ports, p);
      ShownContains(ports, p);
    }
  }

  lemma {:induction false} ShownContains(ports: seq<Port>, p: Port)
    requires p in ports
    ensures ShownAll(ports)[ShownAs(p)] > 0
  {
    if p != ports[|ports| - 1] {
      ShownContains(ports[..|ports| - 1], p);
    }
  }

  // The text of a range names the address and the protocol of the ports in it.
  lemma RangeText(p: Port, first: uint16, last: uint16)
    requires SlashFree(p)
    ensures var numbers := if first == last then Itoa(first) else Itoa(first) + "-" + Itoa(last);
      FormGroup(KeyOf(p), first, last)
        == (if p.ip == "" then numbers else p.ip + ":" + numbers + "->" + numbers) + "/" + p.proto
  {
    KeyParts(p);
  }

  // The text of one port: its address, host port and container port, or the container port alone.
  lemma PortText(p: Port)
    requires IsMapping(p) || SlashFree(p)
    ensures Text(Single(p))
         == (if p.ip == "" then Itoa(p.privatePort)
             else p.ip + ":" + Itoa(p.publicPort) + "->" + Itoa(p.privatePort)) + "/" + p.proto
  {
    if !IsMapping(p) {
      RangeText(p, p.privatePort, p.privatePort);
    }
    assert p.ip + ":" + Itoa(p.publicPort) + "->" + Itoa(p.privatePort) + "/" + p.proto
        == (p.ip + ":" + Itoa(p.publicPort) + "->" + Itoa(p.privatePort)) + "/" + p.proto;
  }

  // The texts are separated by commas.
  lemma {:induction false} JoinMore(a: seq<Item>, i: Item)
    ensures Join(a + [i]) == if a == [] then Text(i) else Join(a) + ", " + Text(i)
  {
    if a == [] {
      assert a + [i] == [i];
    } else {
      assert (a + [i])[1..] == a[1..] + [i];
      JoinMore(a[1..], i);
    }
  }

  // The number that a text of decimal digits denotes.
  function Denoted(s: string): int {
    if s == "" then 0 else 10 * Denoted(s[..|s| - 1]) + (s[|s| - 1] as int - '0' as int)
  }

  lemma DigitIs(n: nat)
    requires n < 10
    ensures var c := "0123456789"[n]; '0' <= c <= '9' && c as int - '0' as int == n
  {
  }

  // Numbers are printed in decimal digits, without leading zeros.
  lemma {:induction false} ItoaExactly(n: nat)
    ensures Denoted(Itoa(n)) == n && Itoa(n) != ""
    ensures forall i :: 0 <= i < |Itoa(n)| ==> '0' <= Itoa(n)[i] <= '9'
    ensures n > 0 ==> Itoa(n)[0] != '0'
  {
    if n < 10 {
      DigitIs(n);
      assert Itoa(n)[..0] == "";
    } else {
      ItoaExactly(n / 10);
      DigitIs(n % 10);
      assert Itoa(n) == Itoa(n / 10) + ["0123456789"[n % 10]];
      assert Itoa(n)[..|Itoa(n)| - 1] == Itoa(n / 10);
    }
  }

  // By container port, address, host port and protocol.
  ghost predicate InOrder(a: Item, b: Item)
    requires a.Mapping? && b.Mapping?
  {
    || a.privatePort < b.privatePort
    || (a.privatePort == b.privatePort && StringLess(a.ip, b.ip))
    || (a.privatePort == b.privatePort && a.ip == b.ip && a.publicPort < b.publicPort)
    || (a.privatePort == b.privatePort && a.ip == b.ip && a.publicPort == b.publicPort && !StringLess(b.proto, a.proto))
  }

  function MappingOf(p: Port): Item {
    Mapping(p.ip, p.publicPort, p.privatePort, p.proto)
  }

  lemma NotLess(q: Port, p: Port)
    requires !Less(p, q)
    ensures InOrder(MappingOf(q), MappingOf(p))
  {
    LessTotal(p, q);
    StringOrder(p.ip, q.ip);
    StringOrder(p.proto, q.proto);
  }

  ghost predicate FromPort(ports: seq<Port>, i: Item) {
    exists k :: 0 <= k < |ports| && i == MappingOf(ports[k])
  }

  // What the loop collects: mappings of the ports so far, in order, and closed ranges.
  ghost predicate Collected(ports: seq<Port>, mappings: seq<Item>, result: seq<Item>) {
    && (forall i :: 0 <= i < |mappings| ==> mappings[i].Mapping? && FromPort(ports, mappings[i]))
    && (forall i, j :: 0 <= i < j < |mappings| ==> InOrder(mappings[i], mappings[j]))
    && (forall i :: 0 <= i < |result| ==> result[i].Range?)
  }

  lemma CollectedMore(ports: seq<Port>, mappings: seq<Item>, result: seq<Item>, q: Port)
    requires Collected(ports, mappings, result) && forall k :: 0 <= k < |ports| ==> !Less(q, ports[k])
    ensures Collected(ports + [q], mappings, result) && Collected(ports + [q], mappings + [MappingOf(q)], result)
  {
    var all := ports + [q];
    forall i | 0 <= i < |mappings| ensures FromPort(all, mappings[i]) && InOrder(mappings[i], MappingOf(q)) {
      var k :| 0 <= k < |ports| && mappings[i] == MappingOf(ports[k]);
      assert all[k] == ports[k];
      NotLess(ports[k], q);
    }
    assert all[|ports|] == q;
    assert FromPort(all, MappingOf(q));
  }

  lemma {:induction false} LoopCollects(ports: seq<Port>)
    requires Sorted(ports)
    ensures Collected(ports, AddAll(ports).mappings, AddAll(ports).result)
  {
    if ports != [] {
      var before, q := ports[..|ports| - 1], ports[|ports| - 1];
      LoopCollects(before);
      assert ports == before + [q];
      CollectedMore(before, AddAll(before).mappings, AddAll(before).result, q);
    }
  }

  // Host mappings are displayed after all ranges, by container port, address, host port and protocol.
  lemma MappingsInOrder(ports: seq<Port>, i: nat, j: nat)
    requires i < j < |Displayed(ports)| && Displayed(ports)[i].Mapping?
    ensures Displayed(ports)[j].Mapping? && InOrder(Displayed(ports)[i], Displayed(ports)[j])
  {
    var sorted := Sort(ports);
    var d := AddAll(sorted);
    SortCorrect(ports);
    KeysOfAll(sorted);
    LoopCollects(sorted);
    AfterRanges(d.result + OpenGroups(d.keys, d.groups), d.mappings, i, j);
  }

  lemma AfterRanges(ranges: seq<Item>, mappings: seq<Item>, i: nat, j: nat)
    requires forall k :: 0 <= k < |ranges| ==> ranges[k].Range?
    requires forall k :: 0 <= k < |mappings| ==> mappings[k].Mapping?
    requires forall k, l :: 0 <= k < l < |mappings| ==> InOrder(mappings[k], mappings[l])
    requires i < j < |ranges| + |mappings| && (ranges + mappings)[i].Mapping?
    ensures (ranges + mappings)[j].Mapping? && InOrder((ranges + mappings)[i], (ranges + mappings)[j])
  {
    assert i >= |ranges|;
    assert (ranges + mappings)[i] == mappings[i - |ranges|] && (ranges + mappings)[j] == mappings[j - |ranges|];
  }

  // The ranges closed so far ascend and lie below the open range of their key, which ends below `bound`.
  ghost predicate ClosedInOrder(d: Display, bound: int) {
    && (forall k :: k in d.groups ==> d.groups[k].first <= d.groups[k].last <= bound)
    && (forall i :: 0 <= i < |d.result| ==>
          d.result[i].Range? && d.result[i].key in d.groups && d.result[i].last <= d.groups[d.result[i].key].first)
    && (forall i, j :: 0 <= i < j < |d.result| && d.result[i].key == d.result[j].key ==>
          d.result[i].last <= d.result[j].first)
  }

  lemma AddInOrder(d: Display, bound: int, p: Port)
    requires ClosedInOrder(d, bound) && bound <= p.privatePort
    ensures ClosedInOrder(Add(d, p), p.privatePort)
  {
    if KeyOf(p) in d.groups {
      NoFalseMerge(d.groups[KeyOf(p)].last, p.privatePort);
    }
  }

  lemma {:induction false} LoopInOrder(ports: seq<Port>)
    requires Ascending(ports)
    ensures ClosedInOrder(AddAll(ports), if ports == [] then 0 else ports[|ports| - 1].privatePort)
  {
    if ports != [] {
      LoopInOrder(ports[..|ports| - 1]);
      AddInOrder(AddAll(ports[..|ports| - 1]), if |ports| == 1 then 0 else ports[|ports| - 2].privatePort,
                 ports[|ports| - 1]);
    }
  }

  // No two open ranges have the same key.
  lemma OpenKeysDiffer(d: Display, i: nat, j: nat)
    requires KeysListed(d) && |d.result| <= i < j < |d.result| + |d.keys|
    ensures Items(d)[i].Range? && Items(d)[j].Range? && Items(d)[i].key != Items(d)[j].key
  {
    var open := OpenGroups(d.keys, d.groups);
    assert Items(d)[i] == open[i - |d.result|] && Items(d)[j] == open[j - |d.result|];
  }

  // The ranges of a key are displayed in ascending order.
  lemma RangesInOrder(ports: seq<Port>, i: nat, j: nat)
    requires i < j < |Displayed(ports)| && Displayed(ports)[i].Range? && Displayed(ports)[j].Range?
    requires Displayed(ports)[i].key == Displayed(ports)[j].key
    ensures Displayed(ports)[i].last <= Displayed(ports)[j].first
  {
    var sorted := Sort(ports);
    var d := AddAll(sorted);
    SortAscends(ports);
    SortCorrect(ports);
    KeysOfAll(sorted);
    LoopInOrder(sorted);
    LoopCollects(sorted);
    var open := OpenGroups(d.keys, d.groups);
    assert Displayed(ports) == d.result + open + d.mappings;
    assert forall k :: 0 <= k < |d.mappings| ==> d.mappings[k].Mapping?;
    assert j < |d.result| + |open|;
    if j >= |d.result| {
      assert Displayed(ports)[j] == open[j - |d.result|];
      if i >= |d.result| {
        OpenKeysDiffer(d, i, j);
      }
    }
  }
}
