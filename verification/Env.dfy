// docker/moby container/env.go: merging a list of environment settings into a list of defaults.

module Env {
  import opened Wrappers

  // The part of a setting before the first '='.
  function Key(e: string): string {
    if e == "" || e[0] == '=' then "" else [e[0]] + Key(e[1..])
  }

  // A setting without a '=' is the bare name of a variable to unset.
  predicate Assigns(e: string) {
    '=' in e
  }

  lemma {:induction false} BareKey(e: string)
    requires !Assigns(e)
    ensures Key(e) == e
  {
    if e != "" {
      BareKey(e[1..]);
      assert e == [e[0]] + e[1..];
    }
  }

  // The name is what comes before the first '='; what follows, another '=' included, is the value.
  lemma {:induction false} KeyExactly(name: string, value: string)
    requires '=' !in name
    ensures Key(name + "=" + value) == name && Assigns(name + "=" + value)
    ensures Key(name) == name && !Assigns(name)
  {
    var e := name + "=" + value;
    if name == "" {
      assert e[0] == '=';
    } else {
      assert e[1..] == name[1..] + "=" + value;
      KeyExactly(name[1..], value);
      assert name == [name[0]] + name[1..];
    }
    assert e[|name|] == '=';
    BareKey(name);
  }

  function LastIndex(env: seq<string>, k: string): (i: Option<nat>)
    ensures i.Some? ==> i.value < |env| && Key(env[i.value]) == k
    ensures i.Some? ==> forall j :: i.value < j < |env| ==> Key(env[j]) != k
    ensures i.None? ==> forall j :: 0 <= j < |env| ==> Key(env[j]) != k
  {
    if env == [] then None
    else if Key(env[|env| - 1]) == k then Some(|env| - 1)
    else LastIndex(env[..|env| - 1], k)
  }

  // ---------------------------------------------------------------------------------------------
  // The result

  // The last override decides, but only at the last default of its name.
  function Slot(defaults: seq<string>, overrides: seq<string>, i: nat): string
    requires i < |defaults|
  {
    var k := Key(defaults[i]);
    var last := LastIndex(overrides, k);
    if LastIndex(defaults, k) != Some(i) || last.None? then defaults[i]
    else if Assigns(overrides[last.value]) then overrides[last.value]
    else ""
  }

  function Slots(defaults: seq<string>, overrides: seq<string>): seq<string> {
    seq(|defaults|, i requires 0 <= i < |defaults| => Slot(defaults, overrides, i))
  }

  // All assignments to names without a default, even when a later one follows.
  function Appended(defaults: seq<string>, overrides: seq<string>): seq<string> {
    if overrides == [] then []
    else
      var e := overrides[|overrides| - 1];
      Appended(defaults, overrides[..|overrides| - 1])
        + if Assigns(e) && LastIndex(defaults, Key(e)).None? then [e] else []
  }

  function NonEmpty(env: seq<string>): seq<string> {
    if env == [] then []
    else NonEmpty(env[..|env| - 1]) + if env[|env| - 1] == "" then [] else [env[|env| - 1]]
  }

  function Unpruned(defaults: seq<string>, overrides: seq<string>): (env: seq<string>)
    ensures |defaults| <= |env|
  {
    Slots(defaults, overrides) + Appended(defaults, overrides)
  }

  function Merge(defaults: seq<string>, overrides: seq<string>): seq<string> {
    NonEmpty(Unpruned(defaults, overrides))
  }

  // ---------------------------------------------------------------------------------------------
  // The algorithm

  // One more override.
  lemma SlotsStep(defaults: seq<string>, overrides: seq<string>, e: string)
    ensures var i := LastIndex(defaults, Key(e));
      Slots(defaults, overrides + [e])
        == if i.Some? then Slots(defaults, overrides)[i.value := if Assigns(e) then e else ""]
           else Slots(defaults, overrides)
  {
    assert (overrides + [e])[..|overrides|] == overrides;
  }

  lemma AppendedStep(defaults: seq<string>, overrides: seq<string>, e: string)
    ensures Appended(defaults, overrides + [e])
         == Appended(defaults, overrides) + if Assigns(e) && LastIndex(defaults, Key(e)).None? then [e] else []
  {
    assert (overrides + [e])[..|overrides|] == overrides;
  }

  lemma UnprunedStep(defaults: seq<string>, overrides: seq<string>, e: string)
    ensures var env, i := Unpruned(defaults, overrides), LastIndex(defaults, Key(e));
      Unpruned(defaults, overrides + [e])
        == if i.Some? then env[i.value := if Assigns(e) then e else ""] else if Assigns(e) then env + [e] else env
  {
    SlotsStep(defaults, overrides, e);
    AppendedStep(defaults, overrides, e);
  }

  lemma {:induction false} NonEmptyMore(a: seq<string>, b: seq<string>)
    ensures NonEmpty(a + b) == NonEmpty(a) + NonEmpty(b)
  {
    if b == [] {
      assert a + b == a;
    } else {
      assert (a + b)[..|a + b| - 1] == a + b[..|b| - 1];
      NonEmptyMore(a, b[..|b| - 1]);
    }
  }

  lemma {:induction false} NonEmptyAll(env: seq<string>)
    requires forall i :: 0 <= i < |env| ==> env[i] != ""
    ensures NonEmpty(env) == env
  {
    if env != [] {
      NonEmptyAll(env[..|env| - 1]);
    }
  }

  lemma DropEmpty(a: seq<string>, b: seq<string>)
    ensures NonEmpty(a + [""] + b) == NonEmpty(a + b)
  {
    NonEmptyMore(a + [""], b);
    NonEmptyMore(a, b);
    assert (a + [""])[..|a|] == a;
  }

  lemma DeleteEmpty(env: seq<string>, i: nat)
    requires i < |env| && env[i] == ""
    ensures NonEmpty(env[..i] + env[i + 1..]) == NonEmpty(env)
  {
    assert env == env[..i] + [""] + env[i + 1..];
    DropEmpty(env[..i], env[i + 1..]);
  }

  ghost predicate Caches(cache: map<string, nat>, defaults: seq<string>) {
    forall k :: LastIndex(defaults, k) == if k in cache then Some(cache[k]) else None
  }

  method IndexDefaults(defaults: seq<string>) returns (cache: map<string, nat>)
    ensures Caches(cache, defaults)
  {
    cache := map[];
    for i := 0 to |defaults|
      invariant Caches(cache, defaults[..i])
    {
      assert defaults[..i + 1][..i] == defaults[..i];
      cache := cache[Key(defaults[i]) := i];
    }
    assert defaults[..|defaults|] == defaults;
  }

  method RemoveEmpty(defaults: seq<string>) returns (env: seq<string>)
    ensures env == NonEmpty(defaults) && "" !in env
  {
    env := defaults;
    var i := 0;
    while i < |env|
      invariant 0 <= i <= |env|
      invariant forall j :: 0 <= j < i ==> env[j] != ""
      invariant NonEmpty(env) == NonEmpty(defaults)
      decreases |env| - i
    {
      if env[i] == "" {
        DeleteEmpty(env, i);
        env := env[..i] + env[i + 1..];
        i := i - 1;
      }
      i := i + 1;
    }
    NonEmptyAll(env);
  }

  method ReplaceOrAppendEnvValues(defaults: seq<string>, overrides: seq<string>) returns (env: seq<string>)
    ensures env == Merge(defaults, overrides)
  {
    env := defaults;
    var cache := IndexDefaults(defaults);
    assert Unpruned(defaults, []) == defaults;
    for j := 0 to |overrides|
      invariant env == Unpruned(defaults, overrides[..j])
    {
      var value := overrides[j];
      assert overrides[..j + 1] == overrides[..j] + [value];
      UnprunedStep(defaults, overrides[..j], value);
      if !Assigns(value) {
        BareKey(value);
        if value in cache {
          env := env[cache[value] := ""];
        }
        continue;
      }
      if Key(value) in cache {
        env := env[cache[Key(value)] := value];
      } else {
        env := env + [value];
      }
    }
    assert overrides[..|overrides|] == overrides;
    env := RemoveEmpty(env);
  }
}
