// What merging environments means for a single variable, when it refines an update of a map, and when merging
// twice is the same as merging once.

module EnvProofs {
  import opened Wrappers
  import opened Env

  // ---------------------------------------------------------------------------------------------
  // Selecting settings

  function Select(f: string -> bool, env: seq<string>): seq<string> {
    if env == [] then []
    else Select(f, env[..|env| - 1]) + One(f, env[|env| - 1])
  }

  // Empty entries are never selected.
  function One(f: string -> bool, e: string): seq<string> {
    if e != "" && f(e) then [e] else []
  }

  lemma {:induction false} SelectMore(f: string -> bool, a: seq<string>, b: seq<string>)
    ensures Select(f, a + b) == Select(f, a) + Select(f, b)
  {
    if b == [] {
      assert a + b == a;
    } else {
      assert (a + b)[..|a + b| - 1] == a + b[..|b| - 1];
      SelectMore(f, a, b[..|b| - 1]);
    }
  }

  lemma SelectOne(f: string -> bool, e: string)
    ensures Select(f, [e]) == One(f, e)
  {
    assert [e][..0] == [];
  }

  lemma {:induction false} SelectNonEmpty(f: string -> bool, env: seq<string>)
    ensures Select(f, NonEmpty(env)) == Select(f, env)
  {
    if env != [] {
      var p, e := env[..|env| - 1], env[|env| - 1];
      SelectNonEmpty(f, p);
      if e == "" {
        assert NonEmpty(env) == NonEmpty(p) && Select(f, env) == Select(f, p);
      } else {
        SelectOne(f, e);
        SelectMore(f, NonEmpty(p), [e]);
      }
    }
  }

  // No empty entry is left, and every other one as often as before.
  lemma {:induction false} NonEmptyExactly(env: seq<string>, e: string)
    ensures multiset(NonEmpty(env))[e] == if e == "" then 0 else multiset(env)[e]
  {
    if env != [] {
      NonEmptyExactly(env[..|env| - 1], e);
      assert env == env[..|env| - 1] + [env[|env| - 1]];
    }
  }

  // A merge leaves settings only.
  lemma NoEmptyEntry(defaults: seq<string>, overrides: seq<string>)
    ensures "" !in Merge(defaults, overrides)
  {
    NonEmptyExactly(Unpruned(defaults, overrides), "");
  }

  lemma {:induction false} SelectSame(f: string -> bool, a: seq<string>, b: seq<string>)
    requires |a| == |b| && forall i :: 0 <= i < |a| ==> One(f, a[i]) == One(f, b[i])
    ensures Select(f, a) == Select(f, b)
  {
    if a != [] {
      SelectSame(f, a[..|a| - 1], b[..|b| - 1]);
    }
  }

  lemma SelectAround(f: string -> bool, env: seq<string>, i: nat)
    requires i < |env|
    ensures Select(f, env) == Select(f, env[..i]) + One(f, env[i]) + Select(f, env[i + 1..])
  {
    var a, b, c := env[..i], [env[i]], env[i + 1..];
    Pieces(env, i);
    SelectMore(f, a + b, c);
    SelectMore(f, a, b);
    SelectOne(f, env[i]);
  }

  lemma Pieces(env: seq<string>, i: nat)
    requires i < |env|
    ensures env[..i] + [env[i]] + env[i + 1..] == env
  {
  }

  lemma {:induction false} SelectNothing(f: string -> bool, env: seq<string>)
    requires forall i :: 0 <= i < |env| ==> One(f, env[i]) == []
    ensures Select(f, env) == []
  {
    if env != [] {
      SelectNothing(f, env[..|env| - 1]);
    }
  }

  lemma SelectNone(f: string -> bool, env: seq<string>)
    ensures Select(f, env) == [] <==> forall i :: 0 <= i < |env| ==> One(f, env[i]) == []
  {
    if i :| 0 <= i < |env| && One(f, env[i]) != [] {
      SelectAround(f, env, i);
    } else {
      SelectNothing(f, env);
    }
  }

  // ---------------------------------------------------------------------------------------------
  // One variable

  function HasKey(k: string): string -> bool {
    e => Key(e) == k
  }

  // The settings of one variable, in order.
  function Of(env: seq<string>, k: string): seq<string> {
    Select(HasKey(k), env)
  }

  function LastOf(env: seq<string>): Option<string> {
    if env == [] then None else Some(env[|env| - 1])
  }

  // The last setting of a variable wins.
  function Lookup(env: seq<string>, k: string): Option<string> {
    LastOf(Of(env, k))
  }

  // The simple form: each override sets a variable, or unsets one that the defaults name.
  function Folded(defaults: seq<string>, overrides: seq<string>, k: string): Option<string> {
    if overrides == [] then Lookup(defaults, k)
    else
      var e := overrides[|overrides| - 1];
      if Key(e) != k then Folded(defaults, overrides[..|overrides| - 1], k)
      else if Assigns(e) then Some(e)
      else if LastIndex(defaults, k).Some? then None
      else Folded(defaults, overrides[..|overrides| - 1], k)
  }

  // The defaults of a variable except the last.
  function Earlier(defaults: seq<string>, k: string): seq<string> {
    var i := LastIndex(defaults, k);
    if i.Some? then Of(defaults[..i.value], k) else []
  }

  function Assignments(overrides: seq<string>, k: string): seq<string> {
    if overrides == [] then []
    else
      var e := overrides[|overrides| - 1];
      Assignments(overrides[..|overrides| - 1], k) + if Assigns(e) && Key(e) == k then [e] else []
  }

  // The overrides end by unsetting the variable.
  predicate Unset(overrides: seq<string>, k: string) {
    var i := LastIndex(overrides, k);
    i.Some? && !Assigns(overrides[i.value])
  }

  lemma {:induction false} OfAppended(defaults: seq<string>, overrides: seq<string>, k: string)
    ensures Of(Appended(defaults, overrides), k)
         == if LastIndex(defaults, k).None? then Assignments(overrides, k) else []
  {
    if overrides != [] {
      var p, e := overrides[..|overrides| - 1], overrides[|overrides| - 1];
      var more := if Assigns(e) && LastIndex(defaults, Key(e)).None? then [e] else [];
      OfAppended(defaults, p, k);
      SelectOne(HasKey(k), e);
      SelectMore(HasKey(k), Appended(defaults, p), more);
      if LastIndex(defaults, k).Some? || !Assigns(e) || Key(e) != k {
        assert Of(more, k) == [];
      }
    }
  }

  // The settings of a variable, split at its last one.
  lemma OfSplit(env: seq<string>, k: string)
    requires LastIndex(env, k).Some?
    ensures Of(env, k) == Earlier(env, k) + One(HasKey(k), env[LastIndex(env, k).value])
  {
    OfOverwritten(env, env, k);
  }

  // The slots of one variable after its last default was overwritten.
  lemma {:induction false} OfOverwritten(env: seq<string>, slots: seq<string>, k: string)
    requires LastIndex(env, k).Some? && |slots| == |env|
    requires forall i :: 0 <= i < |env| && i != LastIndex(env, k).value ==>
      One(HasKey(k), slots[i]) == One(HasKey(k), env[i])
    ensures Of(slots, k) == Earlier(env, k) + One(HasKey(k), slots[LastIndex(env, k).value])
  {
    var n := |env| - 1;
    if Key(env[n]) == k {
      SelectSame(HasKey(k), slots[..n], env[..n]);
    } else {
      OfOverwritten(env[..n], slots[..n], k);
      assert env[..n][..LastIndex(env, k).value] == env[..LastIndex(env, k).value];
      assert One(HasKey(k), slots[n]) == [];
    }
  }

  lemma SlotKey(defaults: seq<string>, overrides: seq<string>, i: nat)
    requires i < |defaults|
    ensures var slot, k := Slot(defaults, overrides, i), Key(defaults[i]);
      && (slot == "" || Key(slot) == k)
      && (slot == defaults[i] || (LastIndex(defaults, k) == Some(i) && LastIndex(overrides, k).Some?))
  {
  }

  // Of one default: kept, replaced or removed.
  lemma OfSlots(defaults: seq<string>, overrides: seq<string>, k: string)
    ensures var i, last := LastIndex(defaults, k), LastIndex(overrides, k);
      Of(Slots(defaults, overrides), k)
        == if i.None? || last.None? then Of(defaults, k)
           else Earlier(defaults, k) + (if Assigns(overrides[last.value]) then [overrides[last.value]] else [])
  {
    var index, last, slots := LastIndex(defaults, k), LastIndex(overrides, k), Slots(defaults, overrides);
    forall i | 0 <= i < |defaults| && (index != Some(i) || last.None?)
      ensures One(HasKey(k), slots[i]) == One(HasKey(k), defaults[i])
    {
      SlotKey(defaults, overrides, i);
    }
    if index.None? || last.None? {
      SelectSame(HasKey(k), slots, defaults);
    } else {
      OfOverwritten(defaults, slots, k);
    }
  }

  // All settings of a variable in the result.
  lemma OfMerge(defaults: seq<string>, overrides: seq<string>, k: string)
    ensures var i, last := LastIndex(defaults, k), LastIndex(overrides, k);
      Of(Merge(defaults, overrides), k)
        == if i.None? then Assignments(overrides, k)
           else if last.None? then Of(defaults, k)
           else Earlier(defaults, k) + (if Assigns(overrides[last.value]) then [overrides[last.value]] else [])
  {
    SelectNonEmpty(HasKey(k), Unpruned(defaults, overrides));
    SelectMore(HasKey(k), Slots(defaults, overrides), Appended(defaults, overrides));
    OfSlots(defaults, overrides, k);
    OfAppended(defaults, overrides, k);
    SelectNone(HasKey(k), defaults);
  }

  lemma {:induction false} FoldedIs(defaults: seq<string>, overrides: seq<string>, k: string)
    ensures var last, sets := LastIndex(overrides, k), Assignments(overrides, k);
      Folded(defaults, overrides, k)
        == if LastIndex(defaults, k).Some? then
             (if last.None? then Lookup(defaults, k)
              else if Assigns(overrides[last.value]) then Some(overrides[last.value]) else None)
           else if sets == [] then None else Some(sets[|sets| - 1])
  {
    if overrides == [] {
      SelectNone(HasKey(k), defaults);
    } else {
      FoldedIs(defaults, overrides[..|overrides| - 1], k);
    }
  }

  // ---------------------------------------------------------------------------------------------
  // Main results

  // The list algorithm gives a variable the value of the simple form unless the overrides end by unsetting a
  // variable that the defaults set more than once.
  lemma MergeExactly(defaults: seq<string>, overrides: seq<string>, k: string)
    ensures Lookup(Merge(defaults, overrides), k) == Folded(defaults, overrides, k)
       <==> !(Unset(overrides, k) && Earlier(defaults, k) != [])
  {
    LookupMerge(defaults, overrides, k);
    FoldedIs(defaults, overrides, k);
  }

  lemma LookupMerge(defaults: seq<string>, overrides: seq<string>, k: string)
    ensures var i, last := LastIndex(defaults, k), LastIndex(overrides, k);
      Lookup(Merge(defaults, overrides), k)
        == if i.None? then LastOf(Assignments(overrides, k))
           else if last.None? then Lookup(defaults, k)
           else if Assigns(overrides[last.value]) then Some(overrides[last.value])
           else LastOf(Earlier(defaults, k))
  {
    OfMerge(defaults, overrides, k);
    var i, last := LastIndex(defaults, k), LastIndex(overrides, k);
    if i.Some? && last.Some? {
      LastReplaced(Earlier(defaults, k), overrides[last.value]);
    }
  }

  lemma LastReplaced(earlier: seq<string>, e: string)
    ensures LastOf(earlier + (if Assigns(e) then [e] else [])) == if Assigns(e) then Some(e) else LastOf(earlier)
  {
    LastSnoc(earlier, e);
    assert earlier + [] == earlier;
  }

  lemma LastSnoc(env: seq<string>, e: string)
    ensures LastOf(env + [e]) == Some(e)
  {
  }

  // In particular for defaults without repeated names, whatever the overrides.
  lemma MergeRefines(defaults: seq<string>, overrides: seq<string>, k: string)
    requires forall i, j :: 0 <= i < j < |defaults| ==> Key(defaults[i]) != Key(defaults[j])
    ensures Lookup(Merge(defaults, overrides), k) == Folded(defaults, overrides, k)
  {
    var i := LastIndex(defaults, k);
    if i.Some? {
      SelectNone(HasKey(k), defaults[..i.value]);
    }
    MergeExactly(defaults, overrides, k);
  }

  // Unsetting a repeated default uncovers the earlier one.
  lemma UnsetUncovers()
    ensures Lookup(Merge(["A=0", "A=1"], ["A"]), "A") == Some("A=0")
    ensures Folded(["A=0", "A=1"], ["A"], "A") == None
  {
    var d, o, k := ["A=0", "A=1"], ["A"], "A";
    TwoDefaults(d, o, k);
    OfMerge(d, o, k);
    FoldedIs(d, o, k);
  }

  lemma TwoDefaults(d: seq<string>, o: seq<string>, k: string)
    requires d == ["A=0", "A=1"] && o == [k] && k == "A"
    ensures LastIndex(d, k) == Some(1) && LastIndex(o, k) == Some(0) && !Assigns(o[0]) && Earlier(d, k) == ["A=0"]
  {
    Names();
    assert LastIndex(d, k) == Some(1);
    assert d[..1] == ["A=0"];
    SelectOne(HasKey(k), "A=0");
  }

  lemma Names()
    ensures Key("A") == Key("A=0") == Key("A=1") == "A"
  {
    assert "A=0"[1..] == "=0" && "A=1"[1..] == "=1" && "A"[1..] == "";
    assert Key("") == Key("=0") == Key("=1") == "";
  }

  function Unnamed(overrides: seq<string>): string -> bool {
    e => LastIndex(overrides, Key(e)).None?
  }

  lemma {:induction false} AppendedNamed(defaults: seq<string>, overrides: seq<string>, all: seq<string>)
    requires forall i :: 0 <= i < |overrides| ==> LastIndex(all, Key(overrides[i])).Some?
    ensures Select(Unnamed(all), Appended(defaults, overrides)) == []
  {
    if overrides != [] {
      var p, e := overrides[..|overrides| - 1], overrides[|overrides| - 1];
      AppendedNamed(defaults, p, all);
      SelectNone(Unnamed(all), Appended(defaults, p));
      SelectNone(Unnamed(all), Appended(defaults, overrides));
    }
  }

  // The settings that no override names are kept, all of them and in their order.
  lemma SurvivorsInOrder(defaults: seq<string>, overrides: seq<string>)
    ensures Select(Unnamed(overrides), Merge(defaults, overrides)) == Select(Unnamed(overrides), defaults)
  {
    SelectNonEmpty(Unnamed(overrides), Unpruned(defaults, overrides));
    SelectMore(Unnamed(overrides), Slots(defaults, overrides), Appended(defaults, overrides));
    AppendedNamed(defaults, overrides, overrides);
    forall i: nat | i < |defaults|
      ensures One(Unnamed(overrides), Slots(defaults, overrides)[i]) == One(Unnamed(overrides), defaults[i])
    {
      SlotKey(defaults, overrides, i);
    }
    SelectSame(Unnamed(overrides), Slots(defaults, overrides), defaults);
  }

  lemma {:induction false} NoneEmpty(env: seq<string>)
    ensures forall i :: 0 <= i < |NonEmpty(env)| ==> NonEmpty(env)[i] != ""
  {
    if env != [] {
      NoneEmpty(env[..|env| - 1]);
    }
  }

  // A variable that the overrides unset in the end and that the result nevertheless may hold.
  predicate Unstable(defaults: seq<string>, overrides: seq<string>, k: string) {
    Unset(overrides, k) && (Assignments(overrides, k) != [] || Earlier(defaults, k) != [])
  }

  lemma SlotStable(defaults: seq<string>, overrides: seq<string>, i: nat)
    requires i < |Merge(defaults, overrides)| && !Unstable(defaults, overrides, Key(Merge(defaults, overrides)[i]))
    ensures Slot(Merge(defaults, overrides), overrides, i) == Merge(defaults, overrides)[i]
  {
    var env := Merge(defaults, overrides);
    var k := Key(env[i]);
    NoneEmpty(Unpruned(defaults, overrides));
    if LastIndex(env, k) == Some(i) && LastIndex(overrides, k).Some? {
      OfSplit(env, k);
      OfMerge(defaults, overrides, k);
      MergeExactly(defaults, overrides, k);
      FoldedIs(defaults, overrides, k);
      LastAssignment(overrides, k);
    }
  }

  lemma {:induction false} LastAssignment(overrides: seq<string>, k: string)
    requires LastIndex(overrides, k).Some? && Assigns(overrides[LastIndex(overrides, k).value])
    ensures Assignments(overrides, k) != []
    ensures Assignments(overrides, k)[|Assignments(overrides, k)| - 1] == overrides[LastIndex(overrides, k).value]
  {
    if Key(overrides[|overrides| - 1]) != k {
      LastAssignment(overrides[..|overrides| - 1], k);
    }
  }

  lemma {:induction false} AssignmentIn(overrides: seq<string>, e: string)
    requires e in overrides && Assigns(e)
    ensures Assignments(overrides, Key(e)) != []
  {
    if e != overrides[|overrides| - 1] {
      AssignmentIn(overrides[..|overrides| - 1], e);
    }
  }

  lemma {:induction false} AppendedNone(defaults: seq<string>, overrides: seq<string>)
    requires forall e :: e in overrides && Assigns(e) ==> LastIndex(defaults, Key(e)).Some?
    ensures Appended(defaults, overrides) == []
  {
    if overrides != [] {
      AppendedNone(defaults, overrides[..|overrides| - 1]);
    }
  }

  lemma Assigned(defaults: seq<string>, overrides: seq<string>, e: string)
    requires e in overrides && Assigns(e) && !Unstable(defaults, overrides, Key(e))
    ensures LastIndex(Merge(defaults, overrides), Key(e)).Some?
  {
    var k := Key(e);
    AssignmentIn(overrides, e);
    OfMerge(defaults, overrides, k);
    assert LastIndex(overrides, k).Some?;
    SelectNone(HasKey(k), Merge(defaults, overrides));
  }

  lemma StableTwice(defaults: seq<string>, overrides: seq<string>)
    requires forall k :: !Unstable(defaults, overrides, k)
    ensures Merge(Merge(defaults, overrides), overrides) == Merge(defaults, overrides)
  {
    var env := Merge(defaults, overrides);
    forall i | 0 <= i < |env| ensures Slot(env, overrides, i) == env[i] {
      SlotStable(defaults, overrides, i);
    }
    forall e | e in overrides && Assigns(e) ensures LastIndex(env, Key(e)).Some? {
      Assigned(defaults, overrides, e);
    }
    AppendedNone(env, overrides);
    assert Unpruned(env, overrides) == env;
    NoneEmpty(Unpruned(defaults, overrides));
    NonEmptyAll(env);
  }

  lemma UnstableTwice(defaults: seq<string>, overrides: seq<string>, k: string)
    requires Unstable(defaults, overrides, k)
    ensures Merge(Merge(defaults, overrides), overrides) != Merge(defaults, overrides)
  {
    var env := Merge(defaults, overrides);
    OfMerge(defaults, overrides, k);
    OfMerge(env, overrides, k);
    if LastIndex(env, k).Some? {
      NoneEmpty(Unpruned(defaults, overrides));
      OfSplit(env, k);
    } else {
      SelectNone(HasKey(k), env);
    }
  }

  // Merging the same overrides again changes nothing exactly when no variable that they unset in the end is
  // also assigned by them or repeated in the defaults; so always when all of them are assignments.
  lemma TwiceExactly(defaults: seq<string>, overrides: seq<string>)
    ensures Merge(Merge(defaults, overrides), overrides) == Merge(defaults, overrides)
       <==> forall k :: !Unstable(defaults, overrides, k)
    ensures (forall i :: 0 <= i < |overrides| ==> Assigns(overrides[i]))
        ==> Merge(Merge(defaults, overrides), overrides) == Merge(defaults, overrides)
  {
    if k :| Unstable(defaults, overrides, k) {
      UnstableTwice(defaults, overrides, k);
    } else {
      StableTwice(defaults, overrides);
    }
  }
}
