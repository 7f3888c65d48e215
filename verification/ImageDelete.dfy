// daemon/image_delete.go in its own form: a daemon whose stores are changed step by step. Every method is
// proved against the specification in ImageStore.

module ImageDelete {
  import opened Wrappers
  import opened ImageStore
  import opened ImageDeleteProofs

  datatype Record = Untagged(ref: Named) | Deleted(id: ImageID)

  function UntaggedRecords(refs: seq<Named>): seq<Record> {
    seq(|refs|, i requires 0 <= i < |refs| => Untagged(refs[i]))
  }

  function DeletedRecords(ids: seq<ImageID>): seq<Record> {
    seq(|ids|, i requires 0 <= i < |ids| => Deleted(ids[i]))
  }

  // `refs` lists each reference of `all` once.
  ghost predicate Lists(refs: seq<Named>, all: set<Named>) {
    && (forall i, j :: 0 <= i < j < |refs| ==> refs[i] != refs[j])
    && (forall r :: r in all <==> r in refs)
  }

  // What a call appended to its records: the untagged references once each, in some order, then the
  // deleted images in the order of deletion.
  ghost predicate Reported(before: seq<Record>, after: seq<Record>, untagged: set<Named>, deleted: seq<ImageID>) {
    exists refs :: Lists(refs, untagged) && after == before + UntaggedRecords(refs) + DeletedRecords(deleted)
  }

  lemma ReportedNothing(records: seq<Record>)
    ensures Reported(records, records, {}, [])
  {
    assert Lists([], {});
    assert records == records + UntaggedRecords([]) + DeletedRecords([]);
  }

  lemma ReportedUntag(before: seq<Record>, refs: seq<Named>, untagged: set<Named>)
    requires Lists(refs, untagged)
    ensures Reported(before, before + UntaggedRecords(refs), untagged, [])
  {
    assert before + UntaggedRecords(refs) == before + UntaggedRecords(refs) + DeletedRecords([]);
  }

  lemma ListsBoth(a: seq<Named>, allA: set<Named>, b: seq<Named>, allB: set<Named>)
    requires Lists(a, allA) && Lists(b, allB) && allA !! allB
    ensures Lists(a + b, allA + allB)
  {
    forall i, j | 0 <= i < j < |a + b| ensures (a + b)[i] != (a + b)[j] {
      if i < |a| <= j {
        assert (a + b)[i] in allA && (a + b)[j] in allB;
      }
    }
  }

  lemma ReportedMore(r0: seq<Record>, untagged: set<Named>, r1: seq<Record>, untaggedLater: set<Named>,
                     r2: seq<Record>, deleted: seq<ImageID>)
    requires Reported(r0, r1, untagged, []) && Reported(r1, r2, untaggedLater, deleted) && untagged !! untaggedLater
    ensures Reported(r0, r2, untagged + untaggedLater, deleted)
  {
    var a :| Lists(a, untagged) && r1 == r0 + UntaggedRecords(a) + DeletedRecords([]);
    var b :| Lists(b, untaggedLater) && r2 == r1 + UntaggedRecords(b) + DeletedRecords(deleted);
    ListsBoth(a, untagged, b, untaggedLater);
    assert r2 == r0 + UntaggedRecords(a + b) + DeletedRecords(deleted);
  }

  lemma ReportedDeletion(r0: seq<Record>, untagged: set<Named>, r1: seq<Record>, id: ImageID)
    requires Reported(r0, r1, untagged, [])
    ensures Reported(r0, r1 + [Deleted(id)], untagged, [id])
  {
    var a :| Lists(a, untagged) && r1 == r0 + UntaggedRecords(a) + DeletedRecords([]);
    assert r1 + [Deleted(id)] == r0 + UntaggedRecords(a) + DeletedRecords([id]);
  }

  lemma ReportedPruning(r0: seq<Record>, untagged: set<Named>, r1: seq<Record>, id: ImageID,
                        r2: seq<Record>, deleted: seq<ImageID>)
    requires Reported(r0, r1, untagged, [id]) && Reported(r1, r2, {}, deleted)
    ensures Reported(r0, r2, untagged, [id] + deleted)
  {
    var a :| Lists(a, untagged) && r1 == r0 + UntaggedRecords(a) + DeletedRecords([id]);
    var b :| Lists(b, {}) && r2 == r1 + UntaggedRecords(b) + DeletedRecords(deleted);
    FirstListed(b, {});
    assert r2 == r0 + UntaggedRecords(a) + DeletedRecords([id] + deleted);
  }

  lemma FirstListed(refs: seq<Named>, all: set<Named>)
    requires Lists(refs, all)
    ensures |refs| > 0 ==> refs[0] in all
  {
  }

  lemma {:induction false} PruningUntagsNothing(w: World, id: ImageID)
    ensures DeleteImage(w, id, false, true, true).untagged == {}
    decreases |w.images|
  {
    var w' := WithoutImage(WithoutRefs(w, RefsOf(w, id)), id);
    DeleteImageShrinks(w, id);
    if id in w.images && GetParent(w, id).Some? {
      PruningUntagsNothing(w', GetParent(w, id).value);
    }
  }

  lemma ListsMore(refs: seq<Named>, ref: Named, all: set<Named>)
    requires Lists(refs, all) && ref !in all
    ensures Lists(refs + [ref], all + {ref})
  {
    assert forall k :: 0 <= k < |refs| ==> refs[k] in refs;
  }

  // All in one repository, at most one of them a tag.
  ghost predicate SingleReference(refs: seq<Named>) {
    && refs != []
    && (forall i, j :: 0 <= i < j < |refs| ==> refs[i].name == refs[j].name)
    && (forall i, j :: 0 <= i < j < |refs| ==> refs[i].IsCanonical() || refs[j].IsCanonical())
  }

  lemma SingleReferenceOfList(refs: seq<Named>, all: set<Named>)
    requires Lists(refs, all)
    ensures SingleReference(refs) <==> SingleRepository(all)
  {
    if SingleRepository(all) {
      assert forall i :: 0 <= i < |refs| ==> refs[i] in all;
    }
    if SingleReference(refs) {
      assert refs[0] in all;
    }
  }

  method IsSingleReference(repoRefs: seq<Named>) returns (single: bool)
    ensures single <==> SingleReference(repoRefs)
  {
    if |repoRefs| <= 1 {
      return |repoRefs| == 1;
    }
    var singleRef: Option<Named> := None;
    var canonicalRefs: set<string> := {};
    ghost var tag := 0;
    for i := 0 to |repoRefs|
      invariant canonicalRefs == set r | r in repoRefs[..i] && r.IsCanonical() :: r.name
      invariant singleRef.None? ==> forall k :: 0 <= k < i ==> repoRefs[k].IsCanonical()
      invariant singleRef.Some? ==> 0 <= tag < i && singleRef.value == repoRefs[tag] && !repoRefs[tag].IsCanonical()
      invariant singleRef.Some? ==> forall k :: 0 <= k < i && k != tag ==> repoRefs[k].IsCanonical()
    {
      assert repoRefs[..i + 1] == repoRefs[..i] + [repoRefs[i]];
      if repoRefs[i].IsCanonical() {
        canonicalRefs := canonicalRefs + {repoRefs[i].name};
      } else if singleRef.None? {
        singleRef := Some(repoRefs[i]);
        tag := i;
      } else {
        return false;
      }
    }
    assert repoRefs[..|repoRefs|] == repoRefs;
    if singleRef.None? {
      singleRef := Some(repoRefs[0]);
    }
    single := |canonicalRefs| == 1 && singleRef.value.name in canonicalRefs;
    OneName(repoRefs, canonicalRefs, singleRef.value, single);
  }

  lemma OneName(refs: seq<Named>, names: set<string>, ref: Named, single: bool)
    requires |refs| > 1 && ref in refs
    requires names == set r | r in refs && r.IsCanonical() :: r.name
    requires forall i, j :: 0 <= i < j < |refs| ==> refs[i].IsCanonical() || refs[j].IsCanonical()
    requires forall r :: r in refs && !r.IsCanonical() ==> r == ref
    requires single <==> |names| == 1 && ref.name in names
    ensures single <==> SingleReference(refs)
  {
    if single {
      assert names == {ref.name} by {
        var rest := names - {ref.name};
        assert |rest| == 0;
      }
      forall r | r in refs ensures r.name == ref.name {
        if r.IsCanonical() {
          assert r.name in names;
        }
      }
    }
    if SingleReference(refs) {
      assert forall r :: r in refs ==> r.name == refs[0].name;
      assert refs[0].IsCanonical() || refs[1].IsCanonical();
      assert exists r :: r in refs && r.IsCanonical() && r.name in names;
      assert names == {ref.name};
    }
  }

  ghost function DigestsOf(refs: seq<Named>, name: string): set<Named> {
    set r | r in refs && r.IsCanonical() && r.name == name
  }

  class Daemon {
    var images: map<ImageID, Option<ImageID>>
    var refs: map<Named, ImageID>
    var containers: set<Container>

    function State(): World
      reads this
    {
      World(images, refs, containers)
    }

    // The references to an image; the model leaves their order open.
    method References(id: ImageID) returns (repoRefs: seq<Named>)
      ensures Lists(repoRefs, RefsOf(State(), id))
    {
      repoRefs := [];
      var todo := set r | r in refs && refs[r] == id;
      while todo != {}
        invariant todo <= RefsOf(State(), id)
        invariant Lists(repoRefs, RefsOf(State(), id) - todo)
        decreases todo
      {
        var r :| r in todo;
        ListsMore(repoRefs, r, RefsOf(State(), id) - todo);
        assert RefsOf(State(), id) - todo + {r} == RefsOf(State(), id) - (todo - {r});
        repoRefs := repoRefs + [r];
        todo := todo - {r};
      }
    }

    method RemoveImageRef(ref: Named) returns (parsed: Named, ok: bool)
      modifies this`refs
      ensures parsed == ref.TagNameOnly()
      ensures ok == (parsed.StoreKey() in old(refs))
      ensures refs == old(refs) - {parsed.StoreKey()}
    {
      parsed := ref.TagNameOnly();
      ok := parsed.StoreKey() in refs;
      refs := refs - {parsed.StoreKey()};
    }

    // Removes the listed references, recording each.
    method RemoveImageRefs(repoRefs: seq<Named>, ghost all: set<Named>, records: seq<Record>)
        returns (records': seq<Record>, ok: bool)
      requires StoredByKey(State()) && Lists(repoRefs, all) && all <= refs.Keys
      modifies this`refs
      ensures ok && refs == old(refs) - all
      ensures Reported(records, records', all, [])
    {
      records', ok := records, true;
      ghost var before := refs;
      for i := 0 to |repoRefs|
        invariant ok && refs == before - (set r | r in repoRefs[..i])
        invariant records' == records + UntaggedRecords(repoRefs[..i])
      {
        assert repoRefs[..i + 1] == repoRefs[..i] + [repoRefs[i]];
        assert repoRefs[i] in all && repoRefs[i].StoreKey() == repoRefs[i];
        var parsed, removed := RemoveImageRef(repoRefs[i]);
        if !removed {
          return records', false;
        }
        records' := records' + [Untagged(parsed)];
      }
      assert repoRefs[..|repoRefs|] == repoRefs;
      ReportedUntag(records, repoRefs, all);
    }

    // Removes the digest references of one repository, recording each, and keeps the rest of the list.
    method RemoveDigestRefs(repoRefs: seq<Named>, name: string, records: seq<Record>)
        returns (records': seq<Record>, remaining: seq<Named>, ok: bool)
      requires StoredByKey(State()) && (exists all :: Lists(repoRefs, all) && all <= refs.Keys)
      modifies this`refs
      ensures ok && refs == old(refs) - DigestsOf(repoRefs, name)
      ensures Reported(records, records', DigestsOf(repoRefs, name), [])
      ensures forall r :: r in remaining <==> r in repoRefs && !(r.IsCanonical() && r.name == name)
    {
      records', remaining, ok := records, [], true;
      ghost var before := refs;
      ghost var removedRefs: seq<Named> := [];
      for i := 0 to |repoRefs|
        invariant ok && refs == before - DigestsOf(repoRefs[..i], name)
        invariant Lists(removedRefs, DigestsOf(repoRefs[..i], name))
        invariant records' == records + UntaggedRecords(removedRefs)
        invariant forall r :: r in remaining <==> r in repoRefs[..i] && !(r.IsCanonical() && r.name == name)
      {
        assert repoRefs[..i + 1] == repoRefs[..i] + [repoRefs[i]];
        assert repoRefs[i] !in repoRefs[..i] && repoRefs[i] in before;
        assert DigestsOf(repoRefs[..i + 1], name) == DigestsOf(repoRefs[..i], name)
            + (if repoRefs[i].IsCanonical() && repoRefs[i].name == name then {repoRefs[i]} else {});
        if repoRefs[i].IsCanonical() && repoRefs[i].name == name {
          var parsed, removed := RemoveImageRef(repoRefs[i]);
          if !removed {
            return records', remaining, false;
          }
          ListsMore(removedRefs, repoRefs[i], DigestsOf(repoRefs[..i], name));
          removedRefs := removedRefs + [repoRefs[i]];
          records' := records' + [Untagged(repoRefs[i])];
        } else {
          remaining := remaining + [repoRefs[i]];
        }
      }
      assert repoRefs[..|repoRefs|] == repoRefs;
      ReportedUntag(records, removedRefs, DigestsOf(repoRefs, name));
    }

    method RemoveAllReferencesToImageID(id: ImageID, records: seq<Record>) returns (records': seq<Record>, ok: bool)
      requires StoredByKey(State())
      modifies this`refs
      ensures ok && State() == WithoutRefs(old(State()), RefsOf(old(State()), id))
      ensures Reported(records, records', RefsOf(old(State()), id), [])
    {
      ghost var w := State();
      var imageRefs := References(id);
      records', ok := RemoveImageRefs(imageRefs, RefsOf(w, id), records);
    }

    // Deletes an image from the image store, which also forgets it as a recorded parent.
    method DeleteFromStore(id: ImageID) returns (ok: bool)
      modifies this`images
      ensures ok == (id in old(images))
      ensures ok ==> State() == WithoutImage(old(State()), id)
      ensures !ok ==> State() == old(State())
    {
      ok := id in images;
      if ok {
        images := map i | i in images && i != id :: if images[i] == Some(id) then None else images[i];
      }
    }

    method ImageDeleteHelper(id: ImageID, records: seq<Record>, force: bool, prune: bool, quiet: bool)
        returns (records': seq<Record>, err: Option<Error>)
      requires StoredByKey(State())
      modifies this`images, this`refs
      ensures var out := DeleteImage(old(State()), id, force, prune, quiet);
              && State() == out.world && err == out.error
              && Reported(records, records', out.untagged, out.deleted)
      decreases |images|
    {
      ghost var w := State();
      ReportedNothing(records);
      records' := records;
      var c := HARD;
      if !force {
        c := c + SOFT;
      }
      var conflict := CheckConflict(State(), id, c);
      if conflict.Some? {
        if quiet && (!IsDangling(State(), id) || conflict.value.used) {
          return records', None;
        }
        return records', Some(ImageConflict(conflict.value));
      }
      var parent := GetParent(State(), id);

      var ok;
      records', ok := RemoveImage(id, records');
      if !ok {
        return records', Some(UnrecognizedImage);
      }
      if !prune || parent.None? {
        return records', None;
      }
      ghost var removed, rest := records', DeleteImage(State(), parent.value, false, true, true);
      DeleteImageShrinks(w, id);
      PruningUntagsNothing(State(), parent.value);
      records', err := ImageDeleteHelper(parent.value, records', false, true, true);
      ReportedPruning(records, RefsOf(w, id), removed, id, records', rest.deleted);
    }

    // The references of an image, then the image itself.
    method RemoveImage(id: ImageID, records: seq<Record>) returns (records': seq<Record>, ok: bool)
      requires StoredByKey(State())
      modifies this`images, this`refs
      ensures ok == (id in old(images))
      ensures var w, untagged := old(State()), WithoutRefs(old(State()), RefsOf(old(State()), id));
              && State() == (if ok then WithoutImage(untagged, id) else untagged)
              && Reported(records, records', RefsOf(w, id), if ok then [id] else [])
    {
      ghost var w := State();
      records', ok := RemoveAllReferencesToImageID(id, records);
      ghost var untagged := records';
      ok := DeleteFromStore(id);
      if ok {
        records' := records' + [Deleted(id)];
        ReportedDeletion(records, RefsOf(w, id), untagged, id);
      }
    }

    // Removes a reference and, if it was the last tag of its repository, the repository's digest references.
    method UntagReference(id: ImageID, ref: Named) returns (records: seq<Record>, repoRefs: seq<Named>, ok: bool)
      requires StoredByKey(State())
      modifies this`refs
      ensures var w, parsed := old(State()), ref.TagNameOnly();
              var w1 := WithoutRefs(w, {parsed.StoreKey()});
              var orphans := OrphanedDigests(w1, id, parsed);
              && ok == (parsed.StoreKey() in w.refs)
              && (!ok ==> State() == w)
              && (ok ==> && State() == WithoutRefs(w1, orphans)
                         && Reported([], records, {parsed} + orphans, [])
                         && forall r :: r in repoRefs <==> r in RefsOf(State(), id))
    {
      ghost var w := State();
      records, repoRefs := [], [];
      var parsed;
      parsed, ok := RemoveImageRef(ref);
      if !ok {
        assert refs == w.refs;
        return;
      }
      ghost var w1 := State();
      ghost var orphans := OrphanedDigests(w1, id, parsed);
      records := [Untagged(parsed)];
      ReportedUntag([], [parsed], {parsed});
      assert records == [] + UntaggedRecords([parsed]);
      repoRefs := References(id);
      if !parsed.IsCanonical() {
        var foundRepoTagRef := exists r :: r in repoRefs && !r.IsCanonical() && r.name == parsed.name;
        if !foundRepoTagRef {
          assert DigestsOf(repoRefs, parsed.name) == orphans;
          records, repoRefs, ok := RemoveDigestRefs(repoRefs, parsed.name, records);
          ReportedMore([], {parsed}, [Untagged(parsed)], orphans, records, []);
          return;
        }
      }
      assert orphans == {} && WithoutRefs(w1, orphans) == w1 && {parsed} + orphans == {parsed};
    }

    method DeleteByReference(id: ImageID, reference: AnyReference, force: bool, prune: bool)
        returns (records: seq<Record>, err: Option<Error>)
      requires StoredByKey(State())
      modifies this`images, this`refs
      ensures var out := DeleteByName(old(State()), id, reference, force, prune);
              && State() == out.world && err == out.error
              && (err.None? ==> Reported([], records, out.untagged, out.deleted))
    {
      var repoRefs := References(id);
      SingleReferenceOfList(repoRefs, RefsOf(State(), id));
      var single := IsSingleReference(repoRefs);
      if !force && single && UsedBy(State(), id) {
        return [], Some(ReferenceConflict);
      }
      if !reference.NamedForm? {
        return [], Some(InvalidReference);
      }
      ghost var parsed := reference.named.TagNameOnly();
      ghost var w1 := WithoutRefs(State(), {parsed.StoreKey()});
      ghost var gone := {parsed} + OrphanedDigests(w1, id, parsed);
      var ok;
      records, repoRefs, ok := UntagReference(id, reference.named);
      if !ok {
        return [], Some(NoSuchReference);
      }
      assert |repoRefs| > 0 <==> RefsOf(State(), id) != {} by {
        assert |repoRefs| > 0 ==> repoRefs[0] in RefsOf(State(), id);
      }
      if |repoRefs| > 0 {
        return records, None;
      }
      ghost var untagged, w2 := records, State();
      UntaggedAlready(w2, id, force, prune, true);
      records, err := ImageDeleteHelper(id, records, force, prune, true);
      ghost var rest := DeleteImage(w2, id, force, prune, true);
      ReportedMore([], gone, untagged, {}, records, rest.deleted);
      assert gone + {} == gone;
    }

    method DeleteByIdentifier(id: ImageID, force: bool, prune: bool) returns (records: seq<Record>, err: Option<Error>)
      requires StoredByKey(State())
      modifies this`images, this`refs
      ensures var out := DeleteByID(old(State()), id, force, prune);
              && State() == out.world && err == out.error
              && (err.None? ==> Reported([], records, out.untagged, out.deleted))
    {
      ghost var w := State();
      records := [];
      ReportedNothing([]);
      ghost var gone: set<Named> := {};
      var repoRefs := References(id);
      SingleReferenceOfList(repoRefs, RefsOf(w, id));
      var single := IsSingleReference(repoRefs);
      if single {
        var c := HARD;
        if !force {
          c := c + (SOFT - {ActiveReference});
        }
        var conflict := CheckConflict(State(), id, c);
        if conflict.Some? {
          return [], Some(ImageConflict(conflict.value));
        }
        var ok;
        records, ok := RemoveImageRefs(repoRefs, RefsOf(w, id), records);
        gone := RefsOf(w, id);
        assert State() == WithoutRefs(w, gone) && RefsOf(State(), id) == {};
        UntaggedAlready(State(), id, force, prune, false);
      }
      ghost var untagged, w' := records, State();
      records, err := ImageDeleteHelper(id, records, force, prune, false);
      ghost var rest := DeleteImage(w', id, force, prune, false);
      ReportedMore([], gone, untagged, rest.untagged, records, rest.deleted);
      assert {} + rest.untagged == rest.untagged;
    }

    // The whole call. On success the returned records report exactly what the specification removes.
    method ImageDelete(req: Request, force: bool, prune: bool) returns (records: seq<Record>, err: Option<Error>)
      requires StoredByKey(State())
      modifies this`images, this`refs
      ensures var out := ImageStore.ImageDelete(old(State()), req, force, prune);
              && State() == out.world && err == out.error
              && (err.None? ==> Reported([], records, out.untagged, out.deleted))
              && (err.Some? ==> records == [])
    {
      var imgID := GetImageID(State(), req);
      if imgID.None? {
        return [], Some(NoSuchImage);
      }
      if !IsImageIDPrefix(imgID.value, req.text) {
        records, err := DeleteByReference(imgID.value, req.reference, force, prune);
      } else {
        records, err := DeleteByIdentifier(imgID.value, force, prune);
      }
      if err.Some? {
        records := [];
      }
    }
  }

  // Once an image has no reference left, deleting it untags nothing more.
  lemma UntaggedAlready(w: World, id: ImageID, force: bool, prune: bool, quiet: bool)
    requires RefsOf(w, id) == {}
    ensures DeleteImage(w, id, force, prune, quiet).untagged == {}
  {
    if GetParent(w, id).Some? {
      PruningUntagsNothing(WithoutImage(WithoutRefs(w, RefsOf(w, id)), id), GetParent(w, id).value);
    }
  }

}
