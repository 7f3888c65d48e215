// What image deletion promises: conflicts leave everything alone, runs keep the stores closed, pruning
// removes exactly one chain of ancestors, and the report lists exactly what went away.

module ImageDeleteProofs {
  import opened Wrappers
  import opened ImageStore
  import opened ImageRequests

  // ---------------------------------------------------------------------------------------------
  // Conflicts

  ghost predicate Conflicted(out: Outcome) {
    out.error.Some? && out.error.value.IsConflict()
  }

  ghost predicate Untouched(w: World, out: Outcome) {
    out.world == w && out.untagged == {} && out.deleted == []
  }

  // A conflict always means a child, a reference or a container, and each of them silences a quiet call.
  lemma {:induction false} QuietIsSilent(w: World, id: ImageID, force: bool, prune: bool)
    ensures !Conflicted(DeleteImage(w, id, force, prune, true))
    decreases |w.images|
  {
    DeleteImageShrinks(w, id);
    var w' := WithoutImage(WithoutRefs(w, RefsOf(w, id)), id);
    if CheckConflict(w, id, if force then HARD else HARD + SOFT).None? && id in w.images
       && prune && GetParent(w, id).Some? {
      QuietIsSilent(w', GetParent(w, id).value, false, true);
    }
  }

  lemma DeleteImageShrinks(w: World, id: ImageID)
    ensures id in w.images ==> |WithoutImage(WithoutRefs(w, RefsOf(w, id)), id).images| == |w.images| - 1
  {
    var w' := WithoutImage(WithoutRefs(w, RefsOf(w, id)), id);
    if id in w.images {
      assert w'.images.Keys == w.images.Keys - {id};
      assert |w'.images| == |w'.images.Keys| && |w.images| == |w.images.Keys|;
    }
  }

  // A loud call reports a conflict exactly when its own check finds one; pruning never adds one.
  lemma LoudConflict(w: World, id: ImageID, force: bool, prune: bool)
    ensures Conflicted(DeleteImage(w, id, force, prune, false))
       <==> CheckConflict(w, id, if force then HARD else HARD + SOFT).Some?
    ensures Conflicted(DeleteImage(w, id, force, prune, false)) ==>
      Untouched(w, DeleteImage(w, id, force, prune, false))
  {
    var w' := WithoutImage(WithoutRefs(w, RefsOf(w, id)), id);
    if GetParent(w, id).Some? {
      QuietIsSilent(w', GetParent(w, id).value, false, true);
    }
  }

  // Removing an image's references leaves only the checks for children and containers.
  lemma CheckWithoutRefs(w: World, id: ImageID, gone: set<Named>, mask: set<ConflictKind>)
    requires RefsOf(w, id) <= gone
    ensures CheckConflict(WithoutRefs(w, gone), id, mask) == CheckConflict(w, id, mask - {ActiveReference})
  {
    var w' := WithoutRefs(w, gone);
    assert RefsOf(w', id) == {};
    assert Children(w', id) == Children(w, id);
  }

  lemma ByIDConflict(w: World, id: ImageID, force: bool, prune: bool)
    ensures Conflicted(DeleteByID(w, id, force, prune)) ==> Untouched(w, DeleteByID(w, id, force, prune))
    ensures Conflicted(DeleteByID(w, id, force, prune)) <==> HeldByID(w, id, force)
  {
    var refs := RefsOf(w, id);
    if SingleRepository(refs) {
      var mask := if force then HARD else HARD + SOFT;
      var precheck := if force then HARD else HARD + (SOFT - {ActiveReference});
      assert mask - {ActiveReference} == precheck;
      CheckWithoutRefs(w, id, refs, mask);
      LoudConflict(WithoutRefs(w, refs), id, force, prune);
    } else {
      LoudConflict(w, id, force, prune);
    }
  }

  lemma ByNameConflict(w: World, id: ImageID, reference: AnyReference, force: bool, prune: bool)
    ensures Conflicted(DeleteByName(w, id, reference, force, prune)) ==>
              Untouched(w, DeleteByName(w, id, reference, force, prune))
    ensures Conflicted(DeleteByName(w, id, reference, force, prune)) <==> HeldByName(w, id, force)
  {
    if reference.NamedForm? {
      var parsed := reference.named.TagNameOnly();
      var w1 := WithoutRefs(w, {parsed.StoreKey()});
      QuietIsSilent(WithoutRefs(w1, OrphanedDigests(w1, id, parsed)), id, force, prune);
    }
  }

  // Main result: deletion is all-or-nothing on conflicts, for any stores and any request.
  lemma ConflictChangesNothing(w: World, req: Request, force: bool, prune: bool)
    requires Conflicted(ImageDelete(w, req, force, prune))
    ensures Untouched(w, ImageDelete(w, req, force, prune))
  {
    var id := GetImageID(w, req).value;
    ByIDConflict(w, id, force, prune);
    ByNameConflict(w, id, req.reference, force, prune);
  }

  // Main result: exactly which requests are refused with a conflict.
  lemma ConflictExactly(w: World, req: Request, force: bool, prune: bool, id: ImageID)
    requires ResolvesTo(w, req, id)
    ensures Conflicted(ImageDelete(w, req, force, prune))
       <==> if NamesID(id, req.text) then HeldByID(w, id, force) else HeldByName(w, id, force)
  {
    ResolvesExactly(w, req, id);
    NamesExactly(id, req.text);
    ByIDConflict(w, id, force, prune);
    ByNameConflict(w, id, req.reference, force, prune);
  }

  // ---------------------------------------------------------------------------------------------
  // The stores stay closed

  lemma RemovalKeepsValid(w: World, id: ImageID, gone: set<Named>)
    requires Valid(w)
    ensures Valid(WithoutRefs(w, gone))
    ensures RefsOf(w, id) <= gone && !UsedByRunning(w, id) ==> Valid(WithoutImage(WithoutRefs(w, gone), id))
  {
  }

  lemma ParentHasChild(w: World, c: ImageID)
    ensures GetParent(w, c).Some? && GetParent(w, c).value in w.images ==> c in Children(w, GetParent(w, c).value)
  {
  }

  // On closed stores deleting a stored image can fail only with a conflict, and keeps the stores closed.
  lemma {:induction false} DeleteImageKeepsValid(w: World, id: ImageID, force: bool, prune: bool, quiet: bool)
    requires Valid(w) && id in w.images
    ensures Valid(DeleteImage(w, id, force, prune, quiet).world)
    ensures DeleteImage(w, id, force, prune, quiet).error != Some(UnrecognizedImage)
    ensures DeleteImage(w, id, force, prune, quiet).error.Some? ==> Conflicted(DeleteImage(w, id, force, prune, quiet))
    decreases |w.images|
  {
    if CheckConflict(w, id, if force then HARD else HARD + SOFT).None? {
      var w' := WithoutImage(WithoutRefs(w, RefsOf(w, id)), id);
      RemovalKeepsValid(w, id, RefsOf(w, id));
      DeleteImageShrinks(w, id);
      if prune && GetParent(w, id).Some? {
        var parent := GetParent(w, id).value;
        ParentHasChild(w, id);
        DeleteImageKeepsValid(w', parent, false, true, true);
        QuietIsSilent(w', parent, false, true);
      }
    }
  }

  lemma ByIDKeepsValid(w: World, id: ImageID, force: bool, prune: bool)
    requires Valid(w) && id in w.images
    ensures Valid(DeleteByID(w, id, force, prune).world)
    ensures DeleteByID(w, id, force, prune).error.Some? ==> Conflicted(DeleteByID(w, id, force, prune))
  {
    RemovalKeepsValid(w, id, RefsOf(w, id));
    DeleteImageKeepsValid(w, id, force, prune, false);
    DeleteImageKeepsValid(WithoutRefs(w, RefsOf(w, id)), id, force, prune, false);
  }

  lemma ByNameKeepsValid(w: World, id: ImageID, reference: AnyReference, force: bool, prune: bool)
    requires Valid(w) && id in w.images
    ensures Valid(DeleteByName(w, id, reference, force, prune).world)
    ensures DeleteByName(w, id, reference, force, prune).error.Some? ==>
              Untouched(w, DeleteByName(w, id, reference, force, prune))
  {
    if reference.NamedForm? {
      var parsed := reference.named.TagNameOnly();
      var w1 := WithoutRefs(w, {parsed.StoreKey()});
      var w2 := WithoutRefs(w1, OrphanedDigests(w1, id, parsed));
      assert Valid(w2);
      DeleteImageKeepsValid(w2, id, force, prune, true);
      QuietIsSilent(w2, id, force, prune);
    }
  }

  // Main result: one call keeps the stores closed, and a call that reports any error at all, conflict or
  // not, has changed nothing.
  lemma CallKeepsValid(w: World, req: Request, force: bool, prune: bool)
    requires Valid(w) && ValidRequest(w, req)
    ensures Valid(ImageDelete(w, req, force, prune).world)
    ensures ImageDelete(w, req, force, prune).error.Some? ==> Untouched(w, ImageDelete(w, req, force, prune))
  {
    if GetImageID(w, req).Some? {
      var id := GetImageID(w, req).value;
      ByIDKeepsValid(w, id, force, prune);
      ByIDConflict(w, id, force, prune);
      ByNameKeepsValid(w, id, req.reference, force, prune);
    }
  }

  datatype Call = Call(req: Request, force: bool, prune: bool)

  // The worlds a run of calls passes through, each request made on the world it meets.
  ghost predicate IsRun(worlds: seq<World>, calls: seq<Call>) {
    && |worlds| == |calls| + 1
    && forall k :: 0 <= k < |calls| ==>
         && ValidRequest(worlds[k], calls[k].req)
         && worlds[k + 1] == ImageDelete(worlds[k], calls[k].req, calls[k].force, calls[k].prune).world
  }

  // Main result: over any sequence of calls every reference resolves to a stored image, every recorded
  // parent is stored and every running container's image is stored.
  lemma {:induction false} RunKeepsValid(worlds: seq<World>, calls: seq<Call>, k: nat)
    requires IsRun(worlds, calls) && Valid(worlds[0]) && k < |worlds|
    ensures Valid(worlds[k])
  {
    if k > 0 {
      RunKeepsValid(worlds, calls, k - 1);
      CallKeepsValid(worlds[k - 1], calls[k - 1].req, calls[k - 1].force, calls[k - 1].prune);
    }
  }

  // ---------------------------------------------------------------------------------------------
  // Pruning

  // An ancestor the pruning may take once its child `below` is gone.
  ghost predicate Removable(w: World, id: ImageID, below: ImageID) {
    id in w.images && Children(w, id) == {below} && RefsOf(w, id) == {} && !UsedBy(w, id)
  }

  // Defined on the world before the call alone: the longest chain of ancestors starting at chain[0] in
  // which every image above the head has no other child, no reference and no container.
  ghost predicate IsPruneChain(w: World, chain: seq<ImageID>) {
    && chain != []
    && chain[0] in w.images
    && (forall i :: 0 < i < |chain| ==>
          GetParent(w, chain[i - 1]) == Some(chain[i]) && Removable(w, chain[i], chain[i - 1]))
    && (var last := chain[|chain| - 1];
        GetParent(w, last).Some? ==> !Removable(w, GetParent(w, last).value, last))
  }

  // What is left of the images after a chain is gone; the head may have had references.
  ghost predicate RemovedChain(w: World, chain: seq<ImageID>, w': World) {
    && w'.images == w.images - (set i | i in chain)
    && w'.refs == w.refs - (if chain == [] then {} else RefsOf(w, chain[0]))
    && w'.containers == w.containers
  }

  lemma ChildlessRemoval(w: World, id: ImageID)
    requires Children(w, id) == {} && id in w.images
    ensures WithoutImage(w, id).images == w.images - {id}
  {
    forall c | c in w.images ensures w.images[c] != Some(id) {
      assert c !in Children(w, id);
    }
  }

  lemma AfterRemoval(w: World, id: ImageID, w': World)
    requires Children(w, id) == {} && id in w.images
    requires w' == WithoutImage(WithoutRefs(w, RefsOf(w, id)), id)
    ensures w'.images == w.images - {id} && w'.refs == w.refs - RefsOf(w, id) && w'.containers == w.containers
    ensures forall a :: a != id ==> RefsOf(w', a) == RefsOf(w, a) && GetParent(w', a) == GetParent(w, a)
    ensures forall a :: a != id ==> Children(w', a) == Children(w, a) - {id}
    ensures forall a :: a != id ==> UsedBy(w', a) == UsedBy(w, a)
  {
    assert Children(WithoutRefs(w, RefsOf(w, id)), id) == Children(w, id);
    ChildlessRemoval(WithoutRefs(w, RefsOf(w, id)), id);
  }

  lemma QuietBlocked(w: World, id: ImageID)
    requires CheckConflict(w, id, HARD + SOFT).Some?
    ensures DeleteImage(w, id, false, true, true) == Outcome(w, {}, [], None)
  {
    QuietIsSilent(w, id, false, true);
  }

  lemma SoftCheck(w: World, id: ImageID)
    ensures CheckConflict(w, id, HARD + SOFT).None? <==> Children(w, id) == {} && RefsOf(w, id) == {} && !UsedBy(w, id)
  {
    if exists c :: c in w.containers && c.imageID == id {
      var c :| c in w.containers && c.imageID == id;
      assert c.running || !c.running;
    }
  }

  // The images, references and containers a pruning deletion of `id` may leave and report.
  ghost predicate PruneResult(w: World, id: ImageID, out: Outcome) {
    && out.error == None
    && IsPruneChain(w, out.deleted) && out.deleted[0] == id
    && RemovedChain(w, out.deleted, out.world)
    && out.untagged == RefsOf(w, id)
  }

  // Main result: when a pruning deletion removes anything, it removes exactly the prune chain of its image.
  lemma {:induction false} PruneExact(w: World, id: ImageID, force: bool, quiet: bool)
    requires Valid(w) && id in w.images
    requires CheckConflict(w, id, if force then HARD else HARD + SOFT).None?
    ensures PruneResult(w, id, DeleteImage(w, id, force, true, quiet))
    ensures !UsedByRunning(w, id) && Children(w, id) == {}
    decreases |w.images|
  {
    if GetParent(w, id).None? {
      PruneRoot(w, id, force, quiet);
    } else {
      var w' := WithoutImage(WithoutRefs(w, RefsOf(w, id)), id);
      var p := GetParent(w, id).value;
      if CheckConflict(w', p, HARD + SOFT).None? {
        PruneMeasure(w, id, p);
        PruneExact(w', p, false, true);
      }
      PruneOn(w, id, p, DeleteImage(w', p, false, true, true));
    }
  }

  lemma PruneRoot(w: World, id: ImageID, force: bool, quiet: bool)
    requires id in w.images && GetParent(w, id).None?
    requires CheckConflict(w, id, if force then HARD else HARD + SOFT).None?
    ensures PruneResult(w, id, DeleteImage(w, id, force, true, quiet))
  {
    AfterRemoval(w, id, WithoutImage(WithoutRefs(w, RefsOf(w, id)), id));
    assert (set i | i in [id]) == {id};
  }

  lemma PruneMeasure(w: World, id: ImageID, p: ImageID)
    requires Valid(w) && id in w.images && Children(w, id) == {} && GetParent(w, id) == Some(p)
    requires !UsedByRunning(w, id)
    ensures var w' := WithoutImage(WithoutRefs(w, RefsOf(w, id)), id);
            Valid(w') && p in w'.images && |w'.images| < |w.images|
  {
    DeleteImageShrinks(w, id);
    RemovalKeepsValid(w, id, RefsOf(w, id));
    AfterRemoval(w, id, WithoutImage(WithoutRefs(w, RefsOf(w, id)), id));
    ParentHasChild(w, id);
  }

  lemma PruneOn(w: World, id: ImageID, p: ImageID, rest: Outcome)
    requires Valid(w) && id in w.images && Children(w, id) == {} && GetParent(w, id) == Some(p)
    requires var w' := WithoutImage(WithoutRefs(w, RefsOf(w, id)), id);
             && rest == DeleteImage(w', p, false, true, true)
             && (CheckConflict(w', p, HARD + SOFT).None? ==> PruneResult(w', p, rest))
    ensures PruneResult(w, id, Outcome(rest.world, RefsOf(w, id) + rest.untagged, [id] + rest.deleted, rest.error))
  {
    var w' := WithoutImage(WithoutRefs(w, RefsOf(w, id)), id);
    AfterRemoval(w, id, w');
    ParentHasChild(w, id);
    SoftCheck(w', p);
    if CheckConflict(w', p, HARD + SOFT).Some? {
      QuietBlocked(w', p);
      BlockedAbove(w, id, p, w');
    } else {
      PrependToChain(w, id, p, w', rest.deleted);
      PrependRemoved(w, id, w', rest.deleted, rest.world);
    }
  }

  lemma BlockedAbove(w: World, id: ImageID, p: ImageID, w': World)
    requires id in w.images && Children(w, id) == {} && GetParent(w, id) == Some(p) && p != id && p in w.images
    requires w' == WithoutImage(WithoutRefs(w, RefsOf(w, id)), id)
    requires !(Children(w', p) == {} && RefsOf(w', p) == {} && !UsedBy(w', p))
    ensures IsPruneChain(w, [id]) && RemovedChain(w, [id], w')
  {
    AfterRemoval(w, id, w');
    assert Children(w', p) == Children(w, p) - {id};
  }

  lemma PrependRemoved(w: World, id: ImageID, w': World, rest: seq<ImageID>, w'': World)
    requires id in w.images && Children(w, id) == {}
    requires w' == WithoutImage(WithoutRefs(w, RefsOf(w, id)), id)
    requires rest != [] && rest[0] != id && RefsOf(w', rest[0]) == {} && RemovedChain(w', rest, w'')
    ensures RemovedChain(w, [id] + rest, w'')
  {
    AfterRemoval(w, id, w');
    assert (set i | i in [id] + rest) == {id} + (set i | i in rest);
  }

  lemma PrependToChain(w: World, id: ImageID, p: ImageID, w': World, rest: seq<ImageID>)
    requires Valid(w) && id in w.images && Children(w, id) == {} && GetParent(w, id) == Some(p) && p != id
    requires w' == WithoutImage(WithoutRefs(w, RefsOf(w, id)), id)
    requires Children(w', p) == {} && RefsOf(w', p) == {} && !UsedBy(w', p)
    requires IsPruneChain(w', rest) && rest[0] == p
    ensures IsPruneChain(w, [id] + rest)
  {
    AfterRemoval(w, id, w');
    var chain := [id] + rest;
    assert id in Children(w, p);
    assert Children(w, p) == {id};
    forall i | 0 < i < |chain|
      ensures GetParent(w, chain[i - 1]) == Some(chain[i]) && Removable(w, chain[i], chain[i - 1])
    {
      if i > 1 {
        ChainStep(w, id, p, w', rest, i - 1);
      }
    }
    var last := rest[|rest| - 1];
    assert |rest| > 1 ==> Removable(w', rest[|rest| - 1], rest[|rest| - 2]);
    assert last in w'.images;
    assert chain[|chain| - 1] == last && last != id;
    ParentHasChild(w, last);
    ParentHasChild(w', last);
    if GetParent(w, last).Some? {
      var q := GetParent(w, last).value;
      assert id !in Children(w, q);
      assert Children(w', q) == Children(w, q);
    }
  }

  lemma ChainStep(w: World, id: ImageID, p: ImageID, w': World, rest: seq<ImageID>, j: nat)
    requires id in w.images && Children(w, id) == {} && GetParent(w, id) == Some(p)
    requires w' == WithoutImage(WithoutRefs(w, RefsOf(w, id)), id)
    requires Children(w', p) == {} && IsPruneChain(w', rest) && 0 < j < |rest|
    ensures GetParent(w, rest[j - 1]) == Some(rest[j]) && Removable(w, rest[j], rest[j - 1])
  {
    AfterRemoval(w, id, w');
    assert rest[j - 1] in Children(w', rest[j]);
    assert rest[j] != p && rest[j] != id && rest[j - 1] != id;
    assert id !in Children(w, rest[j]);
  }

  // A world has one prune chain for an image, so the result above leaves no freedom.
  lemma PruneChainUnique(w: World, a: seq<ImageID>, b: seq<ImageID>)
    requires IsPruneChain(w, a) && IsPruneChain(w, b) && a[0] == b[0]
    ensures a == b
  {
    PruneChainLonger(w, a, b);
    PruneChainLonger(w, b, a);
    PruneChainPrefix(w, a, b, |a|);
  }

  lemma PruneChainLonger(w: World, a: seq<ImageID>, b: seq<ImageID>)
    requires IsPruneChain(w, a) && IsPruneChain(w, b) && a[0] == b[0]
    ensures |a| >= |b|
  {
    PruneChainPrefix(w, a, b, if |a| < |b| then |a| else |b|);
    PruneChainStep(w, b, |a|);
  }

  lemma PruneChainStep(w: World, chain: seq<ImageID>, i: nat)
    requires IsPruneChain(w, chain) && 0 < i
    ensures i < |chain| ==> GetParent(w, chain[i - 1]) == Some(chain[i]) && Removable(w, chain[i], chain[i - 1])
  {
  }

  lemma {:induction false} PruneChainPrefix(w: World, a: seq<ImageID>, b: seq<ImageID>, n: nat)
    requires IsPruneChain(w, a) && IsPruneChain(w, b) && a[0] == b[0] && n <= |a| && n <= |b|
    ensures forall i :: 0 <= i < n ==> a[i] == b[i]
  {
    if n > 1 {
      PruneChainPrefix(w, a, b, n - 1);
      assert GetParent(w, a[n - 2]) == Some(a[n - 1]) && GetParent(w, b[n - 2]) == Some(b[n - 1]);
    }
  }

  lemma {:induction false} PruneChainDistinct(w: World, chain: seq<ImageID>, i: nat, j: nat)
    requires IsPruneChain(w, chain) && Children(w, chain[0]) == {} && i < j < |chain|
    ensures chain[i] != chain[j]
  {
    PruneChainStep(w, chain, j);
    if i > 0 {
      PruneChainStep(w, chain, i);
      PruneChainDistinct(w, chain, i - 1, j - 1);
    }
  }

  // ---------------------------------------------------------------------------------------------
  // What one call takes away, and what it reports

  ghost function Keys(refs: set<Named>): set<Named> {
    set r | r in refs :: r.StoreKey()
  }

  ghost predicate Distinct(ids: seq<ImageID>) {
    forall i, j :: 0 <= i < j < |ids| ==> ids[i] != ids[j]
  }

  // The report of a successful call is exact: every reference and image that went is listed, each image
  // once, and nothing else changed.
  ghost predicate ExactReport(w: World, id: ImageID, prune: bool, out: Outcome) {
    && out.world.containers == w.containers
    && out.world.refs == w.refs - Keys(out.untagged)
    && Keys(out.untagged) <= RefsOf(w, id)
    && out.world.images == w.images - (set i | i in out.deleted)
    && Distinct(out.deleted)
    && (out.deleted != [] ==>
          && out.deleted[0] == id && Children(w, id) == {} && !UsedByRunning(w, id)
          && Keys(out.untagged) == RefsOf(w, id)
          && if prune then IsPruneChain(w, out.deleted) else out.deleted == [id])
  }

  lemma StoredKeys(w: World, refs: set<Named>)
    requires Valid(w) && refs <= w.refs.Keys
    ensures Keys(refs) == refs
  {
    forall r | r in refs ensures r in Keys(refs) {
      assert r.StoreKey() in Keys(refs);
    }
  }

  lemma RemovalReport(w: World, id: ImageID, force: bool, prune: bool, quiet: bool)
    requires Valid(w) && id in w.images
    requires DeleteImage(w, id, force, prune, quiet).error.None?
    ensures ExactReport(w, id, prune, DeleteImage(w, id, force, prune, quiet))
    ensures DeleteImage(w, id, force, prune, quiet).deleted == []
       <==> CheckConflict(w, id, if force then HARD else HARD + SOFT).Some?
  {
    var out := DeleteImage(w, id, force, prune, quiet);
    if CheckConflict(w, id, if force then HARD else HARD + SOFT).None? {
      StoredKeys(w, RefsOf(w, id));
      if prune {
        PruneExact(w, id, force, quiet);
        forall i, j | 0 <= i < j < |out.deleted| ensures out.deleted[i] != out.deleted[j] {
          PruneChainDistinct(w, out.deleted, i, j);
        }
      } else {
        AfterRemoval(w, id, out.world);
        assert (set i | i in [id]) == {id};
      }
    }
  }

  // A chain is the same before and after references of its childless head are dropped.
  lemma ChainWithoutHeadRefs(w: World, id: ImageID, gone: set<Named>, chain: seq<ImageID>)
    requires gone <= RefsOf(w, id) && Children(w, id) == {}
    requires IsPruneChain(WithoutRefs(w, gone), chain) && chain[0] == id
    ensures IsPruneChain(w, chain)
  {
    var w' := WithoutRefs(w, gone);
    forall a | a != id ensures RefsOf(w', a) == RefsOf(w, a) {
    }
    forall a ensures Children(w', a) == Children(w, a) && GetParent(w', a) == GetParent(w, a) {
    }
    forall i | 0 < i < |chain|
      ensures GetParent(w, chain[i - 1]) == Some(chain[i]) && Removable(w, chain[i], chain[i - 1])
    {
      PruneChainStep(w', chain, i);
    }
    ParentHasChild(w, chain[|chain| - 1]);
  }

  lemma ReportAfterUntag(w: World, id: ImageID, gone: set<Named>, reported: set<Named>,
                         force: bool, prune: bool, quiet: bool)
    requires Valid(w) && id in w.images && gone <= RefsOf(w, id) && gone == Keys(reported)
    requires DeleteImage(WithoutRefs(w, gone), id, force, prune, quiet).error.None?
    ensures var rest := DeleteImage(WithoutRefs(w, gone), id, force, prune, quiet);
            ExactReport(w, id, prune, Outcome(rest.world, reported + rest.untagged, rest.deleted, None))
  {
    var w' := WithoutRefs(w, gone);
    var rest := DeleteImage(w', id, force, prune, quiet);
    RemovalKeepsValid(w, id, gone);
    RemovalReport(w', id, force, prune, quiet);
    ReportWithUntagged(w, id, prune, gone, reported, rest);
  }

  lemma ReportWithUntagged(w: World, id: ImageID, prune: bool, gone: set<Named>, reported: set<Named>, rest: Outcome)
    requires gone <= RefsOf(w, id) && gone == Keys(reported) && ExactReport(WithoutRefs(w, gone), id, prune, rest)
    ensures ExactReport(w, id, prune, Outcome(rest.world, reported + rest.untagged, rest.deleted, None))
  {
    assert Keys(reported + rest.untagged) == gone + Keys(rest.untagged);
    assert RefsOf(w, id) == gone + RefsOf(WithoutRefs(w, gone), id);
    assert Children(WithoutRefs(w, gone), id) == Children(w, id);
    if rest.deleted != [] && prune {
      ChainWithoutHeadRefs(w, id, gone, rest.deleted);
    }
  }

  // The references to `id` that untagging `parsed` takes: the reference itself and, when it was the last
  // tag of its repository on this image, that repository's digest references.
  ghost function UntaggedKeys(w: World, id: ImageID, parsed: Named): set<Named> {
    var lastTag := !parsed.IsCanonical()
                   && forall r :: r in RefsOf(w, id) && !r.IsCanonical() && r.name == parsed.name ==> r == parsed;
    set r | r in RefsOf(w, id) && (r == parsed.StoreKey() || (lastTag && r.IsCanonical() && r.name == parsed.name))
  }

  lemma UntagStep(w: World, id: ImageID, parsed: Named)
    requires Valid(w) && parsed == parsed.TagNameOnly() && parsed.StoreKey() in RefsOf(w, id)
    ensures var w1 := WithoutRefs(w, {parsed.StoreKey()});
            var orphans := OrphanedDigests(w1, id, parsed);
            && Keys({parsed} + orphans) == UntaggedKeys(w, id, parsed)
            && WithoutRefs(w1, orphans) == WithoutRefs(w, UntaggedKeys(w, id, parsed))
  {
    var key := parsed.StoreKey();
    var w1 := WithoutRefs(w, {key});
    var orphans := OrphanedDigests(w1, id, parsed);
    assert RefsOf(w1, id) == RefsOf(w, id) - {key};
    StoredKeys(w, orphans);
    assert Keys({parsed} + orphans) == {key} + Keys(orphans);
    if !parsed.IsCanonical() {
      assert key == parsed;
      forall r | r in RefsOf(w, id) && !r.IsCanonical() && r.name == parsed.name && r != parsed
        ensures r in RefsOf(w1, id)
      {
      }
    }
    assert {key} + orphans == UntaggedKeys(w, id, parsed);
    assert w.refs - {key} - orphans == w.refs - UntaggedKeys(w, id, parsed);
  }

  lemma ByNameReport(w: World, id: ImageID, reference: AnyReference, force: bool, prune: bool)
    requires Valid(w) && id in w.images
    requires reference.NamedForm? && reference.named.StoreKey() in w.refs ==> w.refs[reference.named.StoreKey()] == id
    requires DeleteByName(w, id, reference, force, prune).error.None?
    ensures reference.NamedForm?
    ensures var out := DeleteByName(w, id, reference, force, prune);
            var gone := UntaggedKeys(w, id, reference.named.TagNameOnly());
            && ExactReport(w, id, prune, out)
            && gone != {} && Keys(out.untagged) == gone
            && (out.deleted != [] <==> RefsOf(w, id) == gone && Children(w, id) == {} && !UsedByRunning(w, id)
                                       && (force || !UsedByStopped(w, id)))
  {
    var parsed := reference.named.TagNameOnly();
    var gone := UntaggedKeys(w, id, parsed);
    var reported := {parsed} + OrphanedDigests(WithoutRefs(w, {parsed.StoreKey()}), id, parsed);
    UntagStep(w, id, parsed);
    assert parsed.StoreKey() in gone;
    UntaggedReport(w, id, gone, reported, force, prune);
  }

  lemma UntaggedReport(w: World, id: ImageID, gone: set<Named>, reported: set<Named>, force: bool, prune: bool)
    requires Valid(w) && id in w.images && gone <= RefsOf(w, id) && gone == Keys(reported)
    ensures var w' := WithoutRefs(w, gone);
            var rest := DeleteImage(w', id, force, prune, true);
            var out := if RefsOf(w', id) != {} then Outcome(w', reported, [], None)
                       else Outcome(rest.world, reported + rest.untagged, rest.deleted, rest.error);
            out.error.None? ==>
              && ExactReport(w, id, prune, out)
              && Keys(out.untagged) == gone
              && (out.deleted != [] <==> RefsOf(w, id) == gone && Children(w, id) == {} && !UsedByRunning(w, id)
                                         && (force || !UsedByStopped(w, id)))
  {
    var w' := WithoutRefs(w, gone);
    assert RefsOf(w', id) == RefsOf(w, id) - gone;
    if RefsOf(w', id) != {} {
      StillReferenced(w, id, gone, reported, prune);
    } else if DeleteImage(w', id, force, prune, true).error.None? {
      AllOf(gone, RefsOf(w, id));
      LastUntagged(w, id, gone, reported, force, prune);
    }
  }

  lemma AllOf(gone: set<Named>, refs: set<Named>)
    requires gone <= refs && refs - gone == {}
    ensures gone == refs
  {
    forall r | r in refs ensures r in gone {
      assert r !in refs - gone;
    }
  }

  lemma LastUntagged(w: World, id: ImageID, gone: set<Named>, reported: set<Named>, force: bool, prune: bool)
    requires Valid(w) && id in w.images && gone == RefsOf(w, id) && gone == Keys(reported)
    requires RefsOf(WithoutRefs(w, gone), id) == {}
    requires DeleteImage(WithoutRefs(w, gone), id, force, prune, true).error.None?
    ensures var rest := DeleteImage(WithoutRefs(w, gone), id, force, prune, true);
      && ExactReport(w, id, prune, Outcome(rest.world, reported + rest.untagged, rest.deleted, rest.error))
      && Keys(reported + rest.untagged) == gone
      && (rest.deleted != [] <==>
            Children(w, id) == {} && !UsedByRunning(w, id) && (force || !UsedByStopped(w, id)))
  {
    var rest := DeleteImage(WithoutRefs(w, gone), id, force, prune, true);
    RemovalKeepsValid(w, id, gone);
    ReportAfterUntag(w, id, gone, reported, force, prune, true);
    NothingMoreUntagged(WithoutRefs(w, gone), id, force, prune);
    assert Keys(reported + rest.untagged) == Keys(reported) + Keys(rest.untagged);
    UntaggedDeletes(w, id, gone, force, prune);
  }

  lemma StillReferenced(w: World, id: ImageID, gone: set<Named>, reported: set<Named>, prune: bool)
    requires gone <= RefsOf(w, id) && gone == Keys(reported)
    ensures ExactReport(w, id, prune, Outcome(WithoutRefs(w, gone), reported, [], None))
  {
    assert w.images - (set i | i in []) == w.images;
  }

  lemma UntaggedDeletes(w: World, id: ImageID, gone: set<Named>, force: bool, prune: bool)
    requires Valid(w) && id in w.images && gone <= RefsOf(w, id) && RefsOf(WithoutRefs(w, gone), id) == {}
    requires Valid(WithoutRefs(w, gone)) && DeleteImage(WithoutRefs(w, gone), id, force, prune, true).error.None?
    ensures DeleteImage(WithoutRefs(w, gone), id, force, prune, true).deleted != []
       <==> Children(w, id) == {} && !UsedByRunning(w, id) && (force || !UsedByStopped(w, id))
  {
    RemovalReport(WithoutRefs(w, gone), id, force, prune, true);
    assert Children(WithoutRefs(w, gone), id) == Children(w, id);
  }

  lemma NothingMoreUntagged(w: World, id: ImageID, force: bool, prune: bool)
    requires Valid(w) && id in w.images && RefsOf(w, id) == {}
    requires DeleteImage(w, id, force, prune, true).error.None?
    ensures Keys(DeleteImage(w, id, force, prune, true).untagged) == {}
  {
    RemovalReport(w, id, force, prune, true);
  }

  lemma ByIDReport(w: World, id: ImageID, force: bool, prune: bool)
    requires Valid(w) && id in w.images
    requires DeleteByID(w, id, force, prune).error.None?
    ensures ExactReport(w, id, prune, DeleteByID(w, id, force, prune))
    ensures DeleteByID(w, id, force, prune).deleted != []
  {
    var refs := RefsOf(w, id);
    ByIDConflict(w, id, force, prune);
    if SingleRepository(refs) {
      StoredKeys(w, refs);
      ReportAfterUntag(w, id, refs, refs, force, prune, false);
      RemovalKeepsValid(w, id, refs);
      RemovalReport(WithoutRefs(w, refs), id, force, prune, false);
      CheckWithoutRefs(w, id, refs, if force then HARD else HARD + SOFT);
      LoudConflict(WithoutRefs(w, refs), id, force, prune);
    } else {
      RemovalReport(w, id, force, prune, false);
      LoudConflict(w, id, force, prune);
    }
  }

  // Main result: what a successful call removes and reports, in terms of the stores before it. By ID the
  // image always goes. By name the image goes exactly when no other reference keeps it and nothing uses it.
  lemma CallRemovesExactly(w: World, req: Request, force: bool, prune: bool, id: ImageID)
    requires Valid(w) && ValidRequest(w, req) && ResolvesTo(w, req, id)
    requires ImageDelete(w, req, force, prune).error.None?
    ensures ExactReport(w, id, prune, ImageDelete(w, req, force, prune))
    ensures NamesID(id, req.text) ==> ImageDelete(w, req, force, prune).deleted != []
    ensures !NamesID(id, req.text) ==>
              && req.reference.NamedForm?
              && var gone := UntaggedBy(w, id, req.reference.named);
                 && Keys(ImageDelete(w, req, force, prune).untagged) == gone
                 && (ImageDelete(w, req, force, prune).deleted != [] <==>
                       RefsOf(w, id) == gone && Children(w, id) == {} && !UsedByRunning(w, id)
                       && (force || !UsedByStopped(w, id)))
  {
    ResolvesExactly(w, req, id);
    NamesExactly(id, req.text);
    if NamesID(id, req.text) {
      ByIDReport(w, id, force, prune);
    } else {
      ByNameReport(w, id, req.reference, force, prune);
      UntaggedExactly(w, id, req.reference.named);
    }
  }

  lemma UntaggedExactly(w: World, id: ImageID, named: Named)
    requires Valid(w)
    ensures UntaggedKeys(w, id, named.TagNameOnly()) == UntaggedBy(w, id, named)
  {
    forall r | r in w.refs
      ensures IsKeyOf(r, named) <==> r == named.TagNameOnly().StoreKey()
      ensures r.digest.None? && named.digest.None? ==> (IsKeyOf(r, named) <==> r == named.TagNameOnly())
    {
      KeyExactly(named, r);
    }
  }

  // Main result: what a call answers. It fails for a request that resolves to nothing, for an image that is held, and
  // by name for a text that is no reference, or none that is stored; otherwise it succeeds.
  lemma CallAnswers(w: World, req: Request, force: bool, prune: bool)
    requires Valid(w) && ValidRequest(w, req)
    ensures var error := ImageDelete(w, req, force, prune).error;
      && (error == Some(NoSuchImage) <==> forall id :: !ResolvesTo(w, req, id))
      && forall id :: ResolvesTo(w, req, id) ==>
           if NamesID(id, req.text) then error.None? <==> !HeldByID(w, id, force)
           else if HeldByName(w, id, force) then error == Some(ReferenceConflict)
           else if !req.reference.NamedForm? then error == Some(InvalidReference)
           else if !IsStored(w, req.reference.named) then error == Some(NoSuchReference)
           else error.None?
  {
    forall id ensures GetImageID(w, req) == Some(id) <==> ResolvesTo(w, req, id) {
      ResolvesExactly(w, req, id);
    }
    if GetImageID(w, req).Some? {
      ResolvedAnswers(w, req, force, prune, GetImageID(w, req).value);
    }
  }

  lemma ResolvedAnswers(w: World, req: Request, force: bool, prune: bool, id: ImageID)
    requires Valid(w) && ValidRequest(w, req) && GetImageID(w, req) == Some(id)
    ensures var error := ImageDelete(w, req, force, prune).error;
      && error != Some(NoSuchImage)
      && if NamesID(id, req.text) then error.None? <==> !HeldByID(w, id, force)
         else if HeldByName(w, id, force) then error == Some(ReferenceConflict)
         else if !req.reference.NamedForm? then error == Some(InvalidReference)
         else if !IsStored(w, req.reference.named) then error == Some(NoSuchReference)
         else error.None?
  {
    NamesExactly(id, req.text);
    if NamesID(id, req.text) {
      ByIDKeepsValid(w, id, force, prune);
      ByIDConflict(w, id, force, prune);
    } else {
      ByNameAnswers(w, id, req.reference, force, prune);
    }
  }

  lemma ByNameAnswers(w: World, id: ImageID, reference: AnyReference, force: bool, prune: bool)
    requires Valid(w) && id in w.images
    ensures DeleteByName(w, id, reference, force, prune).error
         == if HeldByName(w, id, force) then Some(ReferenceConflict)
            else if !reference.NamedForm? then Some(InvalidReference)
            else if !IsStored(w, reference.named) then Some(NoSuchReference)
            else None
  {
    if reference.NamedForm? {
      StoredExactly(w, reference.named);
      KeyExactly(reference.named, reference.named.StoreKey());
      ByNameKeepsValid(w, id, reference, force, prune);
      if !HeldByName(w, id, force) {
        ByNameSucceeds(w, id, reference.named, force, prune);
      }
    }
  }

  lemma ByNameSucceeds(w: World, id: ImageID, named: Named, force: bool, prune: bool)
    requires Valid(w) && id in w.images && !HeldByName(w, id, force)
    ensures DeleteByName(w, id, NamedForm(named), force, prune).error in {None, Some(NoSuchReference)}
  {
    var parsed := named.TagNameOnly();
    var w1 := WithoutRefs(w, {parsed.StoreKey()});
    var w2 := WithoutRefs(w1, OrphanedDigests(w1, id, parsed));
    assert Valid(w2);
    DeleteImageKeepsValid(w2, id, force, prune, true);
    QuietIsSilent(w2, id, force, prune);
  }

  // The conflict that refuses a call by ID, in the order of the checks: a child, a running container, several
  // references, a stopped container. The first two no force overcomes.
  lemma ConflictNamed(w: World, req: Request, force: bool, prune: bool, id: ImageID)
    requires ResolvesTo(w, req, id) && NamesID(id, req.text) && HeldByID(w, id, force)
    ensures ImageDelete(w, req, force, prune).error == Some(ImageConflict(
              if Children(w, id) != {} then Conflict(DependentChild, true, false)
              else if UsedByRunning(w, id) then Conflict(RunningContainer, true, true)
              else if RefsOf(w, id) != {} && !SingleRepository(RefsOf(w, id)) then
                Conflict(ActiveReference, false, false)
              else Conflict(StoppedContainer, false, true)))
  {
    ResolvesExactly(w, req, id);
    NamesExactly(id, req.text);
  }

  // Main result: a short ID, with or without the algorithm, deletes the image it is found for when nothing holds it.
  lemma ShortIDDeletes(w: World, req: Request, force: bool, prune: bool, algorithm: string, hex: string)
    requires Valid(w) && ValidRequest(w, req) && ':' !in algorithm
    requires req.text <= algorithm + ":" + hex || req.text <= hex
    requires req.reference.NamedForm? && !IsStored(w, req.reference.named)
    requires !IsRepoWithID(w, req, req.reference.named) && req.found == Some(algorithm + ":" + hex)
    requires !HeldByID(w, algorithm + ":" + hex, force)
    ensures var id, out := algorithm + ":" + hex, ImageDelete(w, req, force, prune);
      && out.error.None? && id in out.deleted && id !in out.world.images
      && forall r :: r in out.world.refs ==> out.world.refs[r] != id
  {
    var id, out := algorithm + ":" + hex, ImageDelete(w, req, force, prune);
    CallAnswers(w, req, force, prune);
    assert ResolvesTo(w, req, id) && NamesID(id, req.text);
    CallRemovesExactly(w, req, force, prune, id);
    assert out.deleted[0] == id;
    forall r | r in out.world.refs ensures out.world.refs[r] != id {
      assert r in w.refs && out.world.refs[r] == w.refs[r];
    }
  }
}
