// The stores image deletion works on (image store, reference store and container store) as one value, and
// the specification of daemon/image_delete.go as functions on that value.

module ImageStore {
  import opened Wrappers

  type ImageID = string

  // A parsed repository reference. A reference with a digest is what the source calls Canonical.
  datatype Named = Named(name: string, tag: Option<string>, digest: Option<string>) {

    predicate IsCanonical() {
      digest.Some?
    }

    // A bare repository name means its "latest" tag.
    function TagNameOnly(): Named {
      if tag.None? && digest.None? then this.(tag := Some("latest")) else this
    }

    // The key of a reference in the reference store: a digest wins over a tag.
    function StoreKey(): Named {
      (if digest.Some? then this.(tag := None) else this).TagNameOnly()
    }
  }

  datatype Container = Container(id: string, imageID: ImageID, running: bool)

  // images maps a stored image to its recorded parent, refs a stored reference to its image.
  datatype World = World(
    images: map<ImageID, Option<ImageID>>,
    refs: map<Named, ImageID>,
    containers: set<Container>)

  function Children(w: World, id: ImageID): set<ImageID> {
    if id in w.images then set c | c in w.images && w.images[c] == Some(id) else {}
  }

  function RefsOf(w: World, id: ImageID): set<Named> {
    set r | r in w.refs && w.refs[r] == id
  }

  predicate UsedBy(w: World, id: ImageID) {
    exists c :: c in w.containers && c.imageID == id
  }

  predicate UsedByRunning(w: World, id: ImageID) {
    exists c :: c in w.containers && c.running && c.imageID == id
  }

  predicate UsedByStopped(w: World, id: ImageID) {
    exists c :: c in w.containers && !c.running && c.imageID == id
  }

  // The reference store files every reference under its own key.
  ghost predicate StoredByKey(w: World) {
    forall r :: r in w.refs ==> r == r.StoreKey()
  }

  // What the stores promise between two deletions.
  ghost predicate Valid(w: World) {
    && StoredByKey(w)
    && (forall r :: r in w.refs ==> w.refs[r] in w.images)
    && (forall i :: i in w.images && w.images[i].Some? ==> w.images[i].value in w.images)
    && (forall c :: c in w.containers && c.running ==> c.imageID in w.images)
  }

  // ---------------------------------------------------------------------------------------------
  // Store operations

  function GetParent(w: World, id: ImageID): Option<ImageID> {
    if id in w.images then w.images[id] else None
  }

  function WithoutRefs(w: World, gone: set<Named>): World {
    w.(refs := w.refs - gone)
  }

  // Deleting an image also forgets it as the recorded parent of its children.
  function WithoutImage(w: World, id: ImageID): World {
    w.(images := map i | i in w.images && i != id ::
                   if w.images[i] == Some(id) then None else w.images[i])
  }

  // ---------------------------------------------------------------------------------------------
  // Conflicts

  datatype ConflictKind = DependentChild | RunningContainer | ActiveReference | StoppedContainer

  const HARD := {DependentChild, RunningContainer}
  const SOFT := {ActiveReference, StoppedContainer}

  datatype Conflict = Conflict(kind: ConflictKind, hard: bool, used: bool)

  function CheckConflict(w: World, id: ImageID, mask: set<ConflictKind>): Option<Conflict> {
    if DependentChild in mask && Children(w, id) != {} then
      Some(Conflict(DependentChild, true, false))
    else if RunningContainer in mask && UsedByRunning(w, id) then
      Some(Conflict(RunningContainer, true, true))
    else if ActiveReference in mask && RefsOf(w, id) != {} then
      Some(Conflict(ActiveReference, false, false))
    else if StoppedContainer in mask && UsedByStopped(w, id) then
      Some(Conflict(StoppedContainer, false, true))
    else
      None
  }

  predicate IsDangling(w: World, id: ImageID) {
    RefsOf(w, id) == {} && Children(w, id) == {}
  }

  datatype Error =
    | NoSuchImage
    | InvalidReference
    | NoSuchReference
    | UnrecognizedImage
    | ReferenceConflict
    | ImageConflict(conflict: Conflict)
  {
    predicate IsConflict() {
      ReferenceConflict? || ImageConflict?
    }
  }

  // The world after a call, the references it reported as untagged, the images it reported as deleted (in
  // order) and the error it returned, if any.
  datatype Outcome = Outcome(world: World, untagged: set<Named>, deleted: seq<ImageID>, error: Option<Error>)

  // ---------------------------------------------------------------------------------------------
  // imageDeleteHelper

  function DeleteImage(w: World, id: ImageID, force: bool, prune: bool, quiet: bool): Outcome
    decreases |w.images|
  {
    match CheckConflict(w, id, if force then HARD else HARD + SOFT)
    case Some(c) =>
      Outcome(w, {}, [], if quiet && (!IsDangling(w, id) || c.used) then None else Some(ImageConflict(c)))
    case None =>
      var refs := RefsOf(w, id);
      var untagged := WithoutRefs(w, refs);
      if id !in w.images then
        Outcome(untagged, refs, [], Some(UnrecognizedImage))
      else
        var w' := WithoutImage(untagged, id);
        assert w'.images.Keys == w.images.Keys - {id};
        assert |w'.images| == |w'.images.Keys| && |w.images| == |w.images.Keys|;
        var parent := GetParent(w, id);
        if !prune || parent.None? then
          Outcome(w', refs, [id], None)
        else
          var rest := DeleteImage(w', parent.value, false, true, true);
          Outcome(rest.world, refs + rest.untagged, [id] + rest.deleted, rest.error)
  }

  // ---------------------------------------------------------------------------------------------
  // ImageDelete

  // The text given by the caller, with what the reference library makes of it and what the two prefix
  // searches in the image store (for the whole text and for its tag) find.
  datatype AnyReference = Unparsable | DigestForm(id: ImageID) | NamedForm(named: Named)

  datatype Request = Request(text: string, reference: AnyReference,
                             found: Option<ImageID>, foundByTag: Option<ImageID>)

  ghost predicate ValidRequest(w: World, req: Request) {
    && (req.found.Some? ==> req.found.value in w.images)
    && (req.foundByTag.Some? ==> req.foundByTag.value in w.images)
  }

  function GetImageID(w: World, req: Request): Option<ImageID> {
    match req.reference
    case Unparsable => None
    case DigestForm(id) => if id in w.images then Some(id) else None
    case NamedForm(named) =>
      if named.StoreKey() in w.refs then
        Some(w.refs[named.StoreKey()])
      else if named.tag.Some? && req.foundByTag.Some?
              && exists r :: r in w.refs && w.refs[r] == req.foundByTag.value && r.name == named.name then
        req.foundByTag
      else
        req.found
  }

  predicate HasPrefix(s: string, prefix: string) {
    prefix <= s
  }

  function AfterColon(s: string): Option<string> {
    if s == "" then None
    else if s[0] == ':' then Some(s[1..])
    else AfterColon(s[1..])
  }

  predicate IsImageIDPrefix(id: ImageID, text: string) {
    || HasPrefix(id, text)
    || (AfterColon(id).Some? && HasPrefix(AfterColon(id).value, text))
  }

  // All references lie in one repository and at most one of them is a tag.
  ghost predicate SingleRepository(refs: set<Named>) {
    && refs != {}
    && (forall r, q :: r in refs && q in refs ==> r.name == q.name)
    && (forall r, q :: r in refs && q in refs && !r.IsCanonical() && !q.IsCanonical() ==> r == q)
  }

  // The digest references that go once the last tag of their repository is gone.
  function OrphanedDigests(w: World, id: ImageID, parsed: Named): set<Named> {
    var refs := RefsOf(w, id);
    if parsed.IsCanonical() || (exists r :: r in refs && !r.IsCanonical() && r.name == parsed.name) then {}
    else set r | r in refs && r.IsCanonical() && r.name == parsed.name
  }

  ghost function DeleteByName(w: World, id: ImageID, reference: AnyReference, force: bool, prune: bool): Outcome {
    if !force && SingleRepository(RefsOf(w, id)) && UsedBy(w, id) then
      Outcome(w, {}, [], Some(ReferenceConflict))
    else if !reference.NamedForm? then
      Outcome(w, {}, [], Some(InvalidReference))
    else
      var parsed := reference.named.TagNameOnly();
      if parsed.StoreKey() !in w.refs then
        Outcome(w, {}, [], Some(NoSuchReference))
      else
        var w1 := WithoutRefs(w, {parsed.StoreKey()});
        var orphans := OrphanedDigests(w1, id, parsed);
        var w2 := WithoutRefs(w1, orphans);
        if RefsOf(w2, id) != {} then
          Outcome(w2, {parsed} + orphans, [], None)
        else
          var rest := DeleteImage(w2, id, force, prune, true);
          Outcome(rest.world, {parsed} + orphans + rest.untagged, rest.deleted, rest.error)
  }

  ghost function DeleteByID(w: World, id: ImageID, force: bool, prune: bool): Outcome {
    var refs := RefsOf(w, id);
    if !SingleRepository(refs) then
      DeleteImage(w, id, force, prune, false)
    else
      match CheckConflict(w, id, if force then HARD else HARD + (SOFT - {ActiveReference}))
      case Some(c) => Outcome(w, {}, [], Some(ImageConflict(c)))
      case None =>
        var rest := DeleteImage(WithoutRefs(w, refs), id, force, prune, false);
        Outcome(rest.world, refs + rest.untagged, rest.deleted, rest.error)
  }

  ghost function ImageDelete(w: World, req: Request, force: bool, prune: bool): Outcome {
    match GetImageID(w, req)
    case None => Outcome(w, {}, [], Some(NoSuchImage))
    case Some(id) =>
      if IsImageIDPrefix(id, req.text)
      then DeleteByID(w, id, force, prune)
      else DeleteByName(w, id, req.reference, force, prune)
  }
}
