// Which image a request names and whether by its ID, in terms of the texts and the stored references.

module ImageRequests {
  import opened Wrappers
  import opened ImageStore

  // The stored reference that a name stands for: a digest comes without a tag, and no tag means "latest".
  predicate IsKeyOf(key: Named, named: Named) {
    && key.name == named.name
    && (named.digest.Some? ==> key.digest == named.digest && key.tag.None?)
    && (named.digest.None? ==>
          key.digest.None? && key.tag == Some(if named.tag.Some? then named.tag.value else "latest"))
  }

  ghost predicate IsStored(w: World, named: Named) {
    exists key :: key in w.refs && IsKeyOf(key, named)
  }

  // A repository name with a short ID in place of the tag.
  ghost predicate IsRepoWithID(w: World, req: Request, named: Named) {
    && named.tag.Some? && req.foundByTag.Some?
    && exists r :: r in w.refs && w.refs[r] == req.foundByTag.value && r.name == named.name
  }

  // A stored reference comes first, then a repository with a short ID, then the search for an ID.
  ghost predicate ResolvesTo(w: World, req: Request, id: ImageID) {
    match req.reference
    case Unparsable => false
    case DigestForm(digest) => id == digest && digest in w.images
    case NamedForm(named) =>
      if IsStored(w, named) then exists key :: key in w.refs && IsKeyOf(key, named) && w.refs[key] == id
      else if IsRepoWithID(w, req, named) then req.foundByTag == Some(id)
      else req.found == Some(id)
  }

  // The text is the beginning of the ID, with or without the algorithm before the first colon.
  ghost predicate NamesID(id: ImageID, text: string) {
    || text <= id
    || exists algorithm, hex :: id == algorithm + ":" + hex && ':' !in algorithm && text <= hex
  }

  lemma KeyExactly(named: Named, key: Named)
    ensures IsKeyOf(key, named) <==> key == named.TagNameOnly().StoreKey()
    ensures named.StoreKey() == named.TagNameOnly().StoreKey()
  {
  }

  lemma StoredExactly(w: World, named: Named)
    ensures IsStored(w, named) <==> named.StoreKey() in w.refs
  {
    KeyExactly(named, named.StoreKey());
    forall key | key in w.refs && IsKeyOf(key, named) ensures key == named.StoreKey() {
      KeyExactly(named, key);
    }
  }

  lemma ResolvesExactly(w: World, req: Request, id: ImageID)
    ensures GetImageID(w, req) == Some(id) <==> ResolvesTo(w, req, id)
  {
    if req.reference.NamedForm? {
      var named := req.reference.named;
      StoredExactly(w, named);
      KeyExactly(named, named.StoreKey());
      forall key | key in w.refs && IsKeyOf(key, named) ensures key == named.StoreKey() {
        KeyExactly(named, key);
      }
    }
  }

  lemma {:induction false} ColonAt(s: string)
    ensures AfterColon(s).None? <==> ':' !in s
    ensures AfterColon(s).Some? ==> exists a :: ':' !in a && s == a + ":" + AfterColon(s).value
  {
    if s != "" && s[0] != ':' {
      ColonAt(s[1..]);
      if AfterColon(s[1..]).Some? {
        var a :| ':' !in a && s[1..] == a + ":" + AfterColon(s[1..]).value;
        assert s == ([s[0]] + a) + ":" + AfterColon(s).value;
      }
    } else if s != "" {
      assert s == "" + ":" + AfterColon(s).value;
    }
  }

  lemma {:induction false} ColonUnique(a: string, h: string)
    requires ':' !in a
    ensures AfterColon(a + ":" + h) == Some(h)
  {
    var s := a + ":" + h;
    if a == "" {
      assert s[1..] == h;
    } else {
      assert s[1..] == a[1..] + ":" + h;
      ColonUnique(a[1..], h);
    }
  }

  lemma NamesExactly(id: ImageID, text: string)
    ensures IsImageIDPrefix(id, text) <==> NamesID(id, text)
  {
    if AfterColon(id).Some? && text <= AfterColon(id).value {
      ColonAt(id);
      var a :| ':' !in a && id == a + ":" + AfterColon(id).value;
    }
    if algorithm, hex :| id == algorithm + ":" + hex && ':' !in algorithm && text <= hex {
      ColonUnique(algorithm, hex);
    }
  }

  // The references of `id` that untagging a name takes: the one it stands for and, when no other tag of its
  // repository is left on the image, that repository's digest references.
  ghost function UntaggedBy(w: World, id: ImageID, named: Named): set<Named> {
    var lastTag := named.digest.None?
      && forall r :: r in RefsOf(w, id) && r.digest.None? && r.name == named.name ==> IsKeyOf(r, named);
    set r | r in RefsOf(w, id) && (IsKeyOf(r, named) || (lastTag && r.digest.Some? && r.name == named.name))
  }

  // What refuses a call by ID, and one by name.
  ghost predicate HeldByID(w: World, id: ImageID, force: bool) {
    || Children(w, id) != {}
    || UsedByRunning(w, id)
    || (!force && (UsedByStopped(w, id) || (RefsOf(w, id) != {} && !SingleRepository(RefsOf(w, id)))))
  }

  ghost predicate HeldByName(w: World, id: ImageID, force: bool) {
    !force && SingleRepository(RefsOf(w, id)) && UsedBy(w, id)
  }
}
