/** What each operation of an archive comes to: what it adds under which name, when it refuses, and what it selects. */
module ArchiveEffects {
  import opened Wrappers
  import opened KeyVault
  import opened Archive

  /** A revision's name is the digest of its checkout, path and the digest of its contents, apart by NUL; a capture's likewise. */
  lemma NamesExactly(h: Ideal, project: string, origin: string, path: string, data: string, parent: string, files: map<string, string>)
    ensures Revision(h, project, origin, path, data) == h.digest(project + "\0" + origin + "\0" + path + "\0" + h.digest(data))
    ensures CaptureId(h, project, origin, parent, files) == h.digest(project + "\0" + origin + "\0" + parent + "\0" + h.encode(files))
  {
  }

  /**
   Archiving a file adds nothing when its revision is there, and is refused when 50000 others are. Otherwise it adds
   the reference under the revision's name, and the sealed contents under their own digest.
   */
  lemma RevisionArchived(h: Ideal, s: Store, c: Reading, path: string)
    requires path in c.contents && path in c.kinds && path in c.keys && path in c.nonces
    ensures var r := ArchiveRevision(h, s, c, path);
      var rev, data := Revision(h, c.project, c.origin, path, c.contents[path]), c.contents[path];
      var blob := h.seal(c.keys[path], c.nonces[path], data);
      && (rev in s.artifacts ==> r == Ok(s))
      && (rev !in s.artifacts ==> (r.Ok? <==> |s.artifacts| < 50000))
      && (rev !in s.artifacts && r.Ok? ==>
            && r.value.captures == s.captures
            && r.value.objects == s.objects[h.digest(blob) := blob]
            && r.value.artifacts.Keys == s.artifacts.Keys + {rev} && (forall k | k in s.artifacts :: r.value.artifacts[k] == s.artifacts[k])
            && var a := r.value.artifacts[rev];
              && a.project == c.project && a.checkout == c.origin && a.path == path && a.kind == c.kinds[path] && a.at == c.at
              && a.digest == h.digest(data) && a.size == |data| && a.blobId == h.digest(blob) && a.key == c.keys[path])
  {
    hide Revision;
  }

  /** The files one after the other, up to the first that is refused. */
  lemma FilesArchived(h: Ideal, s: Store, c: Reading, order: seq<string>, path: string)
    requires Listed(c, order + [path])
    ensures Listed(c, order) && ArchiveAll(h, s, c, []) == Ok(s)
    ensures path in c.contents && path in c.kinds && path in c.keys && path in c.nonces
    ensures ArchiveAll(h, s, c, order).Err? ==> ArchiveAll(h, s, c, order + [path]) == Err(ArchiveAll(h, s, c, order).error)
    ensures ArchiveAll(h, s, c, order).Ok? ==> ArchiveAll(h, s, c, order + [path]) == ArchiveRevision(h, ArchiveAll(h, s, c, order).value, c, path)
  {
    hide ArchiveRevision;
    forall p | p in order ensures p in order + [path] {
    }
    assert path in order + [path];
    assert (order + [path])[..|order|] == order;
  }

  /** Each file's path with its revision's name. */
  function Named(h: Ideal, c: Reading): map<string, string> {
    map path | path in c.contents :: Revision(h, c.project, c.origin, path, c.contents[path])
  }

  /**
   Recording archives the files, and then captures them: not when the latest capture holds just these revisions, and
   not when there are 50000 captures. The capture is one step after the latest, and named after it.
   */
  lemma Recorded(h: Ideal, s: Store, c: Reading, order: seq<string>, latest: Option<string>)
    requires Listed(c, order) && (latest.Some? ==> latest.value in s.captures)
    ensures ArchiveAll(h, s, c, order).Err? ==> RecordAfter(h, s, c, order, latest) == Err(ArchiveAll(h, s, c, order).error)
    ensures ArchiveAll(h, s, c, order).Ok? ==>
      var r, t := RecordAfter(h, s, c, order, latest), ArchiveAll(h, s, c, order).value;
      var files, same := Named(h, c), latest.Some? && s.captures[latest.value].files == Named(h, c);
      && (same ==> r == Ok(t))
      && (!same ==> (r.Ok? <==> |s.captures| < 50000))
      && (!same && r.Ok? ==>
            && r.value.artifacts == t.artifacts && r.value.objects == t.objects
            && r.value.captures == t.captures[CaptureId(h, c.project, c.origin, if latest.Some? then latest.value else "", files) :=
                 Capture(if latest.Some? then s.captures[latest.value].sequence + 1 else 1,
                         c.project, c.origin, c.device, c.caption, files, c.at)])
  {
    hide ArchiveAll, Revision, CaptureId;
    assert Revisions(h, c) == Named(h, c);
  }

  /** The latest capture of a checkout has the highest step there is, and there is none only when the checkout has no capture. */
  lemma LatestExactly(captures: map<string, Capture>, project: string, origin: string, latest: Option<string>)
    ensures IsLatest(captures, project, origin, latest) <==>
      if latest.None? then forall id | id in captures :: captures[id].project != project || captures[id].checkout != origin
      else
        && latest.value in captures && captures[latest.value].project == project && captures[latest.value].checkout == origin
        && forall id | id in captures && captures[id].project == project && captures[id].checkout == origin ::
             captures[id].sequence <= captures[latest.value].sequence
  {
  }

  /** Left unnamed, the checkout is the only one the project has captures of. */
  lemma CheckoutExactly(captures: map<string, Capture>, project: string, origin: string, checkout: string)
    ensures Checkout(captures, project, origin) == Ok(checkout) <==>
      && (origin != "" ==> checkout == origin)
      && (origin == "" ==>
            && (exists id | id in captures :: captures[id].project == project)
            && forall id | id in captures && captures[id].project == project :: captures[id].checkout == checkout)
  {
    var origins := Origins(captures, project);
    if origin == "" {
      if |origins| == 1 {
        assert origins == {Only(origins)};
        assert Only(origins) in origins;
        forall id | id in captures && captures[id].project == project ensures captures[id].checkout == Only(origins) {
          assert captures[id].checkout in origins;
        }
      }
      if (exists id | id in captures :: captures[id].project == project)
         && forall id | id in captures && captures[id].project == project :: captures[id].checkout == checkout {
        var id :| id in captures && captures[id].project == project;
        assert checkout in origins;
        assert origins == {checkout};
      }
    }
  }

  /** A restore selects the capture named, of this checkout, or the latest; a capture of no files never. */
  lemma SelectsExactly(captures: map<string, Capture>, project: string, checkout: string, revision: string, latest: Option<string>, c: Capture)
    requires latest.Some? ==> latest.value in captures
    ensures SelectFrom(captures, project, checkout, revision, latest) == Ok((c, checkout)) <==>
      && c.files != map[]
      && if revision != "" then revision in captures && c == captures[revision] && c.project == project && c.checkout == checkout
         else latest.Some? && c == captures[latest.value]
    ensures SelectFrom(captures, project, checkout, revision, latest).Ok? ==> SelectFrom(captures, project, checkout, revision, latest).value.1 == checkout
  {
  }
}
