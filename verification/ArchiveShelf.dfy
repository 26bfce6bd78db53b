/** The archive as the program runs it: the catalog's maps are filled in place, and searched by loops. */
module ArchiveShelf {
  import opened Wrappers
  import opened KeyVault
  import opened Archive

  class Shelf {
    var captures: map<string, Capture>
    var artifacts: map<string, Artifact>
    var objects: map<string, string>

    ghost function Contents(): Store
      reads this
    {
      Store(captures, artifacts, objects)
    }

    constructor ()
      ensures Contents() == Store(map[], map[], map[])
    {
      captures, artifacts, objects := map[], map[], map[];
    }

    /** One file revision, unless it is there already. */
    method AddRevision(h: Ideal, c: Reading, path: string) returns (r: Result<()>)
      requires path in c.contents && path in c.kinds && path in c.keys && path in c.nonces
      modifies this`artifacts, this`objects
      ensures match ArchiveRevision(h, old(Contents()), c, path)
              case Ok(s) => r.Ok? && Contents() == s
              case Err(m) => r == Err(m) && Contents() == old(Contents())
    {
      var data := c.contents[path];
      var rev := Revision(h, c.project, c.origin, path, data);
      if rev in artifacts { return Ok(()); }
      if |artifacts| >= CATALOG_LIMIT { return Err(REVISION_LIMIT); }
      var blob := h.seal(c.keys[path], c.nonces[path], data);
      var id := h.digest(blob);
      objects := objects[id := blob];
      artifacts := artifacts[rev :=
        Artifact(c.project, c.origin, path, c.kinds[path], h.digest(data), id, c.keys[path], |data|, c.at)];
      return Ok(());
    }

    /** Every file of a checkout, in some order, up to the first that fails. */
    method ArchiveFiles(h: Ideal, c: Reading) returns (r: Result<map<string, string>>, ghost order: seq<string>)
      requires c.contents.Keys <= c.kinds.Keys && c.contents.Keys <= c.keys.Keys && c.contents.Keys <= c.nonces.Keys
      modifies this`artifacts, this`objects
      ensures Listed(c, order) && (r.Ok? ==> forall path | path in c.contents :: path in order)
      ensures match ArchiveAll(h, old(Contents()), c, order)
              case Ok(s) => r == Ok(Revisions(h, c)) && Contents() == s
              case Err(m) => r == Err(m)
    {
      hide ArchiveRevision, Revision;
      order := [];
      var revisions: map<string, string> := map[];
      var todo := c.contents.Keys;
      while todo != {}
        invariant todo <= c.contents.Keys && Listed(c, order)
        invariant forall path | path in c.contents :: path in todo || path in order
        invariant ArchiveAll(h, old(Contents()), c, order) == Ok(Contents())
        invariant revisions == map path | path in c.contents && path !in todo :: RevisionOf(h, c, path)
      {
        var path :| path in todo;
        assert (order + [path])[..|order|] == order;
        order := order + [path];
        var added := AddRevision(h, c, path);
        if added.Err? { return Err(added.error), order; }
        revisions := revisions[path := Revision(h, c.project, c.origin, path, c.contents[path])];
        todo := todo - {path};
      }
      assert revisions == Revisions(h, c);
      return Ok(revisions), order;
    }

    /**
     One checkout into the archive: its files in some order, then a capture of them unless the latest one
     is the same. On an error nothing is captured, and the caller drops the draft.
     */
    method RecordCapture(h: Ideal, c: Reading) returns (r: Result<()>, ghost order: seq<string>, ghost latest: Option<string>)
      requires Faithful(h) && Linked(h, Contents()) && Readable(h, c)
      modifies this
      ensures Listed(c, order) && (latest.Some? ==> latest.value in old(captures))
      ensures IsLatest(old(captures), c.project, c.origin, latest)
      ensures r.Ok? ==> (forall path | path in c.contents :: path in order)
      ensures match RecordAfter(h, old(Contents()), c, order, latest)
              case Ok(s) => r.Ok? && Contents() == s
              case Err(m) => r == Err(m) && captures == old(captures)
      ensures Numbered(old(captures)) ==> latest == Latest(old(captures), c.project, c.origin)
    {
      hide Faithful, Linked, ArchiveAll, CaptureId, Revisions, Newest, IsLatest, Numbered;
      PositiveNumbers(h, Contents());
      LatestIs(captures, c.project, c.origin);
      latest := Latest(captures, c.project, c.origin);
      var archived;
      archived, order := ArchiveFiles(h, c);
      if archived.Err? { return Err(archived.error), order, latest; }
      var newest := NewestCapture(captures, c.project, c.origin);
      latest := newest;
      LatestInside(captures, c.project, c.origin, newest);
      if Numbered(captures) { LatestUnique(captures, c.project, c.origin, newest); }
      r := CaptureAfter(h, c, newest, archived.value, old(Contents()), order);
    }

    /** A capture of the archived files, after the latest one, unless that one has the same files. */
    method CaptureAfter(h: Ideal, c: Reading, latest: Option<string>, revisions: map<string, string>, ghost was: Store, ghost order: seq<string>)
      returns (r: Result<()>)
      requires (latest.Some? ==> latest.value in captures) && captures == was.captures && revisions == Revisions(h, c)
      requires Listed(c, order) && ArchiveAll(h, was, c, order) == Ok(Contents())
      modifies this`captures
      ensures match RecordAfter(h, was, c, order, latest)
              case Ok(s) => r.Ok? && Contents() == s
              case Err(m) => r == Err(m) && captures == was.captures
    {
      hide ArchiveAll, Revisions, CaptureId;
      if latest.Some? && captures[latest.value].files == revisions { return Ok(()); }
      if |captures| >= CATALOG_LIMIT { return Err(CAPTURE_LIMIT); }
      var id := CaptureId(h, c.project, c.origin, Parent(latest), revisions);
      captures := captures[id :=
        Capture(SequenceOf(captures, latest) + 1, c.project, c.origin, c.device, c.caption, revisions, c.at)];
      return Ok(());
    }

    /** The named revision of a checkout, or its latest. */
    method SelectCapture(project: string, origin: string, revision: string) returns (r: Result<(Capture, string)>)
      requires forall id | id in captures :: captures[id].sequence >= 1
      ensures Selects(captures, project, origin, revision, r)
      ensures Numbered(captures) ==> r == Select(captures, project, origin, revision)
    {
      hide Numbered, IsLatest;
      var checkout := origin;
      if origin == "" {
        var origins := Origins(captures, project);
        if |origins| != 1 { return Err(CHOOSE_CHECKOUT); }
        checkout :| checkout in origins;
        assert checkout == Only(origins);
      }
      var latest := NewestCapture(captures, project, checkout);
      LatestInside(captures, project, checkout, latest);
      r := SelectFrom(captures, project, checkout, revision, latest);
      assert Selects(captures, project, origin, revision, r);
      if Numbered(captures) { SelectsOnly(captures, project, origin, revision, r); }
    }

    /** Authenticates every file of the selected capture before anything is handed out. */
    method RestoreProject(h: Ideal, project: string, origin: string, revision: string) returns (r: Result<map<string, string>>)
      requires forall id | id in captures :: captures[id].sequence >= 1
      ensures exists selected | Selects(captures, project, origin, revision, selected) :: r == RestoreFrom(h, Contents(), project, selected)
      ensures Numbered(captures) ==> r == Restore(h, Contents(), project, origin, revision)
    {
      hide Fetch, Select, Selects, Numbered;
      var selected := SelectCapture(project, origin, revision);
      if selected.Err? { return Err(selected.error); }
      var (capture, checkout) := selected.value;
      var contents: map<string, string> := map[];
      var todo := capture.files.Keys;
      while todo != {}
        invariant todo <= capture.files.Keys
        invariant forall path | path in capture.files && path !in todo ::
          Fetch(h, Contents(), project, checkout, path, capture.files[path]).Some?
        invariant contents == map path | path in capture.files && path !in todo ::
          Fetch(h, Contents(), project, checkout, path, capture.files[path]).value
      {
        var path :| path in todo;
        var data := Fetch(h, Store(captures, artifacts, objects), project, checkout, path, capture.files[path]);
        if data.None? { return Err(BAD_REFERENCE); }
        contents := contents[path := data.value];
        todo := todo - {path};
      }
      assert contents == map path | path in capture.files :: Fetch(h, Contents(), project, checkout, path, capture.files[path]).value;
      return Ok(contents);
    }
  }

  /** A capture of a checkout with the highest sequence number, if it has one; which of several is not said. */
  method NewestCapture(captures: map<string, Capture>, project: string, origin: string) returns (latest: Option<string>)
    requires forall id | id in captures :: captures[id].sequence >= 1
    ensures IsLatest(captures, project, origin, latest)
  {
    latest := None;
    var todo := captures.Keys;
    while todo != {}
      invariant todo <= captures.Keys
      invariant latest.Some? ==> latest.value in captures && Of(captures[latest.value], project, origin)
      invariant forall j | j in captures && j !in todo && Of(captures[j], project, origin) ::
        latest.Some? && captures[j].sequence <= captures[latest.value].sequence
    {
      var id :| id in todo;
      if Of(captures[id], project, origin) && captures[id].sequence > SequenceOf(captures, latest) {
        latest := Some(id);
      }
      todo := todo - {id};
    }
  }
}
