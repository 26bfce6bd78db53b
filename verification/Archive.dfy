/**
 The archive of project checkouts: immutable encrypted file revisions, and per checkout a sequence of
 captures linked by their ids. Digest, cipher and JSON encoding are ideal functions handed to the model;
 what is hashed is not.
 */
module Archive {
  import opened Wrappers
  import opened KeyVault

  const CATALOG_LIMIT := 50000
  const MAX_FILE := 0x40_0000

  /** seal(key, nonce, data) makes a blob that open(key, blob) reads; safe(path, kind) is the path check. */
  datatype Ideal = Ideal(
    digest: string -> string,
    encode: map<string, string> -> string,
    seal: (string, string, string) -> string,
    open: (string, string) -> Option<string>,
    safe: (string, string) -> bool)

  const NUL: string := ['\0']

  predicate Clear(s: string) { '\0' !in s }

  ghost predicate Faithful(h: Ideal) {
    && (forall x, y {:trigger h.digest(x), h.digest(y)} :: h.digest(x) == h.digest(y) ==> x == y)
    && (forall x :: h.digest(x) != "" && Clear(h.digest(x)))
    && (forall x, y {:trigger h.encode(x), h.encode(y)} :: h.encode(x) == h.encode(y) ==> x == y)
    && (forall key, nonce, data :: h.open(key, h.seal(key, nonce, data)) == Some(data))
  }

  /** What a file revision is called: its checkout, its path and its contents. */
  function Revision(h: Ideal, project: string, origin: string, path: string, data: string): string {
    h.digest(project + NUL + origin + NUL + path + NUL + h.digest(data))
  }

  /** What a capture is called: its checkout, its parent and its files. */
  function CaptureId(h: Ideal, project: string, origin: string, parent: string, files: map<string, string>): string {
    h.digest(project + NUL + origin + NUL + parent + NUL + h.encode(files))
  }

  lemma SplitAtNul(a: string, x: string, b: string, y: string)
    requires Clear(a) && Clear(b) && a + NUL + x == b + NUL + y
    ensures a == b && x == y
  {
    var s, t := a + NUL + x, b + NUL + y;
    assert s[|a|] == '\0' && t[|b|] == '\0';
    assert forall i | 0 <= i < |a| :: s[i] == a[i];
    assert forall i | 0 <= i < |b| :: t[i] == b[i];
    assert |a| == |b|;
    assert a == s[..|a|] && b == t[..|b|];
    assert x == s[|a| + 1..] && y == t[|b| + 1..];
  }

  lemma FieldsDetermined(p: string, o: string, q: string, x: string, p': string, o': string, q': string, x': string)
    requires Clear(p) && Clear(o) && Clear(q) && Clear(p') && Clear(o') && Clear(q')
    requires p + NUL + o + NUL + q + NUL + x == p' + NUL + o' + NUL + q' + NUL + x'
    ensures p == p' && o == o' && q == q' && x == x'
  {
    assert p + NUL + (o + NUL + (q + NUL + x)) == p + NUL + o + NUL + q + NUL + x;
    assert p' + NUL + (o' + NUL + (q' + NUL + x')) == p' + NUL + o' + NUL + q' + NUL + x';
    SplitAtNul(p, o + NUL + (q + NUL + x), p', o' + NUL + (q' + NUL + x'));
    SplitAtNul(o, q + NUL + x, o', q' + NUL + x');
    SplitAtNul(q, x, q', x');
  }

  /** A revision's name determines checkout, path and contents. */
  lemma RevisionInjective(h: Ideal, p: string, o: string, path: string, data: string, p': string, o': string, path': string, data': string)
    requires Faithful(h) && Clear(p) && Clear(o) && Clear(path) && Clear(p') && Clear(o') && Clear(path')
    requires Revision(h, p, o, path, data) == Revision(h, p', o', path', data')
    ensures p == p' && o == o' && path == path' && data == data'
  {
    FieldsDetermined(p, o, path, h.digest(data), p', o', path', h.digest(data'));
  }

  /** A capture's name determines checkout, parent and files. */
  lemma CaptureIdInjective(h: Ideal, p: string, o: string, parent: string, files: map<string, string>,
                           p': string, o': string, parent': string, files': map<string, string>)
    requires Faithful(h) && Clear(p) && Clear(o) && Clear(parent) && Clear(p') && Clear(o') && Clear(parent')
    requires CaptureId(h, p, o, parent, files) == CaptureId(h, p', o', parent', files')
    ensures p == p' && o == o' && parent == parent' && files == files'
  {
    FieldsDetermined(p, o, parent, h.encode(files), p', o', parent', h.encode(files'));
  }

  // ----- archiving -----

  /** The catalog's archive, and every encrypted object ever written. */
  datatype Store = Store(captures: map<string, Capture>, artifacts: map<string, Artifact>, objects: map<string, string>)

  /** One checkout as read: its files, their kinds, and the key and nonce drawn for each. */
  datatype Reading = Reading(
    project: string, origin: string, contents: map<string, string>,
    kinds: map<string, string>, keys: map<string, string>, nonces: map<string, string>,
    device: string, caption: string, at: int)

  /** Every file read has a kind, a key and a nonce; paths are safe and sizes within the limit, as they are read. */
  ghost predicate Readable(h: Ideal, c: Reading) {
    && Clear(c.project) && Clear(c.origin) && c.origin != ""
    && c.contents.Keys <= c.kinds.Keys && c.contents.Keys <= c.keys.Keys && c.contents.Keys <= c.nonces.Keys
    && forall path | path in c.contents :: Clear(path) && h.safe(path, c.kinds[path]) && |c.contents[path]| <= MAX_FILE
  }

  function RevisionOf(h: Ideal, c: Reading, path: string): string
    requires path in c.contents
  {
    Revision(h, c.project, c.origin, path, c.contents[path])
  }

  function Revisions(h: Ideal, c: Reading): map<string, string> {
    map path | path in c.contents :: RevisionOf(h, c, path)
  }

  const REVISION_LIMIT := "file revision catalog limit reached"
  const CAPTURE_LIMIT := "project revision catalog limit reached"

  /** One file revision, sealed under a key of its own, unless it is there already. */
  function ArchiveRevision(h: Ideal, s: Store, c: Reading, path: string): Result<Store>
    requires path in c.contents && path in c.kinds && path in c.keys && path in c.nonces
  {
    var rev, data := RevisionOf(h, c, path), c.contents[path];
    if rev in s.artifacts then Ok(s)
    else if |s.artifacts| >= CATALOG_LIMIT then Err(REVISION_LIMIT)
    else
      var blob := h.seal(c.keys[path], c.nonces[path], data);
      var id := h.digest(blob);
      Ok(s.(objects := s.objects[id := blob],
            artifacts := s.artifacts[rev :=
              Artifact(c.project, c.origin, path, c.kinds[path], h.digest(data), id, c.keys[path], |data|, c.at)]))
  }

  /** Files of the reading, in some order. */
  predicate Listed(c: Reading, order: seq<string>) {
    forall path | path in order :: path in c.contents && path in c.kinds && path in c.keys && path in c.nonces
  }

  function ArchiveAll(h: Ideal, s: Store, c: Reading, order: seq<string>): Result<Store>
    requires Listed(c, order)
  {
    if order == [] then Ok(s) else
    match ArchiveAll(h, s, c, order[..|order| - 1])
    case Err(m) => Err(m)
    case Ok(t) => ArchiveRevision(h, t, c, order[|order| - 1])
  }

  predicate Of(c: Capture, project: string, origin: string) {
    c.project == project && c.checkout == origin
  }

  /** The capture of a checkout with the highest sequence number. */
  ghost predicate Newest(captures: map<string, Capture>, project: string, origin: string, id: string) {
    && id in captures && Of(captures[id], project, origin)
    && forall j | j in captures && Of(captures[j], project, origin) :: captures[j].sequence <= captures[id].sequence
  }

  ghost function Latest(captures: map<string, Capture>, project: string, origin: string): (r: Option<string>)
    ensures r.Some? ==> r.value in captures && Newest(captures, project, origin, r.value)
  {
    if exists id :: Newest(captures, project, origin, id) then
      var id :| Newest(captures, project, origin, id); Some(id)
    else None
  }

  function Parent(latest: Option<string>): string {
    if latest.Some? then latest.value else ""
  }

  function SequenceOf(captures: map<string, Capture>, latest: Option<string>): nat
    requires latest.Some? ==> latest.value in captures
  {
    if latest.Some? then captures[latest.value].sequence else 0
  }

  /** A capture with the highest sequence number of its checkout, or none when it has no captures. */
  ghost predicate IsLatest(captures: map<string, Capture>, project: string, origin: string, latest: Option<string>) {
    match latest
    case Some(id) => Newest(captures, project, origin, id)
    case None => forall j | j in captures :: !Of(captures[j], project, origin)
  }

  /**
   One checkout into the archive; order is the order in which its files are visited, and latest the capture
   the search for the highest sequence number ends with.
   */
  function RecordAfter(h: Ideal, s: Store, c: Reading, order: seq<string>, latest: Option<string>): Result<Store>
    requires Listed(c, order) && (latest.Some? ==> latest.value in s.captures)
  {
    match ArchiveAll(h, s, c, order)
    case Err(m) => Err(m)
    case Ok(t) =>
      if latest.Some? && s.captures[latest.value].files == Revisions(h, c) then Ok(t)
      else if |s.captures| >= CATALOG_LIMIT then Err(CAPTURE_LIMIT)
      else
        var (id, capture) := NewCapture(h, s, c, latest);
        Ok(t.(captures := t.captures[id := capture]))
  }

  /** What a recording adds when it adds a capture. */
  function NewCapture(h: Ideal, s: Store, c: Reading, latest: Option<string>): (string, Capture)
    requires latest.Some? ==> latest.value in s.captures
  {
    (CaptureId(h, c.project, c.origin, Parent(latest), Revisions(h, c)),
     Capture(SequenceOf(s.captures, latest) + 1, c.project, c.origin, c.device, c.caption, Revisions(h, c), c.at))
  }

  /** Where sequence numbers are distinct there is one latest capture. */
  ghost function Record(h: Ideal, s: Store, c: Reading, order: seq<string>): Result<Store>
    requires Listed(c, order)
  {
    RecordAfter(h, s, c, order, Latest(s.captures, c.project, c.origin))
  }

  // ----- restoring -----

  const CHOOSE_CHECKOUT := "choose a checkout before restoring"
  const NO_REVISION := "no complete project revision matches this selection"
  const BAD_REFERENCE := "invalid project revision reference"

  function Origins(captures: map<string, Capture>, project: string): set<string> {
    set id | id in captures && captures[id].project == project :: captures[id].checkout
  }

  /** The checkout meant, when it may be left unnamed. */
  ghost function Checkout(captures: map<string, Capture>, project: string, origin: string): Result<string> {
    if origin != "" then Ok(origin)
    else if |Origins(captures, project)| != 1 then Err(CHOOSE_CHECKOUT) else Ok(Only(Origins(captures, project)))
  }

  /** The named revision of a checkout, or its latest; a capture of no files is never selected. */
  function SelectFrom(captures: map<string, Capture>, project: string, checkout: string, revision: string, latest: Option<string>): Result<(Capture, string)>
    requires latest.Some? ==> latest.value in captures
  {
    if revision != "" then
      if revision in captures && Of(captures[revision], project, checkout) && captures[revision].files != map[]
      then Ok((captures[revision], checkout)) else Err(NO_REVISION)
    else if latest.Some? && captures[latest.value].files != map[] then Ok((captures[latest.value], checkout)) else Err(NO_REVISION)
  }

  /** What a selection may come to, whichever latest capture the search ends with. */
  ghost predicate Selects(captures: map<string, Capture>, project: string, origin: string, revision: string, r: Result<(Capture, string)>) {
    match Checkout(captures, project, origin)
    case Err(m) => r == Err(m)
    case Ok(checkout) =>
      exists latest: Option<string> | (latest.Some? ==> latest.value in captures) && IsLatest(captures, project, checkout, latest) ::
        r == SelectFrom(captures, project, checkout, revision, latest)
  }

  ghost function Select(captures: map<string, Capture>, project: string, origin: string, revision: string): Result<(Capture, string)> {
    match Checkout(captures, project, origin)
    case Err(m) => Err(m)
    case Ok(checkout) => SelectFrom(captures, project, checkout, revision, Latest(captures, project, checkout))
  }

  ghost function Only(s: set<string>): (r: string)
    requires |s| == 1
    ensures s == {r}
  {
    var r :| r in s;
    assert |s - {r}| == 0;
    assert s - {r} == {};
    r
  }

  /** Authenticates one file revision and opens it. */
  function OpenArtifact(h: Ideal, ref: Artifact, objects: map<string, string>): Option<string> {
    if !h.safe(ref.path, ref.kind) || ref.size > MAX_FILE || ref.blobId !in objects then None
    else if h.digest(objects[ref.blobId]) != ref.blobId then None
    else match h.open(ref.key, objects[ref.blobId])
         case None => None
         case Some(plain) => if |plain| != ref.size || h.digest(plain) != ref.digest then None else Some(plain)
  }

  /** The contents of one file of a selected capture. */
  function Fetch(h: Ideal, s: Store, project: string, origin: string, path: string, rev: string): Option<string> {
    if rev !in s.artifacts then None else
    var ref := s.artifacts[rev];
    if ref.path != path || ref.project != project || ref.checkout != origin then None else OpenArtifact(h, ref, s.objects)
  }

  /** Every file, or nothing. */
  function FetchAll(h: Ideal, s: Store, project: string, origin: string, files: map<string, string>): Result<map<string, string>> {
    if exists path | path in files :: Fetch(h, s, project, origin, path, files[path]).None? then Err(BAD_REFERENCE)
    else Ok(map path | path in files :: Fetch(h, s, project, origin, path, files[path]).value)
  }

  /** The files of the selected capture. */
  function RestoreFrom(h: Ideal, s: Store, project: string, selected: Result<(Capture, string)>): Result<map<string, string>> {
    match selected
    case Err(m) => Err(m)
    case Ok((capture, checkout)) => FetchAll(h, s, project, checkout, capture.files)
  }

  ghost function Restore(h: Ideal, s: Store, project: string, origin: string, revision: string): Result<map<string, string>> {
    RestoreFrom(h, s, project, Select(s.captures, project, origin, revision))
  }

  // ----- what every archive keeps -----

  /** A file revision under its own name opens to the contents the name was made from. */
  ghost predicate ArtifactOk(h: Ideal, s: Store, rev: string, a: Artifact) {
    && Clear(a.project) && Clear(a.checkout) && Clear(a.path)
    && OpenArtifact(h, a, s.objects).Some?
    && rev == Revision(h, a.project, a.checkout, a.path, OpenArtifact(h, a, s.objects).value)
  }

  /** A capture is named after its parent, a capture of its checkout one step earlier, and refers to archived files. */
  ghost predicate CaptureOk(h: Ideal, s: Store, id: string, c: Capture) {
    && Clear(c.project) && Clear(c.checkout) && c.checkout != "" && c.sequence >= 1
    && (exists parent :: LinkedTo(h, s, id, c, parent))
    && forall path | path in c.files :: Fetch(h, s, c.project, c.checkout, path, c.files[path]).Some?
  }

  ghost predicate LinkedTo(h: Ideal, s: Store, id: string, c: Capture, parent: string) {
    && id == CaptureId(h, c.project, c.checkout, parent, c.files)
    && if c.sequence == 1 then parent == "" else
         parent in s.captures && Of(s.captures[parent], c.project, c.checkout) && s.captures[parent].sequence == c.sequence - 1
  }

  ghost predicate Numbered(captures: map<string, Capture>) {
    forall i, j | i in captures && j in captures && i != j && Of(captures[i], captures[j].project, captures[j].checkout) ::
      captures[i].sequence != captures[j].sequence
  }

  /** Everything is named after what it holds, and every capture follows its parent. */
  ghost predicate Linked(h: Ideal, s: Store) {
    && (forall rev | rev in s.artifacts :: ArtifactOk(h, s, rev, s.artifacts[rev]))
    && (forall id | id in s.objects :: id == h.digest(s.objects[id]))
    && (forall id | id in s.captures :: id != "" && Clear(id) && CaptureOk(h, s, id, s.captures[id]))
  }

  ghost predicate StoreOk(h: Ideal, s: Store) {
    Linked(h, s) && Numbered(s.captures)
  }

  /** Nothing archived is ever changed or dropped. */
  ghost predicate Grows(s: Store, t: Store) {
    && (forall rev | rev in s.artifacts :: rev in t.artifacts && t.artifacts[rev] == s.artifacts[rev])
    && (forall id | id in s.objects :: id in t.objects && t.objects[id] == s.objects[id])
    && (forall id | id in s.captures :: id in t.captures && t.captures[id] == s.captures[id])
  }

  /** An archive that only grew opens every file as before. */
  lemma FetchStays(h: Ideal, s: Store, t: Store, project: string, origin: string, path: string, rev: string)
    requires Grows(s, t) && Fetch(h, s, project, origin, path, rev).Some?
    ensures Fetch(h, t, project, origin, path, rev) == Fetch(h, s, project, origin, path, rev)
  {
  }

  lemma OpenStays(h: Ideal, s: Store, t: Store, a: Artifact)
    requires Grows(s, t) && OpenArtifact(h, a, s.objects).Some?
    ensures OpenArtifact(h, a, t.objects) == OpenArtifact(h, a, s.objects)
  {
  }

  lemma ArchiveOne(h: Ideal, s: Store, c: Reading, path: string)
    requires Faithful(h) && Linked(h, s) && Readable(h, c) && path in c.contents
    requires ArchiveRevision(h, s, c, path).Ok?
    ensures var t := ArchiveRevision(h, s, c, path).value;
      && Linked(h, t) && Grows(s, t) && t.captures == s.captures
      && Fetch(h, t, c.project, c.origin, path, RevisionOf(h, c, path)) == Some(c.contents[path])
  {
    hide CaptureOk;
    var t, rev := ArchiveRevision(h, s, c, path).value, RevisionOf(h, c, path);
    if rev in s.artifacts {
      var a := s.artifacts[rev];
      assert ArtifactOk(h, s, rev, a);
      RevisionInjective(h, a.project, a.checkout, a.path, OpenArtifact(h, a, s.objects).value, c.project, c.origin, path, c.contents[path]);
    } else {
      NewRevision(h, s, c, path);
    }
  }

  lemma NewRevision(h: Ideal, s: Store, c: Reading, path: string)
    requires Faithful(h) && Linked(h, s) && Readable(h, c) && path in c.contents
    requires ArchiveRevision(h, s, c, path).Ok? && RevisionOf(h, c, path) !in s.artifacts
    ensures var t := ArchiveRevision(h, s, c, path).value;
      && Linked(h, t) && Grows(s, t)
      && Fetch(h, t, c.project, c.origin, path, RevisionOf(h, c, path)) == Some(c.contents[path])
  {
    hide CaptureOk, ArtifactOk, Faithful, Fetch, ArchiveRevision;
    var t, rev := ArchiveRevision(h, s, c, path).value, RevisionOf(h, c, path);
    NewArtifact(h, s, c, path);
    forall r | r in t.artifacts ensures ArtifactOk(h, t, r, t.artifacts[r]) {
      if r != rev {
        assert ArtifactOk(h, s, r, s.artifacts[r]);
        ArtifactStays(h, s, t, r, s.artifacts[r]);
      }
    }
    CapturesStay(h, s, t);
  }

  lemma NewArtifact(h: Ideal, s: Store, c: Reading, path: string)
    requires Faithful(h) && Readable(h, c) && path in c.contents
    requires forall id | id in s.objects :: id == h.digest(s.objects[id])
    requires ArchiveRevision(h, s, c, path).Ok? && RevisionOf(h, c, path) !in s.artifacts
    ensures var t, rev := ArchiveRevision(h, s, c, path).value, RevisionOf(h, c, path);
      && Grows(s, t) && t.captures == s.captures
      && (forall id | id in t.objects :: id == h.digest(t.objects[id]))
      && t.artifacts.Keys == s.artifacts.Keys + {rev} && ArtifactOk(h, t, rev, t.artifacts[rev])
      && Fetch(h, t, c.project, c.origin, path, rev) == Some(c.contents[path])
  {
    hide Revision, OpenArtifact, Faithful, Grows, ArchiveRevision;
    var t, rev := ArchiveRevision(h, s, c, path).value, RevisionOf(h, c, path);
    NewObject(h, s, c, path);
    OpensTo(h, t.artifacts[rev], t.objects, c.contents[path]);
  }

  /** The store after a revision is added: its object, sealed under its name, and its reference. */
  lemma NewObject(h: Ideal, s: Store, c: Reading, path: string)
    requires Faithful(h) && Readable(h, c) && path in c.contents
    requires forall id | id in s.objects :: id == h.digest(s.objects[id])
    requires ArchiveRevision(h, s, c, path).Ok? && RevisionOf(h, c, path) !in s.artifacts
    ensures var t, rev := ArchiveRevision(h, s, c, path).value, RevisionOf(h, c, path);
      && Grows(s, t) && t.captures == s.captures && t.artifacts.Keys == s.artifacts.Keys + {rev}
      && (forall id | id in t.objects :: id == h.digest(t.objects[id]))
      && var a, data := t.artifacts[rev], c.contents[path];
        && a.project == c.project && a.checkout == c.origin && a.path == path && a.kind == c.kinds[path]
        && a.size == |data| && a.digest == h.digest(data)
        && a.blobId in t.objects && h.open(a.key, t.objects[a.blobId]) == Some(data)
  {
    hide Revision, Faithful, Clear;
    var data := c.contents[path];
    var blob := h.seal(c.keys[path], c.nonces[path], data);
    SealOpens(h, c.keys[path], c.nonces[path], data);
    if h.digest(blob) in s.objects { SameBytes(h, s.objects[h.digest(blob)], blob); }
  }

  lemma SealOpens(h: Ideal, key: string, nonce: string, data: string)
    requires Faithful(h)
    ensures h.open(key, h.seal(key, nonce, data)) == Some(data)
  {
  }

  lemma SameBytes(h: Ideal, x: string, y: string)
    requires Faithful(h) && h.digest(x) == h.digest(y)
    ensures x == y
  {
  }

  lemma OpensTo(h: Ideal, a: Artifact, objects: map<string, string>, data: string)
    requires a.blobId in objects && h.digest(objects[a.blobId]) == a.blobId && h.open(a.key, objects[a.blobId]) == Some(data)
    requires h.safe(a.path, a.kind) && a.size == |data| <= MAX_FILE && a.digest == h.digest(data)
    ensures OpenArtifact(h, a, objects) == Some(data)
  {
  }

  lemma ArtifactStays(h: Ideal, s: Store, t: Store, rev: string, a: Artifact)
    requires Grows(s, t) && ArtifactOk(h, s, rev, a)
    ensures ArtifactOk(h, t, rev, a)
  {
    hide OpenArtifact, Revision;
    OpenStays(h, s, t, a);
  }

  lemma CapturesStay(h: Ideal, s: Store, t: Store)
    requires Grows(s, t) && s.captures == t.captures
    requires forall id | id in s.captures :: CaptureOk(h, s, id, s.captures[id])
    ensures forall id | id in s.captures :: CaptureOk(h, t, id, s.captures[id])
  {
    forall id | id in s.captures ensures CaptureOk(h, t, id, s.captures[id]) {
      CaptureStays(h, s, t, id, s.captures[id]);
    }
  }

  lemma CaptureStays(h: Ideal, s: Store, t: Store, id: string, c: Capture)
    requires Grows(s, t) && CaptureOk(h, s, id, c)
    ensures CaptureOk(h, t, id, c)
  {
    hide Fetch;
    forall path | path in c.files ensures Fetch(h, t, c.project, c.checkout, path, c.files[path]).Some? {
      FetchStays(h, s, t, c.project, c.checkout, path, c.files[path]);
    }
    var parent :| LinkedTo(h, s, id, c, parent);
    assert LinkedTo(h, t, id, c, parent);
  }

  /** After a pass over a checkout's files every one of them can be fetched under its revision's name. */
  lemma {:induction false} ArchiveEach(h: Ideal, s: Store, c: Reading, order: seq<string>)
    requires Faithful(h) && Linked(h, s) && Readable(h, c)
    requires Listed(c, order)
    requires ArchiveAll(h, s, c, order).Ok?
    ensures var t := ArchiveAll(h, s, c, order).value;
      && Linked(h, t) && Grows(s, t) && t.captures == s.captures
      && forall path | path in order :: Fetch(h, t, c.project, c.origin, path, RevisionOf(h, c, path)) == Some(c.contents[path])
  {
    hide Linked, Readable, Faithful, Fetch, ArchiveRevision;
    if order != [] {
      var front, last := order[..|order| - 1], order[|order| - 1];
      assert order == front + [last];
      ArchiveEach(h, s, c, front);
      var t := ArchiveAll(h, s, c, front).value;
      ArchiveOne(h, t, c, last);
      forall path | path in front
        ensures Fetch(h, ArchiveAll(h, s, c, order).value, c.project, c.origin, path, RevisionOf(h, c, path)) == Some(c.contents[path])
      {
        FetchStays(h, t, ArchiveAll(h, s, c, order).value, c.project, c.origin, path, RevisionOf(h, c, path));
      }
    }
  }

  /** A checkout with a capture has a newest one. */
  lemma {:induction false} NewestExists(captures: map<string, Capture>, ids: set<string>, project: string, origin: string) returns (newest: string)
    requires ids <= captures.Keys && exists id :: id in ids && Of(captures[id], project, origin)
    ensures newest in ids && Of(captures[newest], project, origin)
    ensures forall j | j in ids && Of(captures[j], project, origin) :: captures[j].sequence <= captures[newest].sequence
    decreases |ids|
  {
    newest :| newest in ids && Of(captures[newest], project, origin);
    var rest := ids - {newest};
    if exists id :: id in rest && Of(captures[id], project, origin) {
      var best := NewestExists(captures, rest, project, origin);
      if captures[best].sequence > captures[newest].sequence { newest := best; }
    }
  }

  lemma LatestExists(captures: map<string, Capture>, project: string, origin: string, id: string)
    requires id in captures && Of(captures[id], project, origin)
    ensures Latest(captures, project, origin).Some?
  {
    var newest := NewestExists(captures, captures.Keys, project, origin);
    assert Newest(captures, project, origin, newest);
  }

  /** Sequence numbers within a checkout are distinct, so the newest capture is the latest one. */
  lemma NewestIsLatest(captures: map<string, Capture>, project: string, origin: string, id: string)
    requires Numbered(captures) && Newest(captures, project, origin, id)
    ensures Latest(captures, project, origin) == Some(id)
  {
    LatestExists(captures, project, origin, id);
  }

  lemma LatestIs(captures: map<string, Capture>, project: string, origin: string)
    ensures IsLatest(captures, project, origin, Latest(captures, project, origin))
  {
    if Latest(captures, project, origin).None? {
      forall j | j in captures ensures !Of(captures[j], project, origin) {
        if Of(captures[j], project, origin) {
          LatestExists(captures, project, origin, j);
        }
      }
    }
  }

  lemma LatestUnique(captures: map<string, Capture>, project: string, origin: string, latest: Option<string>)
    requires Numbered(captures) && IsLatest(captures, project, origin, latest)
    ensures latest == Latest(captures, project, origin)
  {
    LatestIs(captures, project, origin);
  }

  /** The id of a new capture was never used before, whichever latest capture it follows. */
  lemma FreshId(h: Ideal, s: Store, c: Reading, latest: Option<string>)
    requires Faithful(h) && Linked(h, s) && Readable(h, c) && IsLatest(s.captures, c.project, c.origin, latest)
    ensures NewCapture(h, s, c, latest).0 !in s.captures
  {
    hide Fetch, ArtifactOk, CaptureId;
    var id := NewCapture(h, s, c, latest).0;
    if id in s.captures {
      var found := s.captures[id];
      assert CaptureOk(h, s, id, found);
      var parent :| LinkedTo(h, s, id, found, parent);
      CaptureIdInjective(h, found.project, found.checkout, parent, found.files, c.project, c.origin, Parent(latest), Revisions(h, c));
    }
  }

  /** Storing it keeps the archive linked: named after its parent, one step on, its files archived. */
  lemma AddCapture(h: Ideal, s: Store, t: Store, c: Reading, latest: Option<string>)
    requires Faithful(h) && Linked(h, t) && Readable(h, c) && s.captures == t.captures
    requires IsLatest(s.captures, c.project, c.origin, latest)
    requires forall path | path in c.contents :: Fetch(h, t, c.project, c.origin, path, RevisionOf(h, c, path)).Some?
    ensures var (id, capture) := NewCapture(h, s, c, latest);
      var u := t.(captures := t.captures[id := capture]);
      Linked(h, u) && Grows(t, u) && id !in t.captures
  {
    hide Fetch, ArtifactOk, CaptureId, RevisionOf, CaptureOk, OpenArtifact, IsLatest;
    LatestInside(s.captures, c.project, c.origin, latest);
    var (id, capture) := NewCapture(h, s, c, latest);
    var u := t.(captures := t.captures[id := capture]);
    FreshId(h, t, c, latest);
    assert Grows(t, u);
    forall rev | rev in u.artifacts ensures ArtifactOk(h, u, rev, u.artifacts[rev]) {
      ArtifactStays(h, t, u, rev, t.artifacts[rev]);
    }
    forall i | i in u.captures ensures i != "" && Clear(i) && CaptureOk(h, u, i, u.captures[i]) {
      if i == id {
        ClearId(h, c, Parent(latest));
        NewCaptureOk(h, t, u, c, latest);
      } else {
        CaptureStays(h, t, u, i, t.captures[i]);
      }
    }
  }

  /** Where sequence numbers are distinct a selection has one outcome. */
  lemma SelectsOnly(captures: map<string, Capture>, project: string, origin: string, revision: string, r: Result<(Capture, string)>)
    requires Numbered(captures) && Selects(captures, project, origin, revision, r)
    ensures r == Select(captures, project, origin, revision)
  {
    if Checkout(captures, project, origin).Ok? {
      var checkout := Checkout(captures, project, origin).value;
      var latest: Option<string> :| (latest.Some? ==> latest.value in captures) && IsLatest(captures, project, checkout, latest)
        && r == SelectFrom(captures, project, checkout, revision, latest);
      LatestUnique(captures, project, checkout, latest);
    }
  }

  lemma PositiveNumbers(h: Ideal, s: Store)
    requires Linked(h, s)
    ensures forall id | id in s.captures :: s.captures[id].sequence >= 1
  {
    hide ArtifactOk, Fetch;
    forall id | id in s.captures ensures s.captures[id].sequence >= 1 {
      assert CaptureOk(h, s, id, s.captures[id]);
    }
  }

  lemma LatestInside(captures: map<string, Capture>, project: string, origin: string, latest: Option<string>)
    requires IsLatest(captures, project, origin, latest)
    ensures latest.Some? ==> latest.value in captures && Of(captures[latest.value], project, origin)
  {
  }

  lemma ClearId(h: Ideal, c: Reading, parent: string)
    requires Faithful(h)
    ensures var id := CaptureId(h, c.project, c.origin, parent, Revisions(h, c)); id != "" && Clear(id)
  {
  }

  lemma NewCaptureOk(h: Ideal, t: Store, u: Store, c: Reading, latest: Option<string>)
    requires Readable(h, c) && Grows(t, u) && Linked(h, t)
    requires latest.Some? ==> latest.value in t.captures && Of(t.captures[latest.value], c.project, c.origin)
    requires forall path | path in c.contents :: Fetch(h, t, c.project, c.origin, path, RevisionOf(h, c, path)).Some?
    ensures var (id, capture) := NewCapture(h, t, c, latest); CaptureOk(h, u, id, capture)
  {
    hide Fetch, ArtifactOk, CaptureId, RevisionOf;
    var (id, capture) := NewCapture(h, t, c, latest);
    forall path | path in capture.files ensures Fetch(h, u, c.project, c.origin, path, capture.files[path]).Some? {
      FetchStays(h, t, u, c.project, c.origin, path, capture.files[path]);
    }
    if latest.Some? { assert CaptureOk(h, t, latest.value, t.captures[latest.value]); }
    assert LinkedTo(h, u, id, capture, Parent(latest));
  }

  /** A capture that follows the latest one is the only newest of its checkout. */
  lemma NewNumber(before: map<string, Capture>, after: map<string, Capture>, project: string, origin: string, id: string, latest: Option<string>)
    requires Numbered(before) && id !in before && id in after && after == before[id := after[id]]
    requires IsLatest(before, project, origin, latest)
    requires Of(after[id], project, origin) && after[id].sequence == SequenceOf(before, latest) + 1
    ensures Numbered(after) && Newest(after, project, origin, id)
  {
  }

  /** The newest capture of the checkout holds exactly the files read, each of them archived. */
  ghost predicate Holds(h: Ideal, t: Store, c: Reading) {
    var latest := Latest(t.captures, c.project, c.origin);
    && latest.Some? && t.captures[latest.value].files == Revisions(h, c)
    && forall path | path in c.contents :: Fetch(h, t, c.project, c.origin, path, RevisionOf(h, c, path)) == Some(c.contents[path])
  }

  /** At most one capture is added, under an id never used before and one step after the newest of its checkout. */
  ghost predicate OneMore(s: Store, t: Store, c: Reading) {
    || t.captures == s.captures
    || exists id | id in t.captures && id !in s.captures ::
         t.captures == s.captures[id := t.captures[id]]
         && Of(t.captures[id], c.project, c.origin)
         && t.captures[id].sequence == SequenceOf(s.captures, Latest(s.captures, c.project, c.origin)) + 1
  }

  /** Recording a checkout changes nothing archived, and the newest capture then holds exactly the files read. */
  lemma RecordOk(h: Ideal, s: Store, c: Reading, order: seq<string>)
    requires Faithful(h) && StoreOk(h, s) && Readable(h, c) && Listed(c, order)
    requires forall path | path in c.contents :: path in order
    requires Record(h, s, c, order).Ok?
    ensures var t := Record(h, s, c, order).value;
      StoreOk(h, t) && Grows(s, t) && Holds(h, t, c) && OneMore(s, t, c)
  {
    hide Linked, Fetch, Readable, ArchiveAll, Faithful, Grows, Revisions, Newest, Numbered;
    ArchiveEach(h, s, c, order);
    var t := ArchiveAll(h, s, c, order).value;
    var latest := Latest(s.captures, c.project, c.origin);
    if !(latest.Some? && s.captures[latest.value].files == Revisions(h, c)) {
      RecordNew(h, s, t, c);
      GrowsTrans(s, t, Record(h, s, c, order).value);
    }
  }

  lemma RecordNew(h: Ideal, s: Store, t: Store, c: Reading)
    requires Faithful(h) && StoreOk(h, t) && Readable(h, c) && s.captures == t.captures
    requires forall path | path in c.contents :: Fetch(h, t, c.project, c.origin, path, RevisionOf(h, c, path)) == Some(c.contents[path])
    ensures var (id, capture) := NewCapture(h, s, c, Latest(s.captures, c.project, c.origin));
      var u := t.(captures := t.captures[id := capture]);
      StoreOk(h, u) && Grows(t, u) && Holds(h, u, c) && OneMore(s, u, c)
  {
    hide Linked, Fetch, Readable, Faithful, Grows, Newest, Revision, CaptureId, Numbered, IsLatest;
    var latest := Latest(s.captures, c.project, c.origin);
    var (id, capture) := NewCapture(h, s, c, latest);
    var u := t.(captures := t.captures[id := capture]);
    LatestIs(s.captures, c.project, c.origin);
    AddCapture(h, s, t, c, latest);
    NewNumber(t.captures, u.captures, c.project, c.origin, id, latest);
    NewestIsLatest(u.captures, c.project, c.origin, id);
    forall path | path in c.contents ensures Fetch(h, u, c.project, c.origin, path, RevisionOf(h, c, path)) == Some(c.contents[path]) {
      FetchStays(h, t, u, c.project, c.origin, path, RevisionOf(h, c, path));
    }
  }

  lemma NumberedOk(h: Ideal, s: Store)
    requires StoreOk(h, s)
    ensures Numbered(s.captures)
  {
  }

  lemma GrowsTrans(s: Store, t: Store, u: Store)
    requires Grows(s, t) && Grows(t, u)
    ensures Grows(s, u)
  {
  }

  // ----- capture, then restore -----

  lemma FetchRead(h: Ideal, s: Store, c: Reading)
    requires forall path | path in c.contents :: Fetch(h, s, c.project, c.origin, path, RevisionOf(h, c, path)) == Some(c.contents[path])
    ensures FetchAll(h, s, c.project, c.origin, Revisions(h, c)) == Ok(c.contents)
    ensures Revisions(h, c) == map[] <==> c.contents == map[]
  {
    hide Fetch, RevisionOf;
    var files := Revisions(h, c);
    assert files.Keys == c.contents.Keys;
    assert (map path | path in files :: Fetch(h, s, c.project, c.origin, path, files[path]).value) == c.contents;
    if c.contents != map[] {
      var path :| path in c.contents;
      assert path in files;
    }
  }

  /**
   Restoring the newest revision of a checkout yields exactly the files last read, unless there were none:
   a capture of no files is refused. The checkout may be left unnamed when the project has only one.
   */
  lemma RestoreNewest(h: Ideal, t: Store, c: Reading, named: string)
    requires Readable(h, c) && Holds(h, t, c)
    requires named == c.origin || (named == "" && Origins(t.captures, c.project) == {c.origin})
    ensures Restore(h, t, c.project, named, "") == if c.contents == map[] then Err(NO_REVISION) else Ok(c.contents)
  {
    hide Fetch, FetchAll, Newest, Revisions, RevisionOf, Origins;
    FetchRead(h, t, c);
  }

  /** A revision once archived restores by name to the same files for ever. */
  lemma RestoreNamed(h: Ideal, s: Store, t: Store, id: string)
    requires StoreOk(h, s) && Grows(s, t) && id in s.captures && s.captures[id].files != map[]
    ensures var c := s.captures[id];
      Restore(h, s, c.project, c.checkout, id).Ok? && Restore(h, t, c.project, c.checkout, id) == Restore(h, s, c.project, c.checkout, id)
  {
    hide FetchAll, ArtifactOk, Numbered, Fetch, CaptureId;
    var c := s.captures[id];
    assert CaptureOk(h, s, id, c);
    FetchAllStays(h, s, t, c.project, c.checkout, c.files);
  }

  lemma FetchAllStays(h: Ideal, s: Store, t: Store, project: string, origin: string, files: map<string, string>)
    requires Grows(s, t) && forall path | path in files :: Fetch(h, s, project, origin, path, files[path]).Some?
    ensures FetchAll(h, s, project, origin, files).Ok? && FetchAll(h, t, project, origin, files) == FetchAll(h, s, project, origin, files)
  {
    hide Fetch, Grows;
    forall path | path in files ensures Fetch(h, t, project, origin, path, files[path]) == Fetch(h, s, project, origin, path, files[path]) {
      FetchStays(h, s, t, project, origin, path, files[path]);
    }
    assert (map path | path in files :: Fetch(h, t, project, origin, path, files[path]).value)
        == (map path | path in files :: Fetch(h, s, project, origin, path, files[path]).value);
  }

  // ----- objects come from a server that is not trusted -----

  /** A file is handed out only if its object and its contents are what the reference says they are. */
  lemma OpensExactly(h: Ideal, ref: Artifact, objects: map<string, string>, data: string)
    ensures OpenArtifact(h, ref, objects) == Some(data) <==>
      && h.safe(ref.path, ref.kind) && ref.size <= MAX_FILE && ref.blobId in objects && h.digest(objects[ref.blobId]) == ref.blobId
      && h.open(ref.key, objects[ref.blobId]) == Some(data) && |data| == ref.size && h.digest(data) == ref.digest
  {
  }

  /** Every file of a capture opens, or nothing is handed out. */
  lemma RestoresExactly(h: Ideal, s: Store, project: string, c: Capture, checkout: string, contents: map<string, string>)
    ensures RestoreFrom(h, s, project, Ok((c, checkout))) == Ok(contents) <==>
      && contents.Keys == c.files.Keys
      && forall path | path in c.files ::
        && c.files[path] in s.artifacts
        && var ref := s.artifacts[c.files[path]];
          && ref.path == path && ref.project == project && ref.checkout == checkout && OpenArtifact(h, ref, s.objects) == Some(contents[path])
  {
    hide OpenArtifact;
    if forall path | path in c.files :: Fetch(h, s, project, checkout, path, c.files[path]).Some? {
      var all := map path | path in c.files :: Fetch(h, s, project, checkout, path, c.files[path]).value;
      assert all.Keys == c.files.Keys;
      if contents.Keys == c.files.Keys && forall path | path in c.files :: Fetch(h, s, project, checkout, path, c.files[path]) == Some(contents[path]) {
        assert all == contents;
      }
    }
  }

  /**
   Whatever objects the server hands out, a restore fails or yields, for each path of the capture, the contents its
   revision is named after, which are the ones archived.
   */
  lemma TamperedRestore(h: Ideal, s: Store, objects: map<string, string>, project: string, c: Capture, checkout: string, contents: map<string, string>)
    requires Faithful(h) && Linked(h, s) && RestoreFrom(h, s.(objects := objects), project, Ok((c, checkout))) == Ok(contents)
    ensures contents.Keys == c.files.Keys
    ensures forall path | path in c.files :: c.files[path] == Revision(h, project, checkout, path, contents[path])
    ensures RestoreFrom(h, s, project, Ok((c, checkout))) == Ok(contents)
  {
    hide OpenArtifact, Revision, RestoreFrom, Faithful, CaptureOk;
    RestoresExactly(h, s.(objects := objects), project, c, checkout, contents);
    RestoresExactly(h, s, project, c, checkout, contents);
    forall path | path in c.files
      ensures c.files[path] == Revision(h, project, checkout, path, contents[path])
      ensures OpenArtifact(h, s.artifacts[c.files[path]], s.objects) == Some(contents[path])
    {
      var ref := s.artifacts[c.files[path]];
      assert ArtifactOk(h, s, c.files[path], ref);
      var archived := OpenArtifact(h, ref, s.objects).value;
      OpensExactly(h, ref, s.objects, archived);
      OpensExactly(h, ref, objects, contents[path]);
      SameBytes(h, archived, contents[path]);
    }
  }

  /** A visit to a checkout: what is read and in which order its files are archived. */
  datatype Visit = Visit(c: Reading, order: seq<string>)

  ghost predicate VisitOk(h: Ideal, v: Visit) {
    Readable(h, v.c) && Listed(v.c, v.order) && forall path | path in v.c.contents :: path in v.order
  }

  ghost predicate VisitsOk(h: Ideal, vs: seq<Visit>) {
    forall v | v in vs :: VisitOk(h, v)
  }

  /** Visits to any checkouts in turn; one that fails leaves the archive as it was. */
  ghost function Run(h: Ideal, vs: seq<Visit>): Store
    requires VisitsOk(h, vs)
  {
    if vs == [] then Store(map[], map[], map[]) else
    var s, v := Run(h, vs[..|vs| - 1]), vs[|vs| - 1];
    assert VisitOk(h, v);
    match Record(h, s, v.c, v.order)
    case Err(_) => s
    case Ok(t) => t
  }

  /** What came of visit i. */
  ghost function Outcome(h: Ideal, vs: seq<Visit>, i: nat): Result<Store>
    requires VisitsOk(h, vs) && i < |vs|
  {
    assert VisitOk(h, vs[i]);
    Record(h, Run(h, vs[..i]), vs[i].c, vs[i].order)
  }

  ghost predicate Recorded(h: Ideal, vs: seq<Visit>, i: nat)
    requires VisitsOk(h, vs) && i < |vs|
  {
    Outcome(h, vs, i).Ok?
  }

  lemma RunLast(h: Ideal, vs: seq<Visit>)
    requires VisitsOk(h, vs) && vs != []
    ensures var i := |vs| - 1;
      Run(h, vs) == if Recorded(h, vs, i) then Outcome(h, vs, i).value else Run(h, vs[..i])
  {
    hide VisitOk, Record;
  }

  /** In every run: the archive is well formed; ids never collide and sequence numbers of a checkout are distinct. */
  lemma {:induction false} RunOk(h: Ideal, vs: seq<Visit>)
    requires Faithful(h) && VisitsOk(h, vs)
    ensures StoreOk(h, Run(h, vs))
  {
    hide Faithful, Record;
    if vs != [] {
      var i := |vs| - 1;
      RunOk(h, vs[..i]);
      assert VisitOk(h, vs[i]);
      RunLast(h, vs);
      if Recorded(h, vs, i) { RecordOk(h, Run(h, vs[..i]), vs[i].c, vs[i].order); }
    }
  }

  /** One visit: what it keeps, and what it leaves in the archive when recorded. */
  lemma VisitKeeps(h: Ideal, vs: seq<Visit>)
    requires Faithful(h) && VisitsOk(h, vs) && vs != []
    ensures var i := |vs| - 1;
      && StoreOk(h, Run(h, vs)) && Grows(Run(h, vs[..i]), Run(h, vs))
      && (if Recorded(h, vs, i) then Holds(h, Run(h, vs), vs[i].c) && OneMore(Run(h, vs[..i]), Run(h, vs), vs[i].c)
          else Run(h, vs) == Run(h, vs[..i]))
  {
    hide Faithful, Record, StoreOk, Holds, OneMore;
    var i := |vs| - 1;
    assert VisitOk(h, vs[i]);
    RunOk(h, vs);
    RunOk(h, vs[..i]);
    RunLast(h, vs);
    if Recorded(h, vs, i) { RecordOk(h, Run(h, vs[..i]), vs[i].c, vs[i].order); }
  }

  /** A capture of one checkout does not disturb the newest of another. */
  lemma HoldsStays(h: Ideal, s: Store, t: Store, c: Reading, other: Reading)
    requires StoreOk(h, t) && Grows(s, t) && Holds(h, s, c) && OneMore(s, t, other)
    requires c.project != other.project || c.origin != other.origin
    ensures Holds(h, t, c)
  {
    hide Fetch, ArtifactOk, CaptureOk, Revisions, RevisionOf;
    var id := Latest(s.captures, c.project, c.origin).value;
    NumberedOk(h, t);
    NewestIsLatest(t.captures, c.project, c.origin, id);
    forall path | path in c.contents ensures Fetch(h, t, c.project, c.origin, path, RevisionOf(h, c, path)) == Some(c.contents[path]) {
      FetchStays(h, s, t, c.project, c.origin, path, RevisionOf(h, c, path));
    }
  }

  /** Visit i was recorded, and no later visit of the same checkout was. */
  ghost predicate LastRecorded(h: Ideal, vs: seq<Visit>, i: nat)
    requires VisitsOk(h, vs) && i < |vs|
  {
    && Recorded(h, vs, i)
    && forall j | i < j < |vs| && vs[j].c.project == vs[i].c.project && vs[j].c.origin == vs[i].c.origin :: !Recorded(h, vs, j)
  }

  lemma SameBefore(h: Ideal, vs: seq<Visit>, j: nat)
    requires VisitsOk(h, vs) && j < |vs| - 1
    ensures var front := vs[..|vs| - 1]; VisitsOk(h, front) && Recorded(h, front, j) == Recorded(h, vs, j)
  {
    hide VisitOk, Record, Run;
    assert vs[..|vs| - 1][..j] == vs[..j];
  }

  lemma {:induction false} StillHeld(h: Ideal, vs: seq<Visit>, i: nat)
    requires Faithful(h) && VisitsOk(h, vs) && i < |vs| && LastRecorded(h, vs, i)
    ensures Holds(h, Run(h, vs), vs[i].c)
    decreases |vs|
  {
    hide Faithful, StoreOk, Holds, OneMore, Grows, Run, Record, VisitOk, Recorded;
    var n := |vs| - 1;
    VisitKeeps(h, vs);
    if i < n {
      var front := vs[..n];
      forall j | i <= j < n ensures Recorded(h, front, j) == Recorded(h, vs, j) {
        SameBefore(h, vs, j);
      }
      StillHeld(h, front, i);
      if Recorded(h, vs, n) { HoldsStays(h, Run(h, front), Run(h, vs), vs[i].c, vs[n].c); }
    }
  }

  /**
   Capture then restore is the identity, over any history of visits to any checkouts, including ones that
   return to earlier contents: restoring with no revision named yields exactly the files of the last recorded
   visit. The one exception is a visit that found no files, which is captured but never restored.
   */
  lemma CaptureThenRestore(h: Ideal, vs: seq<Visit>, i: nat)
    requires Faithful(h) && VisitsOk(h, vs) && i < |vs| && LastRecorded(h, vs, i)
    ensures var c := vs[i].c;
      Restore(h, Run(h, vs), c.project, c.origin, "") == if c.contents == map[] then Err(NO_REVISION) else Ok(c.contents)
  {
    hide Faithful, Holds, Run, Restore;
    assert VisitOk(h, vs[i]);
    StillHeld(h, vs, i);
    RestoreNewest(h, Run(h, vs), vs[i].c, vs[i].c.origin);
  }

  /** Nothing archived by a visit is lost by later ones: naming the revision it made restores its files. */
  lemma EveryRevisionRestores(h: Ideal, vs: seq<Visit>, i: nat)
    requires Faithful(h) && VisitsOk(h, vs) && i < |vs| && Recorded(h, vs, i) && vs[i].c.contents != map[]
    ensures var c := vs[i].c;
      var id := Latest(Run(h, vs[..i + 1]).captures, c.project, c.origin);
      id.Some? && Restore(h, Run(h, vs), c.project, c.origin, id.value) == Ok(c.contents)
  {
    hide Faithful, Run, Outcome, Holds, Restore, StoreOk, OneMore, Grows, Newest;
    var c, shorter := vs[i].c, vs[..i + 1];
    assert VisitOk(h, vs[i]) && shorter[..i] == vs[..i];
    assert Recorded(h, shorter, i) by { SameOutcome(h, vs, i); }
    VisitKeeps(h, shorter);
    RunGrows(h, vs, i + 1);
    RunOk(h, shorter);
    var s := Run(h, shorter);
    RestoreByName(h, s, c);
    RestoreNamed(h, s, Run(h, vs), Latest(s.captures, c.project, c.origin).value);
  }

  lemma RestoreByName(h: Ideal, s: Store, c: Reading)
    requires Readable(h, c) && StoreOk(h, s) && Holds(h, s, c) && c.contents != map[]
    ensures var id := Latest(s.captures, c.project, c.origin);
      id.Some? && s.captures[id.value].files != map[] && Of(s.captures[id.value], c.project, c.origin)
      && Restore(h, s, c.project, c.origin, id.value) == Ok(c.contents)
  {
    hide FetchAll, ArtifactOk, CaptureOk, Numbered, Revisions;
    FetchRead(h, s, c);
    NamedId(h, s, Latest(s.captures, c.project, c.origin).value);
  }

  lemma SameOutcome(h: Ideal, vs: seq<Visit>, i: nat)
    requires VisitsOk(h, vs) && i < |vs|
    ensures VisitsOk(h, vs[..i + 1]) && Outcome(h, vs[..i + 1], i) == Outcome(h, vs, i)
  {
    hide VisitOk, Record, Run;
    assert vs[..i + 1][..i] == vs[..i];
  }

  lemma NamedId(h: Ideal, s: Store, id: string)
    requires StoreOk(h, s) && id in s.captures
    ensures id != ""
  {
  }

  lemma {:induction false} RunGrows(h: Ideal, vs: seq<Visit>, n: nat)
    requires Faithful(h) && VisitsOk(h, vs) && n <= |vs|
    ensures Grows(Run(h, vs[..n]), Run(h, vs))
    decreases |vs|
  {
    hide Faithful, StoreOk, Holds, OneMore, Record, VisitOk, Recorded;
    if n == |vs| {
      assert vs[..n] == vs;
    } else {
      var front := vs[..|vs| - 1];
      assert front[..n] == vs[..n];
      RunGrows(h, front, n);
      VisitKeeps(h, vs);
      GrowsTrans(Run(h, vs[..n]), Run(h, front), Run(h, vs));
    }
  }
}
