/**
 Archives in several copies: a device's base and pending revision, and the server's. Visits are recorded in
 one copy, copies are merged, and a copy may be lost. Sequence numbers of a checkout then stay distinct
 exactly while every capture is made by a copy that knows the latest one there is.
 */
module ArchiveMerge {
  import opened Wrappers
  import opened KeyVault
  import opened Archive
  import CatalogJoin

  const EMPTY_STORE := Store(map[], map[], map[])

  /** Two copies in one, unless they hold different revisions under one id. */
  function Join(s: Store, t: Store): Option<Store> {
    if CatalogJoin.Agree(s.captures, t.captures) && CatalogJoin.Agree(s.artifacts, t.artifacts)
    then Some(Store(s.captures + t.captures, s.artifacts + t.artifacts, s.objects + t.objects)) else None
  }

  /** The copies, and every capture ever made: the first of each id. */
  datatype World = World(copies: map<string, Store>, ever: map<string, Capture>)

  const START := World(map[], map[])

  datatype Event =
    | Record(copy: string, visit: Visit, latest: Option<string>)
    | Merge(into: string, from: string)
    | Lose(copy: string)

  function CopyOf(w: World, copy: string): Store {
    if copy in w.copies then w.copies[copy] else EMPTY_STORE
  }

  /** The visit is a proper one, and the search for the latest capture may end as given. */
  ghost predicate Enabled(h: Ideal, w: World, e: Event) {
    e.Record? ==>
      && VisitOk(h, e.visit)
      && (e.latest.Some? ==> e.latest.value in CopyOf(w, e.copy).captures)
      && IsLatest(CopyOf(w, e.copy).captures, e.visit.c.project, e.visit.c.origin, e.latest)
  }

  /** What recording comes to in the copy. */
  function Outcome(h: Ideal, s: Store, e: Event): Result<Store>
    requires e.Record? && Listed(e.visit.c, e.visit.order) && (e.latest.Some? ==> e.latest.value in s.captures)
  {
    RecordAfter(h, s, e.visit.c, e.visit.order, e.latest)
  }

  /** A recording that adds a capture. */
  predicate Adds(h: Ideal, s: Store, e: Event)
    requires e.Record? && Listed(e.visit.c, e.visit.order) && (e.latest.Some? ==> e.latest.value in s.captures)
  {
    Outcome(h, s, e).Ok? && !(e.latest.Some? && s.captures[e.latest.value].files == Revisions(h, e.visit.c))
  }

  function Remember(ever: map<string, Capture>, id: string, c: Capture): map<string, Capture> {
    if id in ever then ever else ever[id := c]
  }

  function RecordStep(h: Ideal, w: World, e: Event): World
    requires e.Record? && Listed(e.visit.c, e.visit.order) && (e.latest.Some? ==> e.latest.value in CopyOf(w, e.copy).captures)
  {
    var s := CopyOf(w, e.copy);
    match Outcome(h, s, e)
    case Err(_) => w
    case Ok(t) =>
      var (id, c) := NewCapture(h, s, e.visit.c, e.latest);
      World(w.copies[e.copy := t], if Adds(h, s, e) then Remember(w.ever, id, c) else w.ever)
  }

  ghost function Step(h: Ideal, w: World, e: Event): World {
    match e
    case Record(_, _, _) => if Enabled(h, w, e) then RecordStep(h, w, e) else w
    case Merge(into, from) =>
      (match Join(CopyOf(w, into), CopyOf(w, from))
       case None => w
       case Some(s) => w.(copies := w.copies[into := s]))
    case Lose(copy) => w.(copies := w.copies - {copy})
  }

  ghost function Run(h: Ideal, es: seq<Event>): World {
    if es == [] then START else Step(h, Run(h, es[..|es| - 1]), es[|es| - 1])
  }

  // ----- when a recording keeps the numbers distinct -----

  /** The copy knows the latest capture of the checkout there is anywhere. */
  ghost predicate KnowsLatest(w: World, e: Event)
    requires e.Record? && (e.latest.Some? ==> e.latest.value in CopyOf(w, e.copy).captures)
  {
    forall j | j in w.ever && Of(w.ever[j], e.visit.c.project, e.visit.c.origin) ::
      w.ever[j].sequence <= SequenceOf(CopyOf(w, e.copy).captures, e.latest)
  }

  /** A capture is only added by a copy that knows the latest one, or is one that was made before. */
  ghost predicate Guarded(h: Ideal, w: World, e: Event) {
    e.Record? && Enabled(h, w, e) && Adds(h, CopyOf(w, e.copy), e) ==>
      KnowsLatest(w, e) || NewCapture(h, CopyOf(w, e.copy), e.visit.c, e.latest).0 in w.ever
  }

  // ----- what every step keeps -----

  /** Apart from which device made it, and when. */
  predicate SameCapture(a: Capture, b: Capture) {
    a.sequence == b.sequence && a.project == b.project && a.checkout == b.checkout && a.files == b.files
  }

  ghost predicate Follows(h: Ideal, ever: map<string, Capture>, id: string, c: Capture, parent: string) {
    && id == CaptureId(h, c.project, c.checkout, parent, c.files)
    && if c.sequence == 1 then parent == "" else
         parent in ever && Of(ever[parent], c.project, c.checkout) && ever[parent].sequence == c.sequence - 1
  }

  ghost predicate EverOk(h: Ideal, ever: map<string, Capture>) {
    forall id | id in ever ::
      && id != "" && Clear(id) && Clear(ever[id].project) && Clear(ever[id].checkout) && ever[id].sequence >= 1
      && exists parent :: Follows(h, ever, id, ever[id], parent)
  }

  /** A copy is linked, and holds nothing that was not once made. */
  ghost predicate CopyOk(h: Ideal, ever: map<string, Capture>, s: Store) {
    Linked(h, s) && forall id | id in s.captures :: id in ever && SameCapture(s.captures[id], ever[id])
  }

  ghost predicate Sound(h: Ideal, w: World) {
    EverOk(h, w.ever) && forall copy | copy in w.copies :: CopyOk(h, w.ever, w.copies[copy])
  }

  lemma CopyIsOk(h: Ideal, w: World, copy: string)
    requires Sound(h, w)
    ensures CopyOk(h, w.ever, CopyOf(w, copy))
  {
    hide EverOk;
    assert Linked(h, EMPTY_STORE);
  }

  /** A capture's place follows from its id. */
  lemma SamePlace(h: Ideal, ever: map<string, Capture>, s: Store, c: Reading, latest: Option<string>)
    requires Faithful(h) && EverOk(h, ever) && CopyOk(h, ever, s) && Readable(h, c)
    requires (latest.Some? ==> latest.value in s.captures) && IsLatest(s.captures, c.project, c.origin, latest)
    requires NewCapture(h, s, c, latest).0 in ever
    ensures SameCapture(NewCapture(h, s, c, latest).1, ever[NewCapture(h, s, c, latest).0])
  {
    hide CaptureOk, ArtifactOk, CaptureId, Revisions, Faithful;
    var (id, made) := NewCapture(h, s, c, latest);
    var found := ever[id];
    var parent :| Follows(h, ever, id, found, parent);
    ParentClear(h, ever, found, parent, id);
    CaptureIdInjective(h, found.project, found.checkout, parent, found.files, c.project, c.origin, Parent(latest), Revisions(h, c));
  }

  lemma ParentClear(h: Ideal, ever: map<string, Capture>, c: Capture, parent: string, id: string)
    requires EverOk(h, ever) && Follows(h, ever, id, c, parent)
    ensures Clear(parent)
  {
    hide CaptureId;
  }

  /** One more capture, after the latest of its copy. */
  lemma EverGrows(h: Ideal, ever: map<string, Capture>, s: Store, c: Reading, latest: Option<string>)
    requires Faithful(h) && EverOk(h, ever) && CopyOk(h, ever, s) && Readable(h, c)
    requires (latest.Some? ==> latest.value in s.captures) && IsLatest(s.captures, c.project, c.origin, latest)
    ensures var (id, made) := NewCapture(h, s, c, latest); EverOk(h, Remember(ever, id, made))
  {
    hide CaptureId, Revisions, Linked, Faithful, EverOk;
    var (id, made) := NewCapture(h, s, c, latest);
    ClearId(h, c, Parent(latest));
    LatestInside(s.captures, c.project, c.origin, latest);
    if id !in ever {
      assert Follows(h, ever, id, made, Parent(latest)) by {
        if latest.Some? { EverPositive(h, ever, latest.value); }
      }
      EverAdds(h, ever, id, made, Parent(latest));
    }
  }

  lemma EverPositive(h: Ideal, ever: map<string, Capture>, id: string)
    requires EverOk(h, ever) && id in ever
    ensures ever[id].sequence >= 1
  {
    hide Follows;
  }

  lemma EverAdds(h: Ideal, ever: map<string, Capture>, id: string, made: Capture, parent: string)
    requires EverOk(h, ever) && id !in ever && Follows(h, ever, id, made, parent)
    requires id != "" && Clear(id) && Clear(made.project) && Clear(made.checkout) && made.sequence >= 1
    ensures EverOk(h, ever[id := made])
  {
    hide CaptureId;
    var after := ever[id := made];
    forall i | i in after ensures exists p :: Follows(h, after, i, after[i], p) {
      if i != id {
        var p :| Follows(h, ever, i, ever[i], p);
        assert Follows(h, after, i, after[i], p);
      } else {
        assert Follows(h, after, id, made, parent);
      }
    }
  }

  lemma JoinOk(h: Ideal, ever: map<string, Capture>, s: Store, t: Store)
    requires Faithful(h) && CopyOk(h, ever, s) && CopyOk(h, ever, t) && Join(s, t).Some?
    ensures CopyOk(h, ever, Join(s, t).value)
  {
    hide CaptureOk, ArtifactOk, Faithful;
    var u := Join(s, t).value;
    JoinGrows(h, s, t);
    forall rev | rev in u.artifacts ensures ArtifactOk(h, u, rev, u.artifacts[rev]) {
      if rev in t.artifacts { ArtifactStays(h, t, u, rev, t.artifacts[rev]); } else { ArtifactStays(h, s, u, rev, s.artifacts[rev]); }
    }
    forall id | id in u.captures ensures CaptureOk(h, u, id, u.captures[id]) {
      if id in t.captures { CaptureStays(h, t, u, id, t.captures[id]); } else { CaptureStays(h, s, u, id, s.captures[id]); }
    }
  }

  /** A copy stays what it is when more captures are made elsewhere. */
  lemma CopyLater(h: Ideal, ever: map<string, Capture>, id: string, c: Capture, s: Store)
    requires CopyOk(h, ever, s)
    ensures CopyOk(h, Remember(ever, id, c), s)
  {
    hide Linked;
  }

  lemma RecordKeeps(h: Ideal, w: World, e: Event)
    requires Faithful(h) && Sound(h, w) && e.Record? && Enabled(h, w, e)
    ensures Sound(h, RecordStep(h, w, e))
  {
    hide EverOk, CopyOk, IsLatest, Readable, Faithful, ArchiveAll, Revisions;
    var s, c := CopyOf(w, e.copy), e.visit.c;
    CopyIsOk(h, w, e.copy);
    if Outcome(h, s, e).Ok? {
      var (id, made) := NewCapture(h, s, c, e.latest);
      RecordedCopyOk(h, w.ever, s, e);
      EverGrows(h, w.ever, s, c, e.latest);
      forall copy | copy in w.copies ensures CopyOk(h, Remember(w.ever, id, made), w.copies[copy]) {
        CopyLater(h, w.ever, id, made, w.copies[copy]);
      }
    }
  }

  lemma RecordedCopyOk(h: Ideal, ever: map<string, Capture>, s: Store, e: Event)
    requires Faithful(h) && EverOk(h, ever) && CopyOk(h, ever, s) && e.Record? && VisitOk(h, e.visit)
    requires (e.latest.Some? ==> e.latest.value in s.captures) && IsLatest(s.captures, e.visit.c.project, e.visit.c.origin, e.latest)
    requires Outcome(h, s, e).Ok?
    ensures var (id, made) := NewCapture(h, s, e.visit.c, e.latest);
      CopyOk(h, if Adds(h, s, e) then Remember(ever, id, made) else ever, Outcome(h, s, e).value)
  {
    hide EverOk, IsLatest, Readable, Faithful, ArchiveAll, Revisions, Linked, CaptureId, Fetch, Grows;
    var c := e.visit.c;
    var t := ArchiveAll(h, s, c, e.visit.order).value;
    ArchiveEach(h, s, c, e.visit.order);
    if Adds(h, s, e) {
      var (id, made) := NewCapture(h, s, c, e.latest);
      AddCapture(h, s, t, c, e.latest);
      if id in ever { SamePlace(h, ever, s, c, e.latest); }
    }
  }

  lemma StepKeeps(h: Ideal, w: World, e: Event)
    requires Faithful(h) && Sound(h, w)
    ensures Sound(h, Step(h, w, e))
  {
    hide EverOk, CopyOk, Enabled, Faithful, RecordStep, Join;
    match e
    case Record(_, _, _) => if Enabled(h, w, e) { RecordKeeps(h, w, e); }
    case Merge(into, from) =>
      CopyIsOk(h, w, into);
      CopyIsOk(h, w, from);
      if Join(CopyOf(w, into), CopyOf(w, from)).Some? { JoinOk(h, w.ever, CopyOf(w, into), CopyOf(w, from)); }
    case Lose(_) =>
  }

  lemma {:induction false} RunSound(h: Ideal, es: seq<Event>)
    requires Faithful(h)
    ensures Sound(h, Run(h, es))
  {
    hide Faithful, Step, CopyOk;
    if es != [] {
      RunSound(h, es[..|es| - 1]);
      StepKeeps(h, Run(h, es[..|es| - 1]), es[|es| - 1]);
    }
  }

  // ----- the exact condition -----

  /** The captures of a checkout reach back to its first without a gap. */
  lemma {:induction false} NoGap(h: Ideal, ever: map<string, Capture>, j: string, n: nat) returns (k: string)
    requires EverOk(h, ever) && j in ever && 1 <= n <= ever[j].sequence
    ensures k in ever && Of(ever[k], ever[j].project, ever[j].checkout) && ever[k].sequence == n
    decreases ever[j].sequence
  {
    hide CaptureId;
    if ever[j].sequence == n {
      k := j;
    } else {
      var parent :| Follows(h, ever, j, ever[j], parent);
      k := NoGap(h, ever, parent, n);
    }
  }

  /** Adding one capture keeps the numbers distinct exactly when its copy knew the latest, or it is not new. */
  lemma AddNumbered(h: Ideal, w: World, e: Event)
    requires Faithful(h) && Sound(h, w) && Numbered(w.ever)
    requires e.Record? && Enabled(h, w, e) && Adds(h, CopyOf(w, e.copy), e)
    ensures Numbered(Step(h, w, e).ever) <==> Guarded(h, w, e)
  {
    hide EverOk, Outcome, CopyOk, IsLatest, Readable, Faithful, CaptureId, Revisions;
    var s := CopyOf(w, e.copy);
    var (id, made) := NewCapture(h, s, e.visit.c, e.latest);
    if id !in w.ever && !KnowsLatest(w, e) {
      var j :| j in w.ever && Of(w.ever[j], e.visit.c.project, e.visit.c.origin) && w.ever[j].sequence > SequenceOf(s.captures, e.latest);
      var k := NoGap(h, w.ever, j, made.sequence);
      assert Step(h, w, e).ever[id].sequence == Step(h, w, e).ever[k].sequence;
    }
  }

  lemma EverStays(h: Ideal, w: World, e: Event)
    ensures forall id | id in w.ever :: id in Step(h, w, e).ever && Step(h, w, e).ever[id] == w.ever[id]
    ensures !(e.Record? && Enabled(h, w, e) && Adds(h, CopyOf(w, e.copy), e)) ==> Step(h, w, e).ever == w.ever
  {
    hide Join, RecordAfter, NewCapture;
  }

  /** Every capture was added by a copy that knew the latest one, or had been made before. */
  ghost predicate AllGuarded(h: Ideal, es: seq<Event>) {
    forall i | 0 <= i < |es| :: Guarded(h, Run(h, es[..i]), es[i])
  }

  lemma GuardedSoFar(h: Ideal, es: seq<Event>)
    requires es != []
    ensures var last := |es| - 1; AllGuarded(h, es) <==> AllGuarded(h, es[..last]) && Guarded(h, Run(h, es[..last]), es[last])
  {
    hide Guarded, Run;
    var last := |es| - 1;
    forall i | 0 <= i < last ensures es[..last][..i] == es[..i] {
    }
  }

  /**
   Over any run of recordings, merges and losses: the sequence numbers of every checkout are distinct among all
   captures ever made if and only if each capture was added by a copy that knew the latest one of its checkout
   there was, or had been made before.
   */
  lemma {:induction false} NumberedExactly(h: Ideal, es: seq<Event>)
    requires Faithful(h)
    ensures Numbered(Run(h, es).ever) <==> AllGuarded(h, es)
  {
    hide Faithful, Step, Sound, Guarded, Numbered, AllGuarded;
    if es == [] {
      NothingNumbered();
      assert AllGuarded(h, es) by { NothingGuarded(h); }
    } else {
      var last := |es| - 1;
      NumberedExactly(h, es[..last]);
      RunSound(h, es[..last]);
      StepNumbered(h, Run(h, es[..last]), es[last]);
      GuardedSoFar(h, es);
    }
  }

  lemma NothingGuarded(h: Ideal)
    ensures AllGuarded(h, [])
  {
  }

  lemma NothingNumbered()
    ensures Numbered(map[])
  {
  }

  lemma StepNumbered(h: Ideal, w: World, e: Event)
    requires Faithful(h) && Sound(h, w)
    ensures Numbered(Step(h, w, e).ever) <==> Numbered(w.ever) && Guarded(h, w, e)
  {
    hide Step, Sound, Faithful, Outcome, IsLatest;
    EverStays(h, w, e);
    if Numbered(w.ever) && e.Record? && Enabled(h, w, e) && Adds(h, CopyOf(w, e.copy), e) {
      AddNumbered(h, w, e);
    }
  }

  /** As long as that holds every copy is well formed, and so is whatever two copies merge to. */
  lemma CopiesOk(h: Ideal, es: seq<Event>, into: string, from: string)
    requires Faithful(h) && AllGuarded(h, es)
    ensures var w := Run(h, es);
      && StoreOk(h, CopyOf(w, into))
      && (Join(CopyOf(w, into), CopyOf(w, from)).Some? ==> StoreOk(h, Join(CopyOf(w, into), CopyOf(w, from)).value))
  {
    hide Faithful, Run, AllGuarded, Linked, Join;
    NumberedExactly(h, es);
    RunSound(h, es);
    var w := Run(h, es);
    CopyIsOk(h, w, into);
    CopyIsOk(h, w, from);
    InsideNumbered(h, w.ever, CopyOf(w, into));
    if Join(CopyOf(w, into), CopyOf(w, from)).Some? {
      JoinOk(h, w.ever, CopyOf(w, into), CopyOf(w, from));
      InsideNumbered(h, w.ever, Join(CopyOf(w, into), CopyOf(w, from)).value);
    }
  }

  /**
   What was last read of a checkout is what the merged archive restores, when neither copy knows a later
   capture of it and the merged numbers are distinct.
   */
  lemma MergedRestore(h: Ideal, s: Store, t: Store, c: Reading)
    requires Faithful(h) && Readable(h, c) && Linked(h, s) && Linked(h, t) && Holds(h, s, c)
    requires Join(s, t).Some? && Numbered(Join(s, t).value.captures)
    requires forall j | j in t.captures && Of(t.captures[j], c.project, c.origin) ::
      t.captures[j].sequence <= SequenceOf(s.captures, Latest(s.captures, c.project, c.origin))
    ensures Restore(h, Join(s, t).value, c.project, c.origin, "") == if c.contents == map[] then Err(NO_REVISION) else Ok(c.contents)
  {
    hide Linked, Fetch, Revisions, RevisionOf, Restore, Faithful, Numbered;
    var u := Join(s, t).value;
    var id := Latest(s.captures, c.project, c.origin).value;
    assert Grows(s, u) by { JoinGrows(h, s, t); }
    assert Newest(u.captures, c.project, c.origin, id);
    NewestIsLatest(u.captures, c.project, c.origin, id);
    forall path | path in c.contents ensures Fetch(h, u, c.project, c.origin, path, RevisionOf(h, c, path)) == Some(c.contents[path]) {
      FetchStays(h, s, u, c.project, c.origin, path, RevisionOf(h, c, path));
    }
    RestoreNewest(h, u, c, c.origin);
  }

  lemma JoinGrows(h: Ideal, s: Store, t: Store)
    requires Faithful(h) && Linked(h, s) && Linked(h, t) && Join(s, t).Some?
    ensures Grows(s, Join(s, t).value) && Grows(t, Join(s, t).value)
  {
    hide CaptureOk, ArtifactOk, Faithful;
    forall id | id in s.objects && id in t.objects ensures s.objects[id] == t.objects[id] {
      SameBytes(h, s.objects[id], t.objects[id]);
    }
  }

  lemma InsideNumbered(h: Ideal, ever: map<string, Capture>, s: Store)
    requires CopyOk(h, ever, s) && Numbered(ever)
    ensures Numbered(s.captures)
  {
    hide Linked;
  }

  // ----- a lost base forks a checkout -----

  lemma {:induction false} RoomForAll(h: Ideal, s: Store, c: Reading, order: seq<string>)
    requires Listed(c, order) && |s.artifacts| + |order| <= CATALOG_LIMIT
    ensures var r := ArchiveAll(h, s, c, order); r.Ok? && |r.value.artifacts| <= |s.artifacts| + |order| && r.value.captures == s.captures
  {
    if order != [] {
      RoomForAll(h, s, c, order[..|order| - 1]);
    }
  }

  /** The history of a base that is lost between two visits of one checkout. */
  function LostBase(a: Visit, b: Visit): seq<Event> {
    [Record("device", a, None), Merge("server", "device"), Lose("device"), Record("device", b, None), Merge("server", "device")]
  }

  lemma FirstRecord(h: Ideal, w: World, v: Visit)
    requires VisitOk(h, v) && |v.order| <= CATALOG_LIMIT && "device" !in w.copies
    ensures var (id, made) := NewCapture(h, EMPTY_STORE, v.c, None);
      var t := ArchiveAll(h, EMPTY_STORE, v.c, v.order);
      && t.Ok? && Step(h, w, Record("device", v, None)) ==
        World(w.copies["device" := t.value.(captures := map[id := made])], Remember(w.ever, id, made))
  {
    hide VisitOk, ArchiveAll, NewCapture;
    assert Listed(v.c, v.order) by { Orderly(h, v); }
    RoomForAll(h, EMPTY_STORE, v.c, v.order);
  }

  lemma Orderly(h: Ideal, v: Visit)
    requires VisitOk(h, v)
    ensures Listed(v.c, v.order)
  {
  }

  /** One visit is recorded and reaches the server, and the device loses its copy. */
  lemma AfterLoss(h: Ideal, a: Visit, b: Visit)
    requires VisitOk(h, a) && |a.order| <= CATALOG_LIMIT
    ensures var (id, made) := NewCapture(h, EMPTY_STORE, a.c, None);
      var t := ArchiveAll(h, EMPTY_STORE, a.c, a.order);
      && t.Ok? && Run(h, LostBase(a, b)[..3]) == World(map["server" := t.value.(captures := map[id := made])], map[id := made])
  {
    hide VisitOk, ArchiveAll, NewCapture, RecordStep, Enabled;
    var es := LostBase(a, b);
    var (id, made) := NewCapture(h, EMPTY_STORE, a.c, None);
    assert es[..3][..2] == es[..2] && es[..2][..1] == es[..1] && es[..1][..0] == [];
    FirstRecord(h, START, a);
    Orderly(h, a);
    var t := ArchiveAll(h, EMPTY_STORE, a.c, a.order).value.(captures := map[id := made]);
    assert Run(h, es[..1]) == Step(h, START, es[0]) == World(map["device" := t], map[id := made]);
    JoinEmpty(t);
    assert Run(h, es[..2]) == World(map["device" := t, "server" := t], map[id := made]);
    assert Run(h, es[..3]) == World(map["server" := t], map[id := made]);
  }

  lemma JoinEmpty(t: Store)
    ensures Join(EMPTY_STORE, t) == Some(t)
  {
    assert map[] + t.captures == t.captures && map[] + t.artifacts == t.artifacts && map[] + t.objects == t.objects;
  }

  /**
   The failing history: a device that lost its copy records the checkout again, with other contents. It makes a
   second first capture, and when nothing stops the merge the server holds both.
   */
  lemma LostBaseForks(h: Ideal, a: Visit, b: Visit)
    requires Faithful(h) && VisitOk(h, a) && VisitOk(h, b) && |a.order| <= CATALOG_LIMIT && |b.order| <= CATALOG_LIMIT
    requires a.c.project == b.c.project && a.c.origin == b.c.origin && a.c.contents != b.c.contents
    ensures !Numbered(Run(h, LostBase(a, b)[..4]).ever)
    ensures var w := Run(h, LostBase(a, b)[..4]);
      Join(CopyOf(w, "server"), CopyOf(w, "device")).Some? ==> !Numbered(CopyOf(Run(h, LostBase(a, b)), "server").captures)
  {
    hide VisitOk, ArchiveAll, Enabled, RecordStep, Revisions, CaptureId, Join, Faithful;
    var es := LostBase(a, b);
    var (i, x) := NewCapture(h, EMPTY_STORE, a.c, None);
    var (j, y) := NewCapture(h, EMPTY_STORE, b.c, None);
    AfterLoss(h, a, b);
    assert es[..4][..3] == es[..3] && es[..5] == es && es[..5][..4] == es[..4];
    FirstRecord(h, Run(h, es[..3]), b);
    DifferentIds(h, a, b);
    var w := Run(h, es[..4]);
    assert w == Step(h, Run(h, es[..3]), es[3]);
    assert i in w.ever && j in w.ever && w.ever[i].sequence == w.ever[j].sequence == 1;
    if Join(CopyOf(w, "server"), CopyOf(w, "device")).Some? {
      JoinHoldsBoth(CopyOf(w, "server"), CopyOf(w, "device"));
      var s := CopyOf(Run(h, es), "server");
      assert Run(h, es) == Step(h, w, es[4]);
      assert i in s.captures && j in s.captures;
      assert s.captures[i].sequence == s.captures[j].sequence == 1;
    }
  }

  lemma LastStep(h: Ideal, es: seq<Event>)
    requires es != []
    ensures Run(h, es) == Step(h, Run(h, es[..|es| - 1]), es[|es| - 1])
  {
  }

  /** What an archive holds of one file of a reading. */
  function Reference(h: Ideal, c: Reading, path: string): Artifact
    requires path in c.contents && path in c.kinds && path in c.keys && path in c.nonces
  {
    var data := c.contents[path];
    Artifact(c.project, c.origin, path, c.kinds[path], h.digest(data), h.digest(h.seal(c.keys[path], c.nonces[path], data)), c.keys[path], |data|, c.at)
  }

  lemma {:induction false} HoldsReferences(h: Ideal, c: Reading, order: seq<string>)
    requires Faithful(h) && Readable(h, c) && Listed(c, order) && ArchiveAll(h, EMPTY_STORE, c, order).Ok?
    ensures var t := ArchiveAll(h, EMPTY_STORE, c, order).value;
      && (forall rev | rev in t.artifacts :: exists path | path in order :: rev == RevisionOf(h, c, path))
      && (forall path | path in order :: RevisionOf(h, c, path) in t.artifacts && t.artifacts[RevisionOf(h, c, path)] == Reference(h, c, path))
  {
    hide Faithful, Readable, ArchiveRevision, RevisionOf, Reference;
    if order != [] {
      var front, last := order[..|order| - 1], order[|order| - 1];
      assert order == front + [last];
      HoldsReferences(h, c, front);
      HoldsOneMore(h, ArchiveAll(h, EMPTY_STORE, c, front).value, c, front, last);
    }
  }

  lemma HoldsOneMore(h: Ideal, s: Store, c: Reading, front: seq<string>, last: string)
    requires Faithful(h) && Readable(h, c) && Listed(c, front + [last]) && last in front + [last] && ArchiveRevision(h, s, c, last).Ok?
    requires (forall path | path in front :: path in c.contents && path in c.kinds && path in c.keys && path in c.nonces) && last in c.contents
    requires forall rev | rev in s.artifacts :: exists path | path in front :: rev == RevisionOf(h, c, path)
    requires forall path | path in front :: RevisionOf(h, c, path) in s.artifacts && s.artifacts[RevisionOf(h, c, path)] == Reference(h, c, path)
    ensures var t := ArchiveRevision(h, s, c, last).value;
      && (forall rev | rev in t.artifacts :: exists path | path in front + [last] :: rev == RevisionOf(h, c, path))
      && (forall path | path in front + [last] :: RevisionOf(h, c, path) in t.artifacts && t.artifacts[RevisionOf(h, c, path)] == Reference(h, c, path))
  {
    hide Faithful, Revision;
    var t := ArchiveRevision(h, s, c, last).value;
    forall rev | rev in t.artifacts ensures exists path | path in front + [last] :: rev == RevisionOf(h, c, path) {
      if rev in s.artifacts {
        var path :| path in front && rev == RevisionOf(h, c, path);
        assert path in front + [last];
      }
    }
    forall path | path in front + [last] ensures RevisionOf(h, c, path) in t.artifacts && t.artifacts[RevisionOf(h, c, path)] == Reference(h, c, path) {
      if path !in front {
        if RevisionOf(h, c, last) in s.artifacts {
          var other :| other in front && RevisionOf(h, c, last) == RevisionOf(h, c, other);
          RevisionInjective(h, c.project, c.origin, last, c.contents[last], c.project, c.origin, other, c.contents[other]);
        }
      } else if RevisionOf(h, c, path) == RevisionOf(h, c, last) {
        RevisionInjective(h, c.project, c.origin, path, c.contents[path], c.project, c.origin, last, c.contents[last]);
      }
    }
  }

  /** A file both visits read alike, with other references: sealed with another key, or at another time. */
  predicate SharedFile(h: Ideal, a: Reading, b: Reading, path: string) {
    && path in a.contents && path in a.kinds && path in a.keys && path in a.nonces
    && path in b.contents && path in b.kinds && path in b.keys && path in b.nonces
    && a.contents[path] == b.contents[path] && Reference(h, a, path) != Reference(h, b, path)
  }

  /**
   The server refuses the fork exactly when the visits share a file: its revision id is the same and what the
   archives hold under it is not.
   */
  lemma LostBaseRefused(h: Ideal, a: Visit, b: Visit)
    requires Faithful(h) && VisitOk(h, a) && VisitOk(h, b) && |a.order| <= CATALOG_LIMIT && |b.order| <= CATALOG_LIMIT
    requires a.c.project == b.c.project && a.c.origin == b.c.origin && a.c.contents != b.c.contents
    ensures var w := Run(h, LostBase(a, b)[..4]);
      Join(CopyOf(w, "server"), CopyOf(w, "device")).None? <==> exists path :: SharedFile(h, a.c, b.c, path)
  {
    hide VisitOk, ArchiveAll, Enabled, RecordStep, Revisions, CaptureId, Faithful, Run, NewCapture, SharedFile;
    var es := LostBase(a, b);
    AfterLoss(h, a, b);
    assert es[..4][..3] == es[..3];
    FirstRecord(h, Run(h, es[..3]), b);
    assert Run(h, es[..4]) == Step(h, Run(h, es[..3]), es[3]) by { LastStep(h, es[..4]); }
    DifferentIds(h, a, b);
    Orderly(h, a);
    Orderly(h, b);
    ReferencesAgree(h, a, b);
  }

  lemma ReferencesAgree(h: Ideal, a: Visit, b: Visit)
    requires Faithful(h) && VisitOk(h, a) && VisitOk(h, b) && Listed(a.c, a.order) && Listed(b.c, b.order)
    requires a.c.project == b.c.project && a.c.origin == b.c.origin
    requires ArchiveAll(h, EMPTY_STORE, a.c, a.order).Ok? && ArchiveAll(h, EMPTY_STORE, b.c, b.order).Ok?
    ensures CatalogJoin.Agree(ArchiveAll(h, EMPTY_STORE, a.c, a.order).value.artifacts, ArchiveAll(h, EMPTY_STORE, b.c, b.order).value.artifacts)
      <==> !exists path :: SharedFile(h, a.c, b.c, path)
  {
    hide ArchiveAll, Faithful, Revision, Reference;
    HoldsReferences(h, a.c, a.order);
    HoldsReferences(h, b.c, b.order);
    var s, t := ArchiveAll(h, EMPTY_STORE, a.c, a.order).value.artifacts, ArchiveAll(h, EMPTY_STORE, b.c, b.order).value.artifacts;
    if path :| SharedFile(h, a.c, b.c, path) {
      assert path in a.order && path in b.order && RevisionOf(h, a.c, path) == RevisionOf(h, b.c, path);
      assert s[RevisionOf(h, a.c, path)] != t[RevisionOf(h, a.c, path)];
    }
    forall rev | rev in s && rev in t && s[rev] != t[rev] ensures exists path :: SharedFile(h, a.c, b.c, path) {
      var x :| x in a.order && rev == RevisionOf(h, a.c, x);
      var y :| y in b.order && rev == RevisionOf(h, b.c, y);
      RevisionInjective(h, a.c.project, a.c.origin, x, a.c.contents[x], b.c.project, b.c.origin, y, b.c.contents[y]);
      assert SharedFile(h, a.c, b.c, x);
    }
  }

  /** And when they share none the server takes the fork in: it holds two first captures of one checkout. */
  lemma LostBaseMerges(h: Ideal, a: Visit, b: Visit)
    requires Faithful(h) && VisitOk(h, a) && VisitOk(h, b) && |a.order| <= CATALOG_LIMIT && |b.order| <= CATALOG_LIMIT
    requires a.c.project == b.c.project && a.c.origin == b.c.origin && a.c.contents != b.c.contents
    requires forall path :: !SharedFile(h, a.c, b.c, path)
    ensures !Numbered(CopyOf(Run(h, LostBase(a, b)), "server").captures)
  {
    hide VisitOk, SharedFile, Join, Faithful, Run, Numbered;
    LostBaseRefused(h, a, b);
    LostBaseForks(h, a, b);
  }

  // ----- a refused merge stays refused -----

  /** A copy that is not lost only grows. */
  lemma CopyGrows(h: Ideal, w: World, e: Event, copy: string)
    requires Faithful(h) && Sound(h, w) && e != Lose(copy)
    ensures Grows(CopyOf(w, copy), CopyOf(Step(h, w, e), copy))
  {
    hide EverOk, CopyOk, Enabled, Faithful, RecordStep, Join, Grows;
    GrowsSelf(CopyOf(w, copy));
    match e
    case Record(into, _, _) => if Enabled(h, w, e) { RecordGrows(h, w, e, copy); }
    case Merge(into, from) =>
      CopyLinked(h, w, into);
      CopyLinked(h, w, from);
      if Join(CopyOf(w, into), CopyOf(w, from)).Some? { JoinGrows(h, CopyOf(w, into), CopyOf(w, from)); }
    case Lose(_) =>
  }

  lemma GrowsSelf(s: Store)
    ensures Grows(s, s)
  {
  }

  lemma CopyLinked(h: Ideal, w: World, copy: string)
    requires Sound(h, w)
    ensures Linked(h, CopyOf(w, copy))
  {
    hide Linked, EverOk;
    CopyIsOk(h, w, copy);
  }

  lemma RecordGrows(h: Ideal, w: World, e: Event, copy: string)
    requires Faithful(h) && Sound(h, w) && e.Record? && Enabled(h, w, e)
    ensures Grows(CopyOf(w, copy), CopyOf(RecordStep(h, w, e), copy))
  {
    hide EverOk, CopyOk, IsLatest, Readable, Faithful, ArchiveAll, Revisions, Linked, CaptureId, Fetch, Grows;
    var s, c := CopyOf(w, e.copy), e.visit.c;
    GrowsSelf(CopyOf(w, copy));
    CopyLinked(h, w, e.copy);
    if copy == e.copy && Outcome(h, s, e).Ok? {
      var t := ArchiveAll(h, s, c, e.visit.order).value;
      ArchiveEach(h, s, c, e.visit.order);
      if Adds(h, s, e) {
        AddCapture(h, s, t, c, e.latest);
        GrowsTrans(s, t, Outcome(h, s, e).value);
      }
    }
  }

  lemma StillDisagree(s: Store, t: Store, s': Store, t': Store)
    requires Join(s, t).None? && Grows(s, s') && Grows(t, t')
    ensures Join(s', t').None?
  {
  }

  /** Two copies that cannot be merged cannot be merged at any later point, until one of them is lost. */
  lemma {:induction false} StillRefused(h: Ideal, es: seq<Event>, n: nat, a: string, b: string)
    requires Faithful(h) && n <= |es| && Join(CopyOf(Run(h, es[..n]), a), CopyOf(Run(h, es[..n]), b)).None?
    requires forall i | n <= i < |es| :: es[i] != Lose(a) && es[i] != Lose(b)
    ensures Join(CopyOf(Run(h, es), a), CopyOf(Run(h, es), b)).None?
    decreases |es|
  {
    hide Faithful, Run, Step, Join, CopyOf;
    if n == |es| {
      assert es[..n] == es;
    } else {
      var front := es[..|es| - 1];
      assert front[..n] == es[..n];
      StillRefused(h, front, n, a, b);
      RunSound(h, front);
      LastStep(h, es);
      CopyGrows(h, Run(h, front), es[|es| - 1], a);
      CopyGrows(h, Run(h, front), es[|es| - 1], b);
      StillDisagree(CopyOf(Run(h, front), a), CopyOf(Run(h, front), b), CopyOf(Run(h, es), a), CopyOf(Run(h, es), b));
    }
  }

  lemma JoinHoldsBoth(s: Store, t: Store)
    requires Join(s, t).Some?
    ensures Join(s, t).value.captures == s.captures + t.captures
  {
  }

  lemma DifferentIds(h: Ideal, a: Visit, b: Visit)
    requires Faithful(h) && VisitOk(h, a) && VisitOk(h, b) && a.c.project == b.c.project && a.c.origin == b.c.origin
    requires a.c.contents != b.c.contents
    ensures NewCapture(h, EMPTY_STORE, a.c, None).0 != NewCapture(h, EMPTY_STORE, b.c, None).0
  {
    hide CaptureId, Revision;
    if NewCapture(h, EMPTY_STORE, a.c, None).0 == NewCapture(h, EMPTY_STORE, b.c, None).0 {
      CaptureIdInjective(h, a.c.project, a.c.origin, "", Revisions(h, a.c), b.c.project, b.c.origin, "", Revisions(h, b.c));
      SameRevisions(h, a, b);
    }
  }

  lemma SameRevisions(h: Ideal, a: Visit, b: Visit)
    requires Faithful(h) && VisitOk(h, a) && VisitOk(h, b) && a.c.project == b.c.project && a.c.origin == b.c.origin
    requires Revisions(h, a.c) == Revisions(h, b.c)
    ensures a.c.contents == b.c.contents
  {
    hide Revision, Faithful;
    assert Revisions(h, a.c).Keys == a.c.contents.Keys && Revisions(h, b.c).Keys == b.c.contents.Keys;
    forall path | path in a.c.contents ensures a.c.contents[path] == b.c.contents[path] {
      assert Revisions(h, a.c)[path] == Revisions(h, b.c)[path];
      RevisionInjective(h, a.c.project, a.c.origin, path, a.c.contents[path], b.c.project, b.c.origin, path, b.c.contents[path]);
    }
  }
}
