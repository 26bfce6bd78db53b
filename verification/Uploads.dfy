/**
 Encrypted file objects on their way to the server: staged on disk, pruned, uploaded before the vault that
 refers to them. Devices share one compare-and-swap server; uploads may fail part of the way, and an
 accepted vault's answer may be lost or only partly acted on.
 */
module Uploads {
  import opened Wrappers

  /** File revisions and the object each refers to. */
  type Refs = map<string, string>

  /**
   A device's acknowledged and pending revisions, its pending-objects directory, and the version it applied.
   seen is kept for the proofs: the newest version its base or pending revision was read from.
   */
  datatype Device = Device(base: Option<Refs>, pending: Option<Refs>, disk: set<string>, pin: nat, seen: nat)

  function RefsOf(o: Option<Refs>): Refs {
    if o.Some? then o.value else map[]
  }

  predicate Agree(a: Refs, b: Refs) {
    forall rev | rev in a && rev in b :: a[rev] == b[rev]
  }

  const CONFLICT := "conflicting immutable file revision"
  const MISSING := "pending encrypted revision is missing"
  const MISMATCH := "pending encrypted revision digest mismatch"
  const UNREACHABLE := "upload failed"

  function Merged(d: Device, remote: Option<Refs>): Result<Refs> {
    var local := RefsOf(d.base) + RefsOf(d.pending);
    if !Agree(RefsOf(d.base), RefsOf(d.pending)) || !Agree(local, RefsOf(remote)) then Err(CONFLICT)
    else Ok(local + RefsOf(remote))
  }

  /** Revisions found in checkouts and not known yet: each gets an object of its own, written to disk. */
  function NewRefs(known: Refs, found: Refs): Refs {
    map rev | rev in found && rev !in known :: found[rev]
  }

  /** The inventory's revisions, and the device with the new objects on disk. */
  function Collect(d: Device, remote: Option<Refs>, found: Refs): Result<(Refs, Device)> {
    match Merged(d, remote)
    case Err(m) => Err(m)
    case Ok(known) => Ok((known + NewRefs(known, found), d.(disk := d.disk + NewRefs(known, found).Values)))
  }

  /** The objects still waiting: those of pending revisions that the base does not hold. */
  function Waiting(pending: Option<Refs>, base: Option<Refs>): set<string> {
    set rev | rev in RefsOf(pending) && rev !in RefsOf(base) :: RefsOf(pending)[rev]
  }

  /** Removes every object that is not waiting. */
  function Prune(disk: set<string>, pending: Option<Refs>, base: Option<Refs>): set<string> {
    set id | id in disk && id in Waiting(pending, base) :: id
  }

  function ClearPending(d: Device): Device {
    d.(pending := None, disk := Prune(d.disk, None, None))
  }

  /** Staging before any network I/O. alike says whether the rest of the inventory is the base's. */
  function Stage(d: Device, found: Refs, alike: bool): Device {
    match Collect(d, None, found)
    case Err(_) => d
    case Ok((refs, next)) =>
      if alike && d.base == Some(refs) then ClearPending(next)
      else next.(pending := Some(refs), disk := Prune(next.disk, Some(refs), d.base))
  }

  /** The objects to upload: those of revisions the server's vault does not hold. */
  function Owed(refs: Refs, remote: Option<Refs>): Refs {
    map rev | rev in refs && rev !in RefsOf(remote) :: refs[rev]
  }

  /** Whether every owed object can be read from disk. */
  predicate Uploadable(refs: Refs, remote: Option<Refs>, disk: set<string>) {
    forall rev | rev in Owed(refs, remote) :: Owed(refs, remote)[rev] in disk
  }

  // ----- devices and the server -----

  datatype Flight = Flight(ifMatch: nat, refs: Refs, clears: bool)

  /**
   Version v refers to history[v - 1]; objects are stored apart and never removed. A vault a device has put may
   reach the server at any later point, whatever the device does next, or never.
   */
  datatype World = World(history: seq<Refs>, objects: set<string>, devices: map<string, Device>, flights: set<(string, Flight)>)

  const START := World([], {}, map[], {})

  const NEW_DEVICE := Device(None, None, {}, 0, 0)

  /** How far the device gets after its vault is accepted. */
  datatype Answer = Lost | SavedBase | Finished

  /** shown is the version a fetch shows; anything that was never stored reads as none. */
  datatype Event =
    | Join(id: string)
    | LoseFiles(id: string, base: bool, pending: bool)
    | StageChanges(id: string, found: Refs, alike: bool)
    | GuardChange(id: string, found: Refs)
    | KeyChange(id: string, shown: nat)
    | CacheChange(id: string, shown: nat)
    | StartAttempt(id: string, shown: nat, first: Refs, second: Refs, alike: bool, reached: set<string>)
    | StartRotation(id: string, shown: nat, found: Refs, reached: set<string>)
    | PutVault(id: string, f: Flight, answer: Answer)

  predicate Shows(w: World, shown: nat) {
    0 < shown <= |w.history|
  }

  function Fetched(w: World, shown: nat): Option<Refs> {
    if Shows(w, shown) then Some(w.history[shown - 1]) else None
  }

  /** A version older than the one applied is refused; that there is no vault at all is believed. */
  predicate Accepts(w: World, d: Device, shown: nat) {
    Shows(w, shown) ==> shown >= d.pin
  }

  function Max(a: nat, b: nat): nat {
    if a < b then b else a
  }

  /** What an attempt does after collecting: the device, the objects that arrived, the upload, and whether a file was missing. */
  datatype Push = Push(d: Device, arrived: set<string>, flight: Option<Flight>, missing: bool)

  function Idle(d: Device): Push {
    Push(d, {}, None, false)
  }

  function Version(w: World, shown: nat): nat {
    if Shows(w, shown) then shown else 0
  }

  /** Stages the inventory, uploads the objects it owes, and leaves the vault ready to put. */
  function Send(w: World, d: Device, refs: Refs, shown: nat, clears: bool, reached: set<string>): Push {
    var owed := Owed(refs, Fetched(w, shown)).Values;
    var staged := d.(pending := Some(refs), seen := Max(d.seen, Version(w, shown)));
    if !Uploadable(refs, Fetched(w, shown), d.disk) then Push(staged, {}, None, true)
    else if !(owed <= reached) then Push(staged, owed * reached, None, false)
    else Push(staged, owed, Some(Flight(Version(w, shown), refs, clears)), false)
  }

  /** One attempt of a sync: the inventory is collected twice, and nothing is sent if the server holds it already. */
  function Attempt(w: World, d: Device, shown: nat, first: Refs, second: Refs, alike: bool, reached: set<string>): Push {
    if !Accepts(w, d, shown) then Idle(d) else
    var remote := Fetched(w, shown);
    match Collect(d, remote, first)
    case Err(_) => Idle(d)
    case Ok((_, d1)) =>
      match Collect(d1, remote, second)
      case Err(_) => Idle(d1)
      case Ok((refs, d2)) =>
        if alike && remote == Some(refs) then Idle(ClearPending(d2.(base := remote, pin := shown, seen := shown)))
        else Send(w, d2, refs, shown, true, reached)
  }

  function Rotate(w: World, d: Device, shown: nat, found: Refs, reached: set<string>): Push {
    if !Shows(w, shown) || !Accepts(w, d, shown) then Idle(d) else
    match Collect(d, Fetched(w, shown), found)
    case Err(_) => Idle(d)
    case Ok((refs, next)) => Send(w, next, refs, shown, false, reached)
  }

  function Act(w: World, d: Device, e: Event): Push {
    match e
    case LoseFiles(_, base, pending) =>
      Idle(d.(base := if base then None else d.base, pending := if pending then None else d.pending))
    case StageChanges(_, found, alike) => Idle(Stage(d, found, alike))
    case GuardChange(_, found) =>
      Idle(match Collect(d, None, found)
           case Err(_) => d
           case Ok((refs, next)) => next.(pending := Some(refs)))
    case KeyChange(_, shown) =>
      Idle(if Shows(w, shown) && Accepts(w, d, shown)
           then d.(pending := Fetched(w, shown), seen := Max(d.seen, shown)) else d)
    case CacheChange(_, shown) =>
      Idle(if Shows(w, shown) && Accepts(w, d, shown)
           then d.(base := Fetched(w, shown), seen := Max(d.seen, shown)) else d)
    case StartAttempt(_, shown, first, second, alike, reached) => Attempt(w, d, shown, first, second, alike, reached)
    case StartRotation(_, shown, found, reached) => Rotate(w, d, shown, found, reached)
    case _ => Idle(d)
  }

  /** What an accepted vault changes on the device that put it, as far as the device gets. */
  function Accepted(d: Device, f: Flight, version: nat, answer: Answer): Device {
    match answer
    case Lost => d
    case SavedBase => d.(base := Some(f.refs), seen := version)
    case Finished =>
      var done := d.(base := Some(f.refs), pin := version, seen := version);
      if f.clears then ClearPending(done) else done
  }

  function Put(w: World, id: string, f: Flight, answer: Answer): World
    requires id in w.devices
  {
    if f.ifMatch != |w.history| then w else
    w.(history := w.history + [f.refs],
       devices := w.devices[id := Accepted(w.devices[id], f, |w.history| + 1, answer)])
  }

  function Step(w: World, e: Event): World {
    if e.Join? then
      if e.id in w.devices then w else w.(devices := w.devices[e.id := NEW_DEVICE])
    else if e.id !in w.devices then w
    else if e.PutVault? then
      if (e.id, e.f) in w.flights then Put(w, e.id, e.f, e.answer) else w
    else
      var push := Act(w, w.devices[e.id], e);
      World(w.history, w.objects + push.arrived, w.devices[e.id := push.d],
            w.flights + if push.flight.Some? then {(e.id, push.flight.value)} else {})
  }

  function Run(events: seq<Event>): World {
    if events == [] then START else Step(Run(events[..|events| - 1]), events[|events| - 1])
  }

  // ----- exactly when a file is missing -----

  /** What a device knows of the archive before an attempt. */
  function Known(d: Device): Refs {
    RefsOf(d.base) + RefsOf(d.pending)
  }

  /** A revision the device knows is neither in the fetched vault nor on its disk. */
  predicate Lacks(d: Device, remote: Option<Refs>) {
    exists rev | rev in Known(d) :: rev !in RefsOf(remote) && Known(d)[rev] !in d.disk
  }

  lemma CollectedOwes(d: Device, remote: Option<Refs>, found: Refs)
    requires Collect(d, remote, found).Ok?
    ensures var (refs, next) := Collect(d, remote, found).value;
      && Uploadable(refs, remote, next.disk) == !LacksWith(d, remote, next.disk)
      && d.disk <= next.disk && next.base == d.base && next.pending == d.pending && next.pin == d.pin && next.seen == d.seen
  {
    var (refs, next) := Collect(d, remote, found).value;
    var known := Merged(d, remote).value;
    var added := NewRefs(known, found);
    assert forall rev | rev in added :: added[rev] in next.disk;
    if Uploadable(refs, remote, next.disk) {
      forall rev | rev in Known(d) && rev !in RefsOf(remote) ensures Known(d)[rev] in next.disk {
        assert rev in Owed(refs, remote) && refs[rev] == Known(d)[rev];
      }
    } else {
      var rev :| rev in Owed(refs, remote) && Owed(refs, remote)[rev] !in next.disk;
      assert rev in Known(d) && Known(d)[rev] == refs[rev];
    }
  }

  predicate LacksWith(d: Device, remote: Option<Refs>, disk: set<string>) {
    exists rev | rev in Known(d) :: rev !in RefsOf(remote) && Known(d)[rev] !in disk
  }

  /** The objects an attempt writes for revisions it finds in checkouts and does not know yet. */
  function Written(d: Device, remote: Option<Refs>, first: Refs, second: Refs): set<string> {
    var known := RefsOf(d.base) + RefsOf(d.pending) + RefsOf(remote);
    NewRefs(known, first).Values + NewRefs(known, second).Values
  }

  /**
   Whatever version is shown and whatever revisions are found: an attempt finds a file missing if and only if the
   version is accepted and agrees with what the device knows, and the device knows a revision that is neither in
   that version nor on its disk nor among the objects just written.
   */
  lemma MissingExactly(w: World, d: Device, shown: nat, first: Refs, second: Refs, alike: bool, reached: set<string>)
    ensures var remote := Fetched(w, shown);
      Attempt(w, d, shown, first, second, alike, reached).missing <==>
        && Accepts(w, d, shown) && Merged(d, remote).Ok?
        && LacksWith(d, remote, d.disk + Written(d, remote, first, second))
  {
    hide Uploadable, Owed, Collect, Merged, LacksWith, Written, ClearPending;
    var remote := Fetched(w, shown);
    CollectsIfMerged(d, remote, first);
    if Accepts(w, d, shown) && Merged(d, remote).Ok? {
      CollectedOwes(d, remote, first);
      var d1 := Collect(d, remote, first).value.1;
      SameMerged(d, d1, remote);
      CollectsIfMerged(d1, remote, second);
      CollectedOwes(d1, remote, second);
      var (refs, d2) := Collect(d1, remote, second).value;
      WrittenDisk(d, remote, first, second);
      if remote == Some(refs) { SettledOwes(refs, d2.disk); }
    }
  }

  /** New objects are new: then exactly when a revision the device knows is neither in the version nor on its disk. */
  lemma MissingFresh(w: World, d: Device, shown: nat, first: Refs, second: Refs, alike: bool, reached: set<string>)
    requires Written(d, Fetched(w, shown), first, second) !! Known(d).Values
    ensures Attempt(w, d, shown, first, second, alike, reached).missing <==>
      Accepts(w, d, shown) && Merged(d, Fetched(w, shown)).Ok? && Lacks(d, Fetched(w, shown))
  {
    hide Attempt, Written, Merged;
    MissingExactly(w, d, shown, first, second, alike, reached);
    var remote := Fetched(w, shown);
    forall rev | rev in Known(d) ensures Known(d)[rev] !in Written(d, remote, first, second) {
      assert Known(d)[rev] in Known(d).Values;
    }
  }

  lemma CollectsIfMerged(d: Device, remote: Option<Refs>, found: Refs)
    ensures Collect(d, remote, found).Ok? <==> Merged(d, remote).Ok?
  {
  }

  lemma SameMerged(d: Device, next: Device, remote: Option<Refs>)
    requires next.base == d.base && next.pending == d.pending
    ensures Merged(next, remote) == Merged(d, remote)
    ensures forall disk :: LacksWith(next, remote, disk) == LacksWith(d, remote, disk)
  {
  }

  /** The disk after both collections. */
  lemma WrittenDisk(d: Device, remote: Option<Refs>, first: Refs, second: Refs)
    requires Collect(d, remote, first).Ok? && Collect(Collect(d, remote, first).value.1, remote, second).Ok?
    ensures Collect(Collect(d, remote, first).value.1, remote, second).value.1.disk == d.disk + Written(d, remote, first, second)
  {
  }

  lemma SettledOwes(refs: Refs, disk: set<string>)
    ensures Uploadable(refs, Some(refs), disk)
  {
  }

  lemma NothingFound(d: Device, remote: Option<Refs>)
    requires Merged(d, remote).Ok?
    ensures Collect(d, remote, map[]) == Ok((Merged(d, remote).value, d))
    ensures Uploadable(Merged(d, remote).value, remote, d.disk) == !Lacks(d, remote)
  {
    var known := Merged(d, remote).value;
    var none := NewRefs(known, map[]);
    assert none == map[] && none.Values == {} && known + none == known && d.disk + {} == d.disk;
    CollectedOwes(d, remote, map[]);
  }

  // ----- what every step keeps -----

  ghost predicate Extends(a: Refs, b: Refs) {
    forall rev | rev in a :: rev in b && b[rev] == a[rev]
  }

  function VersionAt(history: seq<Refs>, version: nat): Refs
    requires version <= |history|
  {
    if version == 0 then map[] else history[version - 1]
  }

  /** Whatever the device knows is in the newest version it read from, or pending and on disk. */
  ghost predicate Backed(newest: Refs, d: Device) {
    && Extends(RefsOf(d.base), newest)
    && forall rev | rev in RefsOf(d.pending) :: rev in newest || RefsOf(d.pending)[rev] in d.disk
  }

  ghost predicate DeviceOk(history: seq<Refs>, d: Device) {
    d.pin <= d.seen <= |history| && Backed(VersionAt(history, d.seen), d)
  }

  /** A vault's objects are on the server. */
  ghost predicate Complete(refs: Refs, objects: set<string>) {
    forall rev | rev in refs :: refs[rev] in objects
  }

  ghost predicate FlightOk(w: World, f: Flight) {
    f.ifMatch <= |w.history| && Extends(VersionAt(w.history, f.ifMatch), f.refs) && Complete(f.refs, w.objects)
  }

  ghost predicate HistoryOk(w: World) {
    && (forall i {:trigger w.history[i]} | 0 <= i < |w.history| :: Complete(w.history[i], w.objects))
    && (forall i {:trigger w.history[i]} | 0 <= i < |w.history| :: Extends(VersionAt(w.history, i), w.history[i]))
  }

  ghost predicate Sound(w: World) {
    && HistoryOk(w)
    && (forall id | id in w.devices :: DeviceOk(w.history, w.devices[id]))
    && (forall sent | sent in w.flights :: FlightOk(w, sent.1))
  }

  lemma ExtendsTrans(a: Refs, b: Refs, c: Refs)
    requires Extends(a, b) && Extends(b, c)
    ensures Extends(a, c)
  {
  }

  lemma ExtendsSelf(a: Refs)
    ensures Extends(a, a)
  {
  }

  lemma NextVersion(w: World, j: nat)
    requires HistoryOk(w) && 0 < j <= |w.history|
    ensures Extends(VersionAt(w.history, j - 1), VersionAt(w.history, j))
  {
    hide Complete, Extends;
    assert Extends(VersionAt(w.history, j - 1), w.history[j - 1]);
  }

  /** Versions only add revisions. */
  lemma {:induction false} Accumulates(w: World, i: nat, j: nat)
    requires HistoryOk(w) && i <= j <= |w.history|
    ensures Extends(VersionAt(w.history, i), VersionAt(w.history, j))
    decreases j - i
  {
    hide HistoryOk, Extends, VersionAt;
    if i < j {
      Accumulates(w, i, j - 1);
      NextVersion(w, j);
      ExtendsTrans(VersionAt(w.history, i), VersionAt(w.history, j - 1), VersionAt(w.history, j));
    } else {
      ExtendsSelf(VersionAt(w.history, i));
    }
  }

  /** A newer version backs a device as well. */
  lemma BackedLater(older: Refs, newer: Refs, d: Device)
    requires Backed(older, d) && Extends(older, newer)
    ensures Backed(newer, d)
  {
  }

  /** After collecting, every revision of the inventory is in the newest version read from or on disk. */
  lemma CollectKeeps(newest: Refs, d: Device, remote: Option<Refs>, found: Refs)
    requires Backed(newest, d) && Extends(RefsOf(remote), newest)
    requires Collect(d, remote, found).Ok?
    ensures var (refs, next) := Collect(d, remote, found).value;
      && Backed(newest, next) && next == d.(disk := next.disk)
      && (forall rev | rev in refs :: rev in newest || refs[rev] in next.disk)
      && Extends(RefsOf(remote), refs)
  {
    var (refs, next) := Collect(d, remote, found).value;
    var known := Merged(d, remote).value;
    forall rev | rev in refs ensures rev in newest || refs[rev] in next.disk {
      if rev !in known {
        assert rev in NewRefs(known, found);
      }
    }
  }

  lemma StageKeeps(newest: Refs, d: Device, found: Refs, alike: bool)
    requires Backed(newest, d)
    ensures Backed(newest, Stage(d, found, alike)) && Stage(d, found, alike).pin == d.pin && Stage(d, found, alike).seen == d.seen
  {
    hide Collect;
    if Collect(d, None, found).Ok? {
      CollectKeeps(newest, d, None, found);
      var (refs, next) := Collect(d, None, found).value;
      forall rev | rev in refs ensures rev in newest || refs[rev] in Prune(next.disk, Some(refs), d.base) {
        if rev !in RefsOf(d.base) {
          assert refs[rev] in Waiting(Some(refs), d.base);
        }
      }
    }
  }

  lemma VersionComplete(w: World, version: nat)
    requires HistoryOk(w) && version <= |w.history|
    ensures Complete(VersionAt(w.history, version), w.objects)
  {
    hide Extends;
  }

  ghost predicate PushOk(w: World, push: Push) {
    && DeviceOk(w.history, push.d)
    && (push.flight.Some? ==> FlightOk(w.(objects := w.objects + push.arrived), push.flight.value))
  }

  /** The newest version known once this one is shown. */
  function Newest(w: World, d: Device, shown: nat): Refs
    requires d.seen <= |w.history|
  {
    VersionAt(w.history, Max(d.seen, Version(w, shown)))
  }

  lemma ShownInside(w: World, d: Device, shown: nat)
    requires HistoryOk(w) && DeviceOk(w.history, d)
    ensures Extends(RefsOf(Fetched(w, shown)), Newest(w, d, shown)) && Backed(Newest(w, d, shown), d)
    ensures RefsOf(Fetched(w, shown)) == VersionAt(w.history, Version(w, shown))
  {
    hide HistoryOk, Backed, Extends;
    Accumulates(w, Version(w, shown), Max(d.seen, Version(w, shown)));
    Accumulates(w, d.seen, Max(d.seen, Version(w, shown)));
    BackedLater(VersionAt(w.history, d.seen), Newest(w, d, shown), d);
  }

  /** What is ready to put has all its objects on the server; and nothing is missing if the newest version was shown. */
  lemma SendKeeps(w: World, d: Device, refs: Refs, shown: nat, clears: bool, reached: set<string>)
    requires HistoryOk(w) && DeviceOk(w.history, d) && Extends(RefsOf(Fetched(w, shown)), refs)
    requires forall rev | rev in refs :: rev in Newest(w, d, shown) || refs[rev] in d.disk
    ensures PushOk(w, Send(w, d, refs, shown, clears, reached))
    ensures Version(w, shown) >= d.seen ==> !Send(w, d, refs, shown, clears, reached).missing
  {
    hide HistoryOk;
    ShownInside(w, d, shown);
    VersionComplete(w, Version(w, shown));
    var push := Send(w, d, refs, shown, clears, reached);
    if push.flight.Some? {
      forall rev | rev in refs ensures refs[rev] in w.objects + push.arrived {
        if rev !in RefsOf(Fetched(w, shown)) {
          assert rev in Owed(refs, Fetched(w, shown));
        }
      }
    }
  }

  lemma MoreDisk(newest: Refs, d: Device, disk: set<string>)
    requires Backed(newest, d) && d.disk <= disk
    ensures Backed(newest, d.(disk := disk))
  {
  }

  lemma Acknowledged(refs: Refs, d: Device, pin: nat, seen: nat)
    ensures Backed(refs, ClearPending(d.(base := Some(refs), pin := pin, seen := seen)))
  {
  }

  lemma AttemptKeeps(w: World, d: Device, shown: nat, first: Refs, second: Refs, alike: bool, reached: set<string>)
    requires HistoryOk(w) && DeviceOk(w.history, d)
    ensures PushOk(w, Attempt(w, d, shown, first, second, alike, reached))
    ensures Version(w, shown) >= d.seen ==> !Attempt(w, d, shown, first, second, alike, reached).missing
  {
    hide Collect, HistoryOk, Send, FlightOk, Backed, Extends, ClearPending;
    var remote, newest := Fetched(w, shown), Newest(w, d, shown);
    if Accepts(w, d, shown) && Collect(d, remote, first).Ok? {
      ShownInside(w, d, shown);
      CollectKeeps(newest, d, remote, first);
      CollectedOwes(d, remote, first);
      var d1 := Collect(d, remote, first).value.1;
      MoreDisk(VersionAt(w.history, d.seen), d, d1.disk);
      if Collect(d1, remote, second).Ok? {
        CollectKeeps(newest, d1, remote, second);
        CollectedOwes(d1, remote, second);
        var (refs, d2) := Collect(d1, remote, second).value;
        MoreDisk(VersionAt(w.history, d.seen), d, d2.disk);
        if alike && remote == Some(refs) {
          Acknowledged(refs, d2, shown, shown);
          KeepsCounters(d2.(base := remote, pin := shown, seen := shown));
        } else {
          SendKeeps(w, d2, refs, shown, true, reached);
        }
      }
    }
  }

  lemma KeepsCounters(d: Device)
    ensures ClearPending(d).pin == d.pin && ClearPending(d).seen == d.seen
  {
  }

  lemma RotateKeeps(w: World, d: Device, shown: nat, found: Refs, reached: set<string>)
    requires HistoryOk(w) && DeviceOk(w.history, d)
    ensures PushOk(w, Rotate(w, d, shown, found, reached))
    ensures Version(w, shown) >= d.seen ==> !Rotate(w, d, shown, found, reached).missing
  {
    hide Collect, HistoryOk, Send, FlightOk, Backed, Extends;
    var remote, newest := Fetched(w, shown), Newest(w, d, shown);
    if Shows(w, shown) && Accepts(w, d, shown) && Collect(d, remote, found).Ok? {
      ShownInside(w, d, shown);
      CollectKeeps(newest, d, remote, found);
      CollectedOwes(d, remote, found);
      var (refs, next) := Collect(d, remote, found).value;
      MoreDisk(VersionAt(w.history, d.seen), d, next.disk);
      SendKeeps(w, next, refs, shown, false, reached);
    }
  }

  /** A version read into the base or the pending revision backs the device from then on. */
  lemma ReadKeeps(w: World, d: Device, shown: nat)
    requires HistoryOk(w) && DeviceOk(w.history, d) && Shows(w, shown)
    ensures DeviceOk(w.history, d.(pending := Fetched(w, shown), seen := Max(d.seen, shown)))
    ensures DeviceOk(w.history, d.(base := Fetched(w, shown), seen := Max(d.seen, shown)))
  {
    hide HistoryOk;
    ShownInside(w, d, shown);
  }

  lemma ActKeeps(w: World, d: Device, e: Event)
    requires HistoryOk(w) && DeviceOk(w.history, d)
    ensures PushOk(w, Act(w, d, e))
  {
    hide Collect, HistoryOk, Send, Attempt, Rotate, Stage, FlightOk;
    match e
    case StageChanges(_, found, alike) => StageKeeps(VersionAt(w.history, d.seen), d, found, alike);
    case GuardChange(_, found) =>
      if Collect(d, None, found).Ok? { CollectKeeps(VersionAt(w.history, d.seen), d, None, found); }
    case KeyChange(_, shown) => if Shows(w, shown) { ReadKeeps(w, d, shown); }
    case CacheChange(_, shown) => if Shows(w, shown) { ReadKeeps(w, d, shown); }
    case StartAttempt(_, shown, first, second, alike, reached) => AttemptKeeps(w, d, shown, first, second, alike, reached);
    case StartRotation(_, shown, found, reached) => RotateKeeps(w, d, shown, found, reached);
    case _ =>
  }

  lemma DeviceLonger(history: seq<Refs>, refs: Refs, d: Device)
    requires DeviceOk(history, d)
    ensures DeviceOk(history + [refs], d)
  {
    hide Backed;
  }

  /** Whatever the device gets to after its vault is accepted, it is backed by it. */
  lemma AcceptedOk(w: World, d: Device, f: Flight, answer: Answer)
    requires HistoryOk(w) && DeviceOk(w.history, d) && Extends(VersionAt(w.history, |w.history|), f.refs)
    ensures DeviceOk(w.history + [f.refs], Accepted(d, f, |w.history| + 1, answer))
  {
    hide HistoryOk;
    Accumulates(w, d.seen, |w.history|);
  }

  lemma PutKeeps(w: World, id: string, f: Flight, answer: Answer)
    requires Sound(w) && (id, f) in w.flights && id in w.devices
    ensures Sound(Put(w, id, f, answer))
  {
    hide HistoryOk, DeviceOk, Extends, Complete, Accepted;
    var next := Put(w, id, f, answer);
    assert FlightOk(w, (id, f).1);
    if f.ifMatch == |w.history| {
      HistoryLonger(w, f, next);
      forall other | other in next.devices ensures DeviceOk(next.history, next.devices[other]) {
        DeviceLonger(w.history, f.refs, w.devices[other]);
        if other == id { AcceptedOk(w, w.devices[id], f, answer); }
      }
      forall other | other in next.flights ensures FlightOk(next, other.1) {
        assert FlightOk(w, other.1);
      }
    }
  }

  lemma HistoryLonger(w: World, f: Flight, next: World)
    requires HistoryOk(w) && FlightOk(w, f) && f.ifMatch == |w.history|
    requires next.history == w.history + [f.refs] && next.objects == w.objects
    ensures HistoryOk(next)
  {
    hide Extends, Complete;
    forall i {:trigger next.history[i]} | 0 <= i < |next.history|
      ensures Complete(next.history[i], next.objects) && Extends(VersionAt(next.history, i), next.history[i])
    {
      if i < |w.history| {
        assert next.history[i] == w.history[i] && VersionAt(next.history, i) == VersionAt(w.history, i);
      }
    }
  }

  lemma HistorySame(w: World, next: World)
    requires HistoryOk(w) && next.history == w.history && w.objects <= next.objects
    ensures HistoryOk(next)
    ensures forall f | FlightOk(w, f) :: FlightOk(next, f)
  {
  }

  lemma StepKeeps(w: World, e: Event)
    requires Sound(w)
    ensures Sound(Step(w, e)) && w.history <= Step(w, e).history
  {
    hide HistoryOk, DeviceOk, Act, FlightOk, Put;
    if e.Join? {
      NewDeviceOk(w.history);
      HistorySame(w, Step(w, e));
    } else if e.id in w.devices {
      if e.PutVault? {
        if (e.id, e.f) in w.flights {
          PutKeeps(w, e.id, e.f, e.answer);
          PutGrows(w, e.id, e.f, e.answer);
        }
      } else {
        ActKeeps(w, w.devices[e.id], e);
        HistorySame(w, Step(w, e));
        SameFlights(w, Act(w, w.devices[e.id], e), Step(w, e));
      }
    }
  }

  lemma PutGrows(w: World, id: string, f: Flight, answer: Answer)
    requires id in w.devices
    ensures w.history <= Put(w, id, f, answer).history
  {
  }

  lemma SameFlights(w: World, push: Push, next: World)
    requires PushOk(w, push) && next.history == w.history && next.objects == w.objects + push.arrived
    ensures push.flight.Some? ==> FlightOk(next, push.flight.value)
  {
  }

  lemma NewDeviceOk(history: seq<Refs>)
    ensures DeviceOk(history, NEW_DEVICE)
  {
  }

  lemma {:induction false} RunSound(events: seq<Event>)
    ensures Sound(Run(events))
  {
    hide Sound, Step;
    if events == [] {
      StartSound();
    } else {
      RunSound(events[..|events| - 1]);
      StepKeeps(Run(events[..|events| - 1]), events[|events| - 1]);
    }
  }

  lemma StartSound()
    ensures Sound(START)
  {
  }

  // ----- what holds in every run -----

  /**
   Everything a sync must upload is on disk: in every run, over any staging, failed uploads, retries, lost
   answers, stale fetches and pruning, an attempt shown a version no older than any the device has read into its
   base or pending revision never finds an object of its inventory missing. The current version always is one.
   */
  lemma NothingMissing(events: seq<Event>, id: string, shown: nat, first: Refs, second: Refs, alike: bool, reached: set<string>)
    requires id in Run(events).devices
    ensures var w := Run(events);
      && w.devices[id].pin <= w.devices[id].seen <= |w.history|
      && (w.devices[id].seen <= shown <= |w.history| ==>
            && !Attempt(w, w.devices[id], shown, first, second, alike, reached).missing
            && !Rotate(w, w.devices[id], shown, first, reached).missing)
  {
    hide Run, Attempt, Rotate, HistoryOk, Backed;
    RunSound(events);
    var w := Run(events);
    assert DeviceOk(w.history, w.devices[id]);
    AttemptKeeps(w, w.devices[id], shown, first, second, alike, reached);
    RotateKeeps(w, w.devices[id], shown, first, reached);
  }

  /** While a device has read nothing newer than the version it applied, every version it accepts will do. */
  lemma AcceptedNothingMissing(events: seq<Event>, id: string, shown: nat, first: Refs, second: Refs, alike: bool, reached: set<string>)
    requires id in Run(events).devices && Run(events).devices[id].seen == Run(events).devices[id].pin
    requires 0 < shown <= |Run(events).history|
    ensures !Attempt(Run(events), Run(events).devices[id], shown, first, second, alike, reached).missing
  {
    hide Run, Collect, Send, HistoryOk, Backed;
    NothingMissing(events, id, shown, first, second, alike, reached);
  }

  /** Staged work survives: a pending revision no newer version holds yet has its object on disk. */
  lemma PendingOnDisk(events: seq<Event>, id: string, rev: string)
    requires id in Run(events).devices && rev in RefsOf(Run(events).devices[id].pending)
    ensures var w := Run(events);
      rev in RefsOf(Fetched(w, |w.history|)) || RefsOf(w.devices[id].pending)[rev] in w.devices[id].disk
  {
    hide Run, HistoryOk;
    RunSound(events);
    var w := Run(events);
    var d := w.devices[id];
    assert DeviceOk(w.history, d);
    Accumulates(w, d.seen, |w.history|);
  }

  /** In every run: no stored vault ever refers to an object the server does not have, and none forgets a revision. */
  lemma VaultsComplete(events: seq<Event>, i: nat, j: nat)
    requires i <= j < |Run(events).history|
    ensures Complete(Run(events).history[j], Run(events).objects)
    ensures Extends(Run(events).history[i], Run(events).history[j])
  {
    hide Run, Extends, Complete;
    RunSound(events);
    Accumulates(Run(events), i + 1, j + 1);
  }

  // ----- an older version that is accepted and will not do -----

  const FIRST := Flight(0, map["r" := "x"], true)
  const SECOND := Flight(1, map["r" := "x", "s" := "y"], true)

  /**
   Two devices share version 1; the second stores version 2; the first reads that to change a key, and is then
   shown version 1 again.
   */
  const STALE_RUN: seq<Event> := [
    Join("a"), StartAttempt("a", 0, map[], map["r" := "x"], false, {"x"}), PutVault("a", FIRST, Finished),
    Join("b"), StartAttempt("b", 1, map[], map["s" := "y"], false, {"y"}), PutVault("b", SECOND, Finished),
    KeyChange("a", 2)]

  function StaleWorld(n: nat): World
    requires n <= |STALE_RUN|
  {
    var one, both: Refs := map["r" := "x"], map["r" := "x", "s" := "y"];
    var a := Device(Some(one), None, {}, 1, 1);
    match n
    case 0 => START
    case 1 => World([], {}, map["a" := NEW_DEVICE], {})
    case 2 => World([], {"x"}, map["a" := Device(None, Some(one), {"x"}, 0, 0)], {("a", FIRST)})
    case 3 => World([one], {"x"}, map["a" := a], {("a", FIRST)})
    case 4 => World([one], {"x"}, map["a" := a, "b" := NEW_DEVICE], {("a", FIRST)})
    case 5 => World([one], {"x", "y"}, map["a" := a, "b" := Device(None, Some(both), {"y"}, 0, 1)], {("a", FIRST), ("b", SECOND)})
    case 6 => World([one, both], {"x", "y"}, map["a" := a, "b" := Device(Some(both), None, {}, 2, 2)], {("a", FIRST), ("b", SECOND)})
    case _ => World([one, both], {"x", "y"},
                    map["a" := Device(Some(one), Some(both), {}, 1, 2), "b" := Device(Some(both), None, {}, 2, 2)], {("a", FIRST), ("b", SECOND)})
  }

  lemma StaleStep(n: nat)
    requires n < |STALE_RUN|
    ensures Step(StaleWorld(n), STALE_RUN[n]) == StaleWorld(n + 1)
  {
    hide Step, StaleWorld;
    match n
    case 0 => StaleJoins();
    case 1 => StaleFirst();
    case 2 => StaleFirstPut();
    case 3 => StaleJoins();
    case 4 => StaleSecond();
    case 5 => StaleSecondPut();
    case _ => StaleReads();
  }

  lemma StaleJoins()
    ensures Step(StaleWorld(0), STALE_RUN[0]) == StaleWorld(1)
    ensures Step(StaleWorld(3), STALE_RUN[3]) == StaleWorld(4)
  {
  }

  lemma StaleFirstPut()
    ensures Step(StaleWorld(2), STALE_RUN[2]) == StaleWorld(3)
  {
    PruneAll({"x"});
  }

  lemma StaleSecondPut()
    ensures Step(StaleWorld(5), STALE_RUN[5]) == StaleWorld(6)
  {
    PruneAll({"y"});
  }

  lemma StaleReads()
    ensures Step(StaleWorld(6), STALE_RUN[6]) == StaleWorld(7)
  {
    var w := StaleWorld(6);
    var d := w.devices["a"];
    var both: Refs := map["r" := "x", "s" := "y"];
    assert Fetched(w, 2) == Some(both) && Accepts(w, d, 2);
    assert Act(w, d, STALE_RUN[6]).d == Device(d.base, Some(both), {}, 1, 2);
    assert w.flights + {} == w.flights;
  }

  lemma PruneAll(disk: set<string>)
    ensures Prune(disk, None, None) == {}
  {
    assert Waiting(None, None) == {};
  }

  lemma StaleFirst()
    ensures Step(StaleWorld(1), STALE_RUN[1]) == StaleWorld(2)
  {
    hide Collect, Owed;
    var one: Refs := map["r" := "x"];
    var none: Refs := map[];
    assert Merged(NEW_DEVICE, None) == Ok(none) by { assert none + none == none; }
    NothingFound(NEW_DEVICE, None);
    OneFound();
    var w := StaleWorld(1);
    var push := Attempt(w, NEW_DEVICE, 0, none, one, false, {"x"});
    assert push == Send(w, NEW_DEVICE.(disk := {"x"}), one, 0, true, {"x"});
    assert push == Push(Device(None, Some(one), {"x"}, 0, 0), {"x"}, Some(Flight(0, one, true)), false);
    assert w.flights == {} && w.objects + {"x"} == {"x"};
  }

  lemma OneFound()
    ensures var one: Refs := map["r" := "x"];
      Collect(NEW_DEVICE, None, one) == Ok((one, NEW_DEVICE.(disk := {"x"}))) && Owed(one, None) == one && one.Values == {"x"}
  {
    var one: Refs := map["r" := "x"];
    var none: Refs := map[];
    OneValue("r", "x");
    NothingFound(NEW_DEVICE, None);
    assert NewRefs(none, one) == one && none + one == one;
    assert Merged(NEW_DEVICE, None) == Ok(none) by { assert none + none == none; }
    assert NEW_DEVICE.disk + one.Values == {"x"};
    assert Owed(one, None) == one;
  }

  lemma OneValue(k: string, v: string)
    ensures (map[k := v]).Values == {v}
  {
    var m := map[k := v];
    assert k in m.Keys && m[k] == v;
    assert forall x :: x in m.Values ==> x == v;
  }

  lemma StaleSecond()
    ensures Step(StaleWorld(4), STALE_RUN[4]) == StaleWorld(5)
  {
    hide Collect, Owed;
    var one, both, s: Refs := map["r" := "x"], map["r" := "x", "s" := "y"], map["s" := "y"];
    var none: Refs := map[];
    SecondFound();
    var w := StaleWorld(4);
    assert Fetched(w, 1) == Some(one) && Accepts(w, NEW_DEVICE, 1);
    var push := Attempt(w, NEW_DEVICE, 1, none, s, false, {"y"});
    assert push == Send(w, NEW_DEVICE.(disk := {"y"}), both, 1, true, {"y"});
    assert push == Push(Device(None, Some(both), {"y"}, 0, 1), {"y"}, Some(Flight(1, both, true)), false);
    assert w.objects + {"y"} == {"x", "y"} && w.flights + {("b", SECOND)} == {("a", FIRST), ("b", SECOND)};
  }

  lemma SecondFound()
    ensures var one, both, s: Refs := map["r" := "x"], map["r" := "x", "s" := "y"], map["s" := "y"];
      && Collect(NEW_DEVICE, Some(one), map[]) == Ok((one, NEW_DEVICE))
      && Collect(NEW_DEVICE, Some(one), s) == Ok((both, NEW_DEVICE.(disk := {"y"})))
      && Owed(both, Some(one)) == s && s.Values == {"y"}
  {
    var one, both, s: Refs := map["r" := "x"], map["r" := "x", "s" := "y"], map["s" := "y"];
    var none: Refs := map[];
    OneValue("s", "y");
    assert Merged(NEW_DEVICE, Some(one)) == Ok(one) by { assert none + none + one == one; }
    NothingFound(NEW_DEVICE, Some(one));
    assert NewRefs(one, s) == s && one + s == both;
    assert NEW_DEVICE.disk + s.Values == {"y"};
    assert Owed(both, Some(one)) == s;
  }

  lemma {:induction false} StaleReaches(n: nat)
    requires n <= |STALE_RUN|
    ensures Run(STALE_RUN[..n]) == StaleWorld(n)
  {
    hide Step, StaleWorld;
    if n > 0 {
      StaleReaches(n - 1);
      assert STALE_RUN[..n][..n - 1] == STALE_RUN[..n - 1];
      StaleStep(n - 1);
    } else {
      assert StaleWorld(0) == START by { StaleStart(); }
    }
  }

  lemma StaleStart()
    ensures StaleWorld(0) == START
  {
  }

  /** So accepting a version is not enough: version 1 is accepted, and the attempt finds a file missing. */
  lemma StaleFetchMisses()
    ensures var w := Run(STALE_RUN);
      && "a" in w.devices && Accepts(w, w.devices["a"], 1) && Shows(w, 1)
      && Attempt(w, w.devices["a"], 1, map[], map[], false, {}).missing
  {
    hide Run, Attempt;
    StaleReaches(|STALE_RUN|);
    assert STALE_RUN[..|STALE_RUN|] == STALE_RUN;
    var w := StaleWorld(|STALE_RUN|);
    var d := w.devices["a"];
    var one, both: Refs := map["r" := "x"], map["r" := "x", "s" := "y"];
    assert one + both == both && both + one == both;
    assert "s" in Known(d) && Known(d)["s"] == "y";
    MissingExactly(w, d, 1, map[], map[], false, {});
  }

  // ----- the loops as the program runs them -----

  /** The pending-objects directory: each file's name, and the digest of what it holds. */
  class Outbox {
    var disk: map<string, string>

    constructor (disk: map<string, string>)
      ensures this.disk == disk
    {
      this.disk := disk;
    }

    /** Deletes every pending object that is not waiting, one file at a time. */
    method PrunePendingObjects(pending: Option<Refs>, base: Option<Refs>)
      modifies this
      ensures disk.Keys == Prune(old(disk).Keys, pending, base)
      ensures forall id | id in disk :: disk[id] == old(disk)[id]
    {
      var keep: set<string> := {};
      var revs := RefsOf(pending).Keys;
      while revs != {}
        invariant revs <= RefsOf(pending).Keys
        invariant forall id :: id in keep <==>
          exists rev | rev in RefsOf(pending) && rev !in revs && rev !in RefsOf(base) :: RefsOf(pending)[rev] == id
      {
        var rev :| rev in revs;
        if rev !in RefsOf(base) { keep := keep + {RefsOf(pending)[rev]}; }
        revs := revs - {rev};
      }
      var todo := disk.Keys;
      while todo != {}
        invariant todo <= old(disk).Keys
        invariant disk == map id | id in old(disk) && (id in todo || id in keep) :: old(disk)[id]
      {
        var id :| id in todo;
        if id !in keep { disk := disk - {id}; }
        todo := todo - {id};
      }
    }

    /**
     Uploads the objects of revisions the server does not hold, in some order, up to the first that is missing,
     whose contents are not what its name says, or that does not arrive.
     */
    method UploadObjects(refs: Refs, remote: Option<Refs>, reached: set<string>) returns (r: Result<()>, arrived: set<string>)
      ensures r.Ok? <==>
        && Uploadable(refs, remote, disk.Keys)
        && Owed(refs, remote).Values <= reached
        && forall id | id in Owed(refs, remote).Values && id in disk :: disk[id] == id
      ensures r == Err(MISSING) ==> !Uploadable(refs, remote, disk.Keys)
      ensures r == Err(MISMATCH) ==> exists id | id in Owed(refs, remote).Values && id in disk :: disk[id] != id
      ensures r == Err(UNREACHABLE) ==> !(Owed(refs, remote).Values <= reached)
      ensures r.Err? ==> r.error in {MISSING, MISMATCH, UNREACHABLE}
      ensures arrived <= Owed(refs, remote).Values * reached && (r.Ok? ==> arrived == Owed(refs, remote).Values)
    {
      arrived := {};
      var todo := refs.Keys;
      while todo != {}
        invariant todo <= refs.Keys
        invariant forall rev | rev in Owed(refs, remote) && rev !in todo ::
          refs[rev] in disk && disk[refs[rev]] == refs[rev] && refs[rev] in reached && refs[rev] in arrived
        invariant forall id | id in arrived :: id in reached && exists rev | rev in Owed(refs, remote) :: refs[rev] == id
      {
        var rev :| rev in todo;
        todo := todo - {rev};
        if rev !in RefsOf(remote) {
          assert rev in Owed(refs, remote) && Owed(refs, remote)[rev] == refs[rev];
          assert refs[rev] in Owed(refs, remote).Values;
          if refs[rev] !in disk { return Err(MISSING), arrived; }
          if disk[refs[rev]] != refs[rev] { return Err(MISMATCH), arrived; }
          if refs[rev] !in reached { return Err(UNREACHABLE), arrived; }
          arrived := arrived + {refs[rev]};
        }
      }
      return Ok(()), arrived;
    }
  }
}
