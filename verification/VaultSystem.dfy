/**
 Many devices and one compare-and-swap server. A fetch may show any earlier version of the vault, or none,
 and an answer may be lost; keyrings and local files may be edited, lost or restored at any point.
 */
module VaultSystem {
  import opened Wrappers
  import opened KeyVault
  import opened CatalogJoin
  import opened Inventory
  import opened KeyMerge
  import opened Account

  /** An upload a device has sent; a sync's own clears the pending revision once it is acknowledged. */
  datatype Flight = Flight(id: string, put: Upload, clears: bool)

  /**
   Version v of the vault is history[v - 1]. Uploads stay under way whatever their devices do next: each may reach
   the server at any later point, or never.
   */
  datatype World = World(history: seq<Vault>, devices: map<string, Device>, flights: set<Flight>)

  const NEW_DEVICE := Device(map[], None, None, map[], Pin(0, 0), {})

  const START := World([], map[], {})

  datatype Event =
    | Join(id: string)
    | Edit(id: string, ks: Projects)
    | LoseFiles(id: string, base: bool, pending: bool)
    | StageChanges(id: string)
    | GuardChange(id: string, key: KeyRecord, guarded: bool)
    | KeyChange(id: string, shown: nat, key: KeyRecord, deleted: bool, at: int)
    | CacheChange(id: string, shown: nat, project: string, mode: CacheMode)
    | RecoverPending(id: string, m: Mode)
    | StartAttempt(id: string, shown: nat, m: Mode)
    | StartRotation(id: string, shown: nat)
    | StartAccount(id: string)
    | PutVault(id: string, put: Upload, clears: bool, answered: bool)

  /** A person or an import may do anything to the keyrings but put another value under the record of one of these keys. */
  ghost predicate Possible(own: set<KeyRecord>, e: Event) {
    e.Edit? ==> ProjectsOk(own, e.ks)
  }

  function At(history: seq<Vault>, version: nat): Option<Vault>
    requires version <= |history|
  {
    if version == 0 then None else Some(history[version - 1])
  }

  /** What a fetch shows. */
  function Fetched(w: World, shown: nat): Option<Copy> {
    if 0 < shown <= |w.history| then Some(Copy(shown, w.history[shown - 1])) else None
  }

  /** An event that changes one device only, and the upload it leaves under way. */
  function Act(sort: Sorter, w: World, d: Device, e: Event): (Device, Option<Flight>)
    requires Sorts(sort)
  {
    match e
    case Edit(_, ks) => (d.(ks := ks), None)
    case LoseFiles(_, base, pending) =>
      (d.(base := if base then None else d.base, pending := if pending then None else d.pending), None)
    case StageChanges(_) => (Stage(d), None)
    case GuardChange(_, key, guarded) => (ChangeGuard(d, key, guarded), None)
    case KeyChange(_, shown, key, deleted, at) =>
      (if Fetched(w, shown).Some? then ChangeKey(d, Fetched(w, shown).value.vault, key, deleted, at) else d, None)
    case CacheChange(_, shown, project, mode) =>
      (if Fetched(w, shown).Some? then CacheProject(sort, d, Fetched(w, shown).value.vault, project, mode) else d, None)
    case RecoverPending(_, m) => (Recover(sort, m, d).0, None)
    case StartAttempt(_, shown, m) =>
      var (next, outcome) := Attempt(sort, m, d, Fetched(w, shown));
      (next, if outcome.Ready? then Some(Flight(e.id, outcome.put, true)) else None)
    case StartRotation(_, shown) =>
      if Fetched(w, shown).None? then (d, None) else
      var (next, outcome) := Rotate(d, Fetched(w, shown).value);
      (next, if outcome.Ready? then Some(Flight(e.id, outcome.put, false)) else None)
    case StartAccount(_) =>
      var outcome := FirstUpload(d);
      (d, if outcome.Ready? then Some(Flight(e.id, outcome.put, false)) else None)
    case _ => (d, None)
  }

  /** The register: an upload is stored if the version it names is the current one. */
  function Put(w: World, f: Flight, answered: bool): World
    requires f.id in w.devices
  {
    if f.put.ifMatch != |w.history| then w else
    var d := w.devices[f.id];
    var done := Acknowledge(d, Copy(|w.history| + 1, f.put.vault));
    var next := if !answered then d else if f.clears then done else done.(pending := d.pending);
    w.(history := w.history + [f.put.vault], devices := w.devices[f.id := next])
  }

  function Step(sort: Sorter, w: World, e: Event): World
    requires Sorts(sort)
  {
    if e.Join? then
      if e.id in w.devices then w else w.(devices := w.devices[e.id := NEW_DEVICE])
    else if e.id !in w.devices then w
    else if e.PutVault? then
      if Flight(e.id, e.put, e.clears) in w.flights then Put(w, Flight(e.id, e.put, e.clears), e.answered) else w
    else
      var (d, flight) := Act(sort, w, w.devices[e.id], e);
      World(w.history, w.devices[e.id := d], w.flights + if flight.Some? then {flight.value} else {})
  }

  function Run(sort: Sorter, events: seq<Event>): World
    requires Sorts(sort)
  {
    if events == [] then START else Step(sort, Run(sort, events[..|events| - 1]), events[|events| - 1])
  }

  ghost predicate AllPossible(own: set<KeyRecord>, events: seq<Event>) {
    forall i | 0 <= i < |events| :: Possible(own, events[i])
  }

  // ----- what every step keeps -----

  /** What may be uploaded over a version. */
  ghost predicate SoundPut(own: set<KeyRecord>, current: Option<Vault>, put: Vault) {
    && VaultOk(own, put) && Clean(put)
    && (current.Some? ==> Preserves(own, current.value, put) && put.generation > current.value.generation)
  }

  ghost predicate SoundHistory(own: set<KeyRecord>, history: seq<Vault>) {
    forall i {:trigger history[i]} | 0 <= i < |history| :: SoundPut(own, At(history, i), history[i])
  }

  ghost predicate PinTrue(history: seq<Vault>, pin: Pin) {
    pin.version <= |history| && pin.generation == if pin.version == 0 then 0 else history[pin.version - 1].generation
  }

  ghost predicate SoundFlight(own: set<KeyRecord>, history: seq<Vault>, f: Flight) {
    f.put.ifMatch <= |history| && SoundPut(own, At(history, f.put.ifMatch), f.put.vault)
  }

  ghost predicate SoundDevice(own: set<KeyRecord>, history: seq<Vault>, d: Device) {
    DeviceOk(own, d) && PinTrue(history, d.pin)
  }

  ghost predicate Sound(own: set<KeyRecord>, w: World) {
    && SoundHistory(own, w.history)
    && (forall id | id in w.devices :: SoundDevice(own, w.history, w.devices[id]))
    && (forall f | f in w.flights :: SoundFlight(own, w.history, f))
  }

  lemma CollectSound(own: set<KeyRecord>, base: Option<Vault>, pending: Option<Vault>, current: Option<Vault>, ks: Projects,
                     intent: Option<GuardIntent>, generation: nat)
    requires OptionalOk(own, base) && OptionalOk(own, pending) && OptionalOk(own, current) && ProjectsOk(own, ks)
    requires Collect(base, pending, current, ks, intent).Ok?
    requires current.Some? ==> generation > current.value.generation
    ensures SoundPut(own, current, Collect(base, pending, current, ks, intent).value.(generation := generation))
    ensures VaultOk(own, Collect(base, pending, current, ks, intent).value)
  {
    hide Collect, CatalogExtends, AliasRecordsProper, Excused;
    CollectOk(own, base, pending, current, ks, intent);
    CollectClean(base, pending, current, ks, intent);
    if current.Some? {
      CollectPreserves(own, base, pending, current.value, ks, intent);
    }
  }

  lemma PullSound(own: set<KeyRecord>, sort: Sorter, m: Mode, d: Device, copy: Copy)
    requires Sorts(sort) && DeviceOk(own, d) && VaultOk(own, copy.vault)
    ensures var next := Pull(sort, m, d, copy).0; DeviceOk(own, next) && next.pin == d.pin && next.policy == d.policy
  {
    hide MergeIn, Collect, VaultOk, ProjectsOk, SweepVault, ApplyKeyState;
    if OpenRemote(d.pin, copy.vault).Ok? && Collect(d.base, d.pending, Some(copy.vault), d.ks, None).Ok? {
      var combined := Collect(d.base, d.pending, Some(copy.vault), d.ks, None).value;
      assert ProjectsOk(own, copy.vault.projects) by { OkProjects(own, copy.vault); }
      SweptOk(own, CatalogOf(combined), d.ks);
      SweptOk(own, CatalogOf(combined), copy.vault.projects);
      MergeInOk(own, sort, m, d.(ks := ApplyKeyState(d.ks, CatalogOf(combined))), SweepVault(CatalogOf(combined), copy.vault.projects));
    }
  }

  lemma OkProjects(own: set<KeyRecord>, v: Vault)
    requires VaultOk(own, v)
    ensures ProjectsOk(own, v.projects)
  {
  }

  lemma ComposeSound(own: set<KeyRecord>, sort: Sorter, m: Mode, d: Device, remote: Option<Copy>)
    requires Sorts(sort) && DeviceOk(own, d) && (remote.Some? ==> VaultOk(own, remote.value.vault))
    ensures var (next, outcome) := Compose(sort, m, d, remote);
      && DeviceOk(own, next)
      && next.pin == (if outcome.Settled? then Pin(remote.value.version, remote.value.vault.generation) else d.pin)
      && (outcome.Settled? ==> remote.Some?)
      && (outcome.Ready? ==>
            && outcome.put.ifMatch == (if remote.Some? then remote.value.version else 0)
            && SoundPut(own, if remote.Some? then Some(remote.value.vault) else None, outcome.put.vault))
  {
    hide MergeIn, Collect, VaultOk, ProjectsOk, SweepVault, ApplyKeyState, SoundPut, BaseCopy, PendingCopy;
    var current := if remote.Some? then Some(remote.value.vault) else None;
    if Collect(d.base, d.pending, current, d.ks, None).Ok? {
      var inventory := Collect(d.base, d.pending, current, d.ks, None).value;
      CollectSound(own, d.base, d.pending, current, d.ks, None, NextGeneration(d.pin, current));
      OkProjects(own, inventory);
      SweptOk(own, CatalogOf(inventory), d.ks);
      var swept := d.(ks := ApplyKeyState(d.ks, CatalogOf(inventory)));
      MergeInOk(own, sort, m, swept, inventory.projects);
      var done := swept.(ks := MergeIn(sort, m, swept, inventory.projects).0.ks);
      var put := inventory.(generation := NextGeneration(d.pin, current));
      OkAnyGeneration(own, inventory, put.generation);
      CopiesOk(own, d.policy, put, d.pending, done.ks);
      if remote.Some? { CopiesOk(own, d.policy, remote.value.vault, None, d.ks); }
    }
  }

  lemma OkAnyGeneration(own: set<KeyRecord>, v: Vault, generation: nat)
    requires VaultOk(own, v)
    ensures VaultOk(own, v.(generation := generation))
  {
  }

  lemma AttemptSound(own: set<KeyRecord>, sort: Sorter, m: Mode, d: Device, remote: Option<Copy>)
    requires Sorts(sort) && DeviceOk(own, d) && (remote.Some? ==> VaultOk(own, remote.value.vault))
    ensures var (next, outcome) := Attempt(sort, m, d, remote);
      && DeviceOk(own, next)
      && next.pin == (if outcome.Settled? then Pin(remote.value.version, remote.value.vault.generation) else d.pin)
      && (outcome.Settled? ==> remote.Some?)
      && (outcome.Ready? ==>
            && outcome.put.ifMatch == (if remote.Some? then remote.value.version else 0)
            && SoundPut(own, if remote.Some? then Some(remote.value.vault) else None, outcome.put.vault))
  {
    hide Pull, Compose, VaultOk, SoundPut, DeviceOk;
    if remote.Some? {
      PullSound(own, sort, m, d, remote.value);
      PullStops(sort, m, d, remote.value);
      ComposeSound(own, sort, m, Pull(sort, m, d, remote.value).0, remote);
    } else {
      ComposeSound(own, sort, m, d, None);
    }
  }

  lemma PullStops(sort: Sorter, m: Mode, d: Device, copy: Copy)
    requires Sorts(sort)
    ensures var stop := Pull(sort, m, d, copy).1; stop.Some? ==> stop.value.Failed? || stop.value.Clash?
  {
    hide Collect, MergeIn, ApplyKeyState, SweepVault;
  }

  lemma StagingOk(own: set<KeyRecord>, d: Device, key: KeyRecord, guarded: bool)
    requires DeviceOk(own, d)
    ensures DeviceOk(own, Stage(d)) && Stage(d).pin == d.pin
    ensures DeviceOk(own, ChangeGuard(d, key, guarded)) && ChangeGuard(d, key, guarded).pin == d.pin
  {
    hide Collect, SweepVault, PendingCopy, VaultOk, ProjectsOk;
    if Collect(d.base, d.pending, None, d.ks, None).Ok? {
      var v := Collect(d.base, d.pending, None, d.ks, None).value;
      CollectOk(own, d.base, d.pending, None, d.ks, None);
      CopiesOk(own, d.policy, v, d.pending, d.ks);
    }
    var intent := Some(GuardIntent(key, guarded));
    if Collect(d.base, d.pending, None, d.ks, intent).Ok? {
      CollectOk(own, d.base, d.pending, None, d.ks, intent);
      if guarded || key.project in d.ks {
        GuardChangeOk(own, d, Collect(d.base, d.pending, None, d.ks, intent).value, key, guarded);
      }
    }
  }

  lemma GuardChangeOk(own: set<KeyRecord>, d: Device, v: Vault, key: KeyRecord, guarded: bool)
    requires DeviceOk(own, d) && VaultOk(own, v) && (guarded || key.project in d.ks)
    ensures var ps := if guarded then v.projects else v.projects[key.project := d.ks[key.project]];
      VaultOk(own, PendingCopy(d.policy, v.(projects := SweepVault(CatalogOf(v), ps)), d.pending, d.ks))
  {
    hide SweepVault, FiledFor, AliasRecordsProper, PendingCopy;
    var ps := if guarded then v.projects else v.projects[key.project := d.ks[key.project]];
    SweptOk(own, CatalogOf(v), ps);
    CopiesOk(own, d.policy, v.(projects := SweepVault(CatalogOf(v), ps)), d.pending, d.ks);
  }

  lemma KeyChangeOk(own: set<KeyRecord>, d: Device, v: Vault, key: KeyRecord, deleted: bool, at: int)
    requires DeviceOk(own, d) && VaultOk(own, v)
    ensures DeviceOk(own, ChangeKey(d, v, key, deleted, at)) && ChangeKey(d, v, key, deleted, at).pin == d.pin
  {
    hide SweepVault, ApplyKeyState, ProjectsOk, PendingCopy, Holds;
    var c := CatalogOf(v);
    var c' := if deleted then c.(deleted := c.deleted[key := at]) else c.(retired := c.retired[key := at]);
    SweptOk(own, c', v.projects);
    SweptOk(own, c', d.ks);
    CopiesOk(own, d.policy, Vault(SweepVault(c', v.projects), Some(c'), v.generation), d.pending, d.ks);
  }

  lemma CacheChangeOk(own: set<KeyRecord>, sort: Sorter, d: Device, v: Vault, project: string, mode: CacheMode)
    requires Sorts(sort) && DeviceOk(own, d) && VaultOk(own, v)
    ensures DeviceOk(own, CacheProject(sort, d, v, project, mode)) && CacheProject(sort, d, v, project, mode).pin == d.pin
  {
    hide MergeAll, BaseCopy, AliasRecordsProper, FiledFor;
    var policy := d.policy[project := mode];
    CopiesOk(own, policy, v, None, d.ks);
    if project in v.projects {
      assert Orders(sort({project}), {project});
      MergeAllOk(own, Unattended, policy, Progress(d.ks, {}), map[project := v.projects[project]], map[], sort({project}));
    }
  }

  lemma RecoverOk(own: set<KeyRecord>, sort: Sorter, m: Mode, d: Device)
    requires Sorts(sort) && DeviceOk(own, d)
    ensures DeviceOk(own, Recover(sort, m, d).0) && Recover(sort, m, d).0.pin == d.pin
  {
    hide MergeIn, ProjectsOk, AliasRecordsProper;
    if d.pending.Some? {
      MergeInOk(own, sort, m, d, d.pending.value.projects);
    }
  }

  lemma UploadsSound(own: set<KeyRecord>, d: Device, copy: Copy)
    requires DeviceOk(own, d) && VaultOk(own, copy.vault)
    ensures var (next, outcome) := Rotate(d, copy);
      && DeviceOk(own, next) && next.pin == d.pin
      && (outcome.Ready? ==> outcome.put.ifMatch == copy.version && SoundPut(own, Some(copy.vault), outcome.put.vault))
  {
    hide Collect, VaultOk, ProjectsOk, SoundPut, PendingCopy;
    if Collect(d.base, d.pending, Some(copy.vault), d.ks, None).Ok? {
      CollectSound(own, d.base, d.pending, Some(copy.vault), d.ks, None, copy.vault.generation + 1);
      CopiesOk(own, d.policy, Collect(d.base, d.pending, Some(copy.vault), d.ks, None).value, d.pending, d.ks);
    }
  }

  lemma FirstUploadSound(own: set<KeyRecord>, d: Device)
    requires DeviceOk(own, d)
    ensures FirstUpload(d).Ready? ==> FirstUpload(d).put.ifMatch == 0 && SoundPut(own, None, FirstUpload(d).put.vault)
  {
    hide Collect, VaultOk, ProjectsOk, SoundPut;
    if Collect(d.base, d.pending, None, d.ks, None).Ok? {
      CollectSound(own, d.base, d.pending, None, d.ks, None, 1);
    }
  }

  lemma HistoryOk(own: set<KeyRecord>, history: seq<Vault>, version: nat)
    requires SoundHistory(own, history) && 0 < version <= |history|
    ensures VaultOk(own, history[version - 1])
  {
  }

  lemma ActSound(own: set<KeyRecord>, sort: Sorter, w: World, d: Device, e: Event)
    requires Sorts(sort) && SoundHistory(own, w.history) && SoundDevice(own, w.history, d) && Possible(own, e)
    ensures var (next, flight) := Act(sort, w, d, e);
      SoundDevice(own, w.history, next) && (flight.Some? ==> SoundFlight(own, w.history, flight.value))
  {
    hide Stage, ChangeGuard, ChangeKey, CacheProject, Recover, Attempt, Rotate, FirstUpload, SoundPut, VaultOk, ProjectsOk, SoundHistory;
    match e
    case StageChanges(_) => StagingOk(own, d, KeyRecord("", ""), true);
    case GuardChange(_, key, guarded) => StagingOk(own, d, key, guarded);
    case KeyChange(_, shown, key, deleted, at) =>
      if 0 < shown <= |w.history| {
        HistoryOk(own, w.history, shown);
        KeyChangeOk(own, d, w.history[shown - 1], key, deleted, at);
      }
    case CacheChange(_, shown, project, mode) =>
      if 0 < shown <= |w.history| {
        HistoryOk(own, w.history, shown);
        CacheChangeOk(own, sort, d, w.history[shown - 1], project, mode);
      }
    case RecoverPending(_, m) => RecoverOk(own, sort, m, d);
    case StartAttempt(_, shown, m) =>
      if 0 < shown <= |w.history| { HistoryOk(own, w.history, shown); }
      AttemptSound(own, sort, m, d, Fetched(w, shown));
    case StartRotation(_, shown) =>
      if 0 < shown <= |w.history| {
        HistoryOk(own, w.history, shown);
        UploadsSound(own, d, Fetched(w, shown).value);
      }
    case StartAccount(_) => FirstUploadSound(own, d);
    case _ =>
  }

  /** A longer history leaves pins true and uploads sound. */
  lemma Longer(own: set<KeyRecord>, history: seq<Vault>, v: Vault, d: Device, f: Flight)
    ensures SoundDevice(own, history, d) ==> SoundDevice(own, history + [v], d)
    ensures SoundFlight(own, history, f) ==> SoundFlight(own, history + [v], f)
  {
    hide DeviceOk, SoundPut;
  }

  lemma PutSound(own: set<KeyRecord>, w: World, f: Flight, answered: bool)
    requires Sound(own, w) && f in w.flights && f.id in w.devices
    ensures Sound(own, Put(w, f, answered))
  {
    hide SoundPut, DeviceOk, BaseCopy, SoundDevice, SoundFlight;
    if f.put.ifMatch == |w.history| {
      var v := f.put.vault;
      var next := Put(w, f, answered);
      assert SoundPut(own, At(w.history, |w.history|), v) by { FlightIsSound(own, w.history, f); }
      assert SoundHistory(own, next.history) by {
        forall i {:trigger next.history[i]} | 0 <= i < |next.history| ensures SoundPut(own, At(next.history, i), next.history[i]) {
          assert i < |w.history| ==> SoundPut(own, At(w.history, i), w.history[i]);
        }
      }
      forall other | other in next.devices ensures SoundDevice(own, next.history, next.devices[other]) {
        if other == f.id {
          AcknowledgeSound(own, w.history, w.devices[f.id], f, answered);
        } else {
          Longer(own, w.history, v, w.devices[other], f);
        }
      }
      forall other | other in next.flights ensures SoundFlight(own, next.history, other) {
        Longer(own, w.history, v, w.devices[f.id], other);
      }
    }
  }

  lemma FlightIsSound(own: set<KeyRecord>, history: seq<Vault>, f: Flight)
    requires SoundFlight(own, history, f)
    ensures f.put.ifMatch <= |history| && SoundPut(own, At(history, f.put.ifMatch), f.put.vault) && VaultOk(own, f.put.vault)
  {
    hide VaultOk, Clean, Preserves;
  }

  lemma AcknowledgeSound(own: set<KeyRecord>, history: seq<Vault>, d: Device, f: Flight, answered: bool)
    requires SoundDevice(own, history, d) && SoundFlight(own, history, f)
    ensures var done := Acknowledge(d, Copy(|history| + 1, f.put.vault));
      SoundDevice(own, history + [f.put.vault], if !answered then d else if f.clears then done else done.(pending := d.pending))
  {
    hide VaultOk, SoundPut, ProjectsOk;
    Longer(own, history, f.put.vault, d, f);
    FlightIsSound(own, history, f);
    CopiesOk(own, d.policy, f.put.vault, None, d.ks);
  }

  lemma StepSound(own: set<KeyRecord>, sort: Sorter, w: World, e: Event)
    requires Sorts(sort) && Sound(own, w) && Possible(own, e)
    ensures Sound(own, Step(sort, w, e)) && w.history <= Step(sort, w, e).history
  {
    hide SoundHistory, SoundDevice, SoundFlight, Act, Possible;
    if e.id !in w.devices {
      NewDeviceSound(own, w.history);
    } else if e.PutVault? {
      var f := Flight(e.id, e.put, e.clears);
      if f in w.flights { PutSound(own, w, f, e.answered); }
    } else if !e.Join? {
      ActSound(own, sort, w, w.devices[e.id], e);
    }
  }

  lemma NewDeviceSound(own: set<KeyRecord>, history: seq<Vault>)
    ensures SoundDevice(own, history, NEW_DEVICE)
  {
  }

  /** Every reachable state is sound. */
  lemma {:induction false} RunSound(own: set<KeyRecord>, sort: Sorter, events: seq<Event>)
    requires Sorts(sort) && AllPossible(own, events)
    ensures Sound(own, Run(sort, events))
  {
    hide Sound, Step, Possible;
    if events == [] {
      StartSound(own);
    } else {
      RunSound(own, sort, events[..|events| - 1]);
      StepSound(own, sort, Run(sort, events[..|events| - 1]), events[|events| - 1]);
    }
  }

  /** Of no key in particular, every state is sound whatever is done to the keyrings. */
  lemma AnySound(sort: Sorter, events: seq<Event>)
    requires Sorts(sort)
    ensures Sound({}, Run(sort, events))
  {
    hide Sound, Step;
    NothingAsked(events);
    RunSound({}, sort, events);
  }

  lemma NothingAsked(events: seq<Event>)
    ensures AllPossible({}, events)
  {
  }

  lemma StartSound(own: set<KeyRecord>)
    ensures Sound(own, START)
  {
  }

  // ----- what holds in every run -----

  lemma Version(own: set<KeyRecord>, history: seq<Vault>, j: nat)
    requires SoundHistory(own, history) && j < |history|
    ensures SoundPut(own, At(history, j), history[j])
  {
    hide SoundPut;
  }

  /** Between two versions, everything the catalog remembers is still remembered. */
  lemma {:induction false} LaterExtends(own: set<KeyRecord>, history: seq<Vault>, i: nat, j: nat)
    requires SoundHistory(own, history) && i <= j < |history|
    ensures CatalogExtends(CatalogOf(history[i]), CatalogOf(history[j]))
    decreases j - i
  {
    hide CatalogExtends, VaultOk, Clean, KeysKept, SoundHistory;
    if i == j {
      ExtendsSelf(CatalogOf(history[i]));
    } else {
      LaterExtends(own, history, i, j - 1);
      Version(own, history, j);
      CatalogExtendsTrans(CatalogOf(history[i]), CatalogOf(history[j - 1]), CatalogOf(history[j]));
    }
  }

  lemma ExtendsSelf(c: Catalog)
    ensures CatalogExtends(c, c)
  {
  }

  /**
   In every run: once a stored vault tombstones a key, every later one tombstones it and holds nothing
   about it under any name, clear or guarded, whatever stale bases, pending revisions or keyrings other devices bring, well formed or not.
   */
  lemma TombstonesHold(sort: Sorter, events: seq<Event>, i: nat, j: nat, key: KeyRecord)
    requires Sorts(sort)
    requires i <= j < |Run(sort, events).history|
    requires key in CatalogOf(Run(sort, events).history[i]).deleted
    ensures var v := Run(sort, events).history[j];
      && key in CatalogOf(v).deleted
      && Gone(EntriesOf(v.projects, key.project), key.pub)
  {
    hide Run, VaultOk, Preserves, SoundDevice, SoundFlight, SoundHistory;
    AnySound(sort, events);
    var history := Run(sort, events).history;
    LaterExtends({}, history, i, j);
    Version({}, history, j);
    GoneIs(EntriesOf(history[j].projects, key.project), key.pub);
  }

  /**
   In every run in which nobody puts another value under the record of this key: once recorded in a stored vault
   it is recorded in every later one, unless some vault stored since then tombstones it, marks it guarded, or
   holds its guarded form. This covers pushes by devices that have evicted the project or lost their keyrings.
   */
  lemma NoKeyLost(sort: Sorter, events: seq<Event>, i: nat, j: nat, p: string, pub: Pub)
    requires Sorts(sort) && AllPossible({KeyRecord(p, pub)}, events)
    requires i <= j < |Run(sort, events).history|
    requires PubEntry(pub) in EntriesOf(Run(sort, events).history[i].projects, p)
    ensures var history := Run(sort, events).history;
      || PubEntry(pub) in EntriesOf(history[j].projects, p)
      || exists m | i < m <= j :: Excused(CatalogOf(history[m]), p, EntriesOf(history[m].projects, p), pub)
  {
    hide Run, SoundDevice, SoundFlight, SoundHistory, Excused;
    RunSound({KeyRecord(p, pub)}, sort, events);
    KeyStays({KeyRecord(p, pub)}, Run(sort, events).history, i, j, p, pub);
  }

  /**
   In every run in which nobody puts another value under the record of this key: once it is in a keyring, of an
   evicted project or any other, and the changes are staged, losing every keyring does not lose it. Whatever is
   collected next holds it, unless it was excused then or is now.
   */
  lemma StagedKeyStays(sort: Sorter, events: seq<Event>, id: string, ks: Projects, shown: nat, p: string, pub: Pub)
    requires Sorts(sort) && AllPossible({KeyRecord(p, pub)}, events + [StageChanges(id), Edit(id, ks)])
    requires id in Run(sort, events).devices && PubEntry(pub) in EntriesOf(Run(sort, events).devices[id].ks, p)
    ensures id in Run(sort, events + [StageChanges(id), Edit(id, ks)]).devices
    ensures var w := Run(sort, events + [StageChanges(id), Edit(id, ks)]);
      var was, d := Run(sort, events).devices[id], w.devices[id];
      var staged := Collect(was.base, was.pending, None, was.ks, None);
      var r := Collect(d.base, d.pending, if Fetched(w, shown).Some? then Some(Fetched(w, shown).value.vault) else None, d.ks, None);
      staged.Ok? && r.Ok? ==>
        || PubEntry(pub) in EntriesOf(r.value.projects, p)
        || Excused(CatalogOf(r.value), p, EntriesOf(r.value.projects, p), pub)
        || Excused(CatalogOf(staged.value), p, EntriesOf(staged.value.projects, p), pub)
  {
    hide Run, Collect, SoundHistory, SoundFlight, Excused, PendingCopy, Stage;
    var own := {KeyRecord(p, pub)};
    var two := events + [StageChanges(id), Edit(id, ks)];
    var one := events + [StageChanges(id)];
    assert two[..|two| - 1] == one && one[..|one| - 1] == events;
    assert Possible(own, two[|two| - 1]);
    forall i | 0 <= i < |one| ensures Possible(own, one[i]) {
      assert two[i] == one[i];
    }
    forall i | 0 <= i < |events| ensures Possible(own, events[i]) {
      assert two[i] == events[i];
    }
    RunSound(own, sort, events);
    RunSound(own, sort, two);
    StagedThenEdited(sort, events, id, ks);
    var w, was, d := Run(sort, two), Run(sort, events).devices[id], Run(sort, two).devices[id];
    StageLeavesKeyrings(was);
    assert d.(ks := was.ks) == Stage(was) && d.ks == ks;
    assert SoundDevice(own, Run(sort, events).history, was) && SoundDevice(own, w.history, d);
    if Fetched(w, shown).Some? { HistoryOk(own, w.history, shown); }
    var remote := if Fetched(w, shown).Some? then Some(Fetched(w, shown).value.vault) else None;
    if Collect(was.base, was.pending, None, was.ks, None).Ok? && Collect(d.base, d.pending, remote, d.ks, None).Ok? {
      StagedHolds(was, p, pub);
      if !Excused(CatalogOf(Collect(was.base, was.pending, None, was.ks, None).value), p,
                  EntriesOf(Collect(was.base, was.pending, None, was.ks, None).value.projects, p), pub) {
        var v :| v in Present(d.base) + Present(d.pending) && PubEntry(pub) in EntriesOf(v.projects, p);
        assert v in Present(d.base) + Present(d.pending) + Present(remote);
        CollectHoldsKey(d.base, d.pending, remote, d.ks, None, p, pub);
      }
    }
  }

  lemma StageLeavesKeyrings(d: Device)
    ensures Stage(d).ks == d.ks
  {
    hide Collect, PendingCopy;
  }

  lemma RunLast(sort: Sorter, events: seq<Event>)
    requires Sorts(sort) && events != []
    ensures Run(sort, events) == Step(sort, Run(sort, events[..|events| - 1]), events[|events| - 1])
  {
  }

  lemma StagedThenEdited(sort: Sorter, events: seq<Event>, id: string, ks: Projects)
    requires Sorts(sort) && id in Run(sort, events).devices
    ensures var w := Run(sort, events + [StageChanges(id), Edit(id, ks)]);
      && id in w.devices && w.devices[id] == Stage(Run(sort, events).devices[id]).(ks := ks)
  {
    hide Run, Stage;
    var two := events + [StageChanges(id), Edit(id, ks)];
    var one := events + [StageChanges(id)];
    assert two[..|two| - 1] == one && one[..|one| - 1] == events;
    RunLast(sort, one);
    RunLast(sort, two);
  }

  /** What staging leaves in the base or the pending revision holds every key on record in a keyring, of evicted projects too. */
  lemma StagedHolds(d: Device, p: string, pub: Pub)
    requires DeviceOk({KeyRecord(p, pub)}, d) && PubEntry(pub) in EntriesOf(d.ks, p)
    requires Collect(d.base, d.pending, None, d.ks, None).Ok?
    ensures var staged, next := Collect(d.base, d.pending, None, d.ks, None).value, Stage(d);
      || Excused(CatalogOf(staged), p, EntriesOf(staged.projects, p), pub)
      || exists v | v in Present(next.base) + Present(next.pending) :: PubEntry(pub) in EntriesOf(v.projects, p)
  {
    hide Collect, Excused, PendingCopy;
    CollectHoldsKey(d.base, d.pending, None, d.ks, None, p, pub);
    var staged, next := Collect(d.base, d.pending, None, d.ks, None).value, Stage(d);
    if PubEntry(pub) in EntriesOf(staged.projects, p) {
      PendingHolds(d.policy, staged, d.pending, d.ks, p);
      assert Owed(d.pending, d.ks, p, PubEntry(pub));
      if next.pending.Some? { assert next.pending.value in Present(next.base) + Present(next.pending); }
      else { assert next.base.value in Present(next.base) + Present(next.pending); }
    }
  }

  lemma OverOneVersion(own: set<KeyRecord>, history: seq<Vault>, j: nat, p: string, pub: Pub)
    requires SoundHistory(own, history) && 0 < j < |history|
    ensures KeyRecord(p, pub) in own && PubEntry(pub) in EntriesOf(history[j - 1].projects, p) ==>
      || PubEntry(pub) in EntriesOf(history[j].projects, p)
      || Excused(CatalogOf(history[j]), p, EntriesOf(history[j].projects, p), pub)
    ensures GuardEntry(pub) in EntriesOf(history[j - 1].projects, p) ==>
      GuardEntry(pub) in EntriesOf(history[j].projects, p) || KeyRecord(p, pub) in CatalogOf(history[j]).deleted
    ensures KeyRecord(p, pub) in CatalogOf(history[j - 1]).deleted ==> KeyRecord(p, pub) in CatalogOf(history[j]).deleted
  {
    hide VaultOk, Clean, Excused, SoundHistory;
    Version(own, history, j);
  }

  lemma {:induction false} KeyStays(own: set<KeyRecord>, history: seq<Vault>, i: nat, j: nat, p: string, pub: Pub)
    requires SoundHistory(own, history) && i <= j < |history| && KeyRecord(p, pub) in own
    requires PubEntry(pub) in EntriesOf(history[i].projects, p)
    ensures || PubEntry(pub) in EntriesOf(history[j].projects, p)
            || exists m | i < m <= j :: Excused(CatalogOf(history[m]), p, EntriesOf(history[m].projects, p), pub)
    decreases j - i
  {
    hide SoundHistory, CatalogOf, EntriesOf, Excused;
    if i < j {
      KeyStays(own, history, i, j - 1, p, pub);
      OverOneVersion(own, history, j, p, pub);
    }
  }

  /** In every run: a sealed key stays in every later vault unless it is tombstoned. */
  lemma SealedKeysStay(sort: Sorter, events: seq<Event>, i: nat, j: nat, p: string, pub: Pub)
    requires Sorts(sort)
    requires i <= j < |Run(sort, events).history|
    requires GuardEntry(pub) in EntriesOf(Run(sort, events).history[i].projects, p)
    ensures var v := Run(sort, events).history[j];
      GuardEntry(pub) in EntriesOf(v.projects, p) || KeyRecord(p, pub) in CatalogOf(v).deleted
  {
    hide Run, SoundDevice, SoundFlight, SoundHistory;
    AnySound(sort, events);
    SealedStays({}, Run(sort, events).history, i, j, p, pub);
  }

  lemma {:induction false} SealedStays(own: set<KeyRecord>, history: seq<Vault>, i: nat, j: nat, p: string, pub: Pub)
    requires SoundHistory(own, history) && i <= j < |history|
    requires GuardEntry(pub) in EntriesOf(history[i].projects, p)
    ensures GuardEntry(pub) in EntriesOf(history[j].projects, p) || KeyRecord(p, pub) in CatalogOf(history[j]).deleted
    decreases j - i
  {
    hide SoundHistory, CatalogOf, EntriesOf;
    if i < j {
      SealedStays(own, history, i, j - 1, p, pub);
      OverOneVersion(own, history, j, p, pub);
    }
  }

  lemma {:induction false} GenerationsRise(own: set<KeyRecord>, history: seq<Vault>, i: nat, j: nat)
    requires SoundHistory(own, history) && i < j < |history|
    ensures history[i].generation < history[j].generation
    decreases j - i
  {
    hide VaultOk, Clean, Preserves, SoundHistory;
    Version(own, history, j);
    if i < j - 1 { GenerationsRise(own, history, i, j - 1); }
  }

  /**
   In every run: of the vaults ever stored, a device refuses exactly those older than the one it applied
   last. So a rollback is always refused, and the current vault never is.
   */
  lemma RollbackRefused(sort: Sorter, events: seq<Event>, id: string, version: nat)
    requires Sorts(sort)
    requires id in Run(sort, events).devices && 0 < version <= |Run(sort, events).history|
    ensures var w := Run(sort, events);
      OpenRemote(w.devices[id].pin, w.history[version - 1]).Ok? <==> version >= w.devices[id].pin.version
  {
    hide Run, SoundHistory, SoundFlight, DeviceOk;
    AnySound(sort, events);
    var w := Run(sort, events);
    var pin := w.devices[id].pin;
    assert SoundDevice({}, w.history, w.devices[id]);
    if 0 < pin.version && version < pin.version {
      GenerationsRise({}, w.history, version - 1, pin.version - 1);
    } else if 0 < pin.version < version {
      GenerationsRise({}, w.history, pin.version - 1, version - 1);
    }
  }

  /** In every run: stored vaults are never taken back. */
  lemma {:induction false} HistoryGrows(sort: Sorter, events: seq<Event>, n: nat)
    requires Sorts(sort) && n <= |events|
    ensures Run(sort, events[..n]).history <= Run(sort, events).history
    decreases |events|
  {
    hide Step, Sound, Possible;
    if n == |events| {
      assert events[..n] == events;
    } else {
      var front := events[..|events| - 1];
      assert front[..n] == events[..n];
      HistoryGrows(sort, front, n);
      AnySound(sort, front);
      NothingAsked(events);
      StepSound({}, sort, Run(sort, front), events[|events| - 1]);
    }
  }

  // ----- a finished sync has forgotten every tombstoned key -----

  /** No entry of this project's keyring is about one of these keys. */
  ghost predicate Free(gone: set<KeyRecord>, p: string, entries: Entries) {
    forall n | n in entries :: FreeAt(gone, p, n, entries[n])
  }

  predicate FreeAt(gone: set<KeyRecord>, p: string, n: Name, v: Value) {
    PublicEntry(n, v).None? || KeyRecord(p, PublicEntry(n, v).value) !in gone
  }

  ghost predicate AllFree(gone: set<KeyRecord>, ps: Projects) {
    forall p | p in ps :: Free(gone, p, ps[p])
  }

  lemma FilingStaysFree(gone: set<KeyRecord>, p: string, entries: Entries)
    requires Free(gone, p, entries)
    ensures Free(gone, p, FileKeys(entries))
  {
    forall n | n in ToFile(entries) ensures FreeAt(gone, p, n, Private(n.pub)) {
      var a :| a in entries && NamesKey(a) && entries[a].Private? && n == PubEntry(entries[a].pub);
      assert FreeAt(gone, p, a, entries[a]);
    }
  }

  lemma KeyStateFrees(ks: Projects, c: Catalog)
    ensures AllFree(c.deleted.Keys, ApplyKeyState(ks, c))
  {
    hide FileKeys, GuardedHere;
    forall p | p in ks ensures Free(c.deleted.Keys, p, SweptKeyring(c, p, ks[p])) {
      var left := Survivors(c, p, ks[p]);
      assert Free(c.deleted.Keys, p, left);
      FilingStaysFree(c.deleted.Keys, p, left);
    }
  }

  lemma MergeStaysFree(gone: set<KeyRecord>, m: Mode, policy: map<string, CacheMode>, at: Progress, p: string, remote: Entries, base: Entries)
    requires AllFree(gone, at.ks) && Free(gone, p, remote)
    requires MergeProject(m, policy, at, p, remote, base).Ok?
    ensures AllFree(gone, MergeProject(m, policy, at, p, remote, base).value.ks)
  {
    hide DecideGuard, Decide, Conflicts, Changes, EntryNameOk, Kept, FileKeys, UncachedConflicts;
    if p in at.ks {
      var merged := Merged(m, p, at.ks[p], remote, base);
      assert Free(gone, p, at.ks[p]);
      assert Free(gone, p, merged);
      FilingStaysFree(gone, p, merged);
    } else {
      FilingStaysFree(gone, p, Fresh(remote));
    }
  }

  lemma {:induction false} MergeAllStaysFree(gone: set<KeyRecord>, m: Mode, policy: map<string, CacheMode>, at: Progress,
                                             remote: Projects, base: Projects, order: seq<string>)
    requires forall p | p in order :: p in remote
    requires AllFree(gone, at.ks) && AllFree(gone, remote)
    ensures AllFree(gone, MergeAll(m, policy, at, remote, base, order).0.ks)
  {
    hide MergeProject, Free;
    if order != [] {
      var front := order[..|order| - 1];
      MergeAllStaysFree(gone, m, policy, at, remote, base, front);
      var (before, failed) := MergeAll(m, policy, at, remote, base, front);
      var p := order[|order| - 1];
      if failed.None? && MergeProject(m, policy, before, p, remote[p], EntriesOf(base, p)).Ok? {
        MergeStaysFree(gone, m, policy, before, p, remote[p], EntriesOf(base, p));
      }
    }
  }

  lemma CollectKnows(base: Option<Vault>, pending: Option<Vault>, remote: Vault, local: Projects)
    requires Collect(base, pending, Some(remote), local, None).Ok?
    ensures var v := Collect(base, pending, Some(remote), local, None).value;
      CatalogOf(remote).deleted.Keys <= CatalogOf(v).deleted.Keys && AllFree(CatalogOf(v).deleted.Keys, v.projects)
  {
    hide Assemble;
    AssembleKeeps(base, pending, remote, local, None);
    CollectClean(base, pending, Some(remote), local, None);
  }

  lemma FewerGone(less: set<KeyRecord>, gone: set<KeyRecord>, ps: Projects)
    requires less <= gone && AllFree(gone, ps)
    ensures AllFree(less, ps)
  {
    forall p, n | p in ps && n in ps[p] ensures FreeAt(less, p, n, ps[p][n]) {
      assert Free(gone, p, ps[p]) && FreeAt(gone, p, n, ps[p][n]);
    }
  }

  lemma FreeIsGone(gone: set<KeyRecord>, ps: Projects)
    requires AllFree(gone, ps)
    ensures forall key | key in gone :: Gone(EntriesOf(ps, key.project), key.pub)
  {
    forall key | key in gone ensures Gone(EntriesOf(ps, key.project), key.pub) {
      GoneIs(EntriesOf(ps, key.project), key.pub);
      if key.project in ps {
        assert Free(gone, key.project, ps[key.project]);
        forall n | n in ps[key.project] ensures PublicEntry(n, ps[key.project][n]) != Some(key.pub) {
          assert FreeAt(gone, key.project, n, ps[key.project][n]);
        }
      }
    }
  }

  /** A vault holds a key exactly when something in it is about the key. */
  lemma HoldsByName(v: Vault, key: KeyRecord)
    ensures Holds(v, key) <==> !Gone(EntriesOf(v.projects, key.project), key.pub)
  {
    GoneIs(EntriesOf(v.projects, key.project), key.pub);
  }

  /** Once an attempt has settled or is ready to upload, no keyring here holds anything about a key the fetched vault tombstones. */
  lemma SyncForgets(sort: Sorter, m: Mode, d: Device, copy: Copy)
    requires Sorts(sort)
    requires Attempt(sort, m, d, Some(copy)).1.Settled? || Attempt(sort, m, d, Some(copy)).1.Ready?
    ensures AllFree(CatalogOf(copy.vault).deleted.Keys, Attempt(sort, m, d, Some(copy)).0.ks)
    ensures forall key | key in CatalogOf(copy.vault).deleted :: Gone(EntriesOf(Attempt(sort, m, d, Some(copy)).0.ks, key.project), key.pub)
  {
    hide Pull, Collect, ApplyKeyState, MergeAll, BaseCopy, PendingCopy, AllFree;
    PullStops(sort, m, d, copy);
    var pulled := Pull(sort, m, d, copy).0;
    var inventory := Collect(pulled.base, pulled.pending, Some(copy.vault), pulled.ks, None).value;
    var gone := CatalogOf(inventory).deleted.Keys;
    CollectKnows(pulled.base, pulled.pending, copy.vault, pulled.ks);
    KeyStateFrees(pulled.ks, CatalogOf(inventory));
    var swept := pulled.(ks := ApplyKeyState(pulled.ks, CatalogOf(inventory)));
    assert Orders(sort(inventory.projects.Keys), inventory.projects.Keys);
    MergeAllStaysFree(gone, m, d.policy, Progress(swept.ks, {}), inventory.projects, ProjectsIn(swept.base), sort(inventory.projects.Keys));
    PullKeeps(sort, m, d, copy);
    FewerGone(CatalogOf(copy.vault).deleted.Keys, gone, MergeIn(sort, m, swept, inventory.projects).0.ks);
    FreeIsGone(CatalogOf(copy.vault).deleted.Keys, Attempt(sort, m, d, Some(copy)).0.ks);
  }

  /** A staged change is not lost: what an attempt uploads, or finds the server to hold, extends the pending catalog. */
  lemma StagedChangesArrive(sort: Sorter, m: Mode, d: Device, copy: Copy)
    requires Sorts(sort) && d.pending.Some?
    ensures var outcome := Attempt(sort, m, d, Some(copy)).1;
      && (outcome.Ready? ==> CatalogExtends(CatalogOf(d.pending.value), CatalogOf(outcome.put.vault)))
      && (outcome.Settled? ==> CatalogExtends(CatalogOf(d.pending.value), CatalogOf(copy.vault)))
  {
    hide Pull, Collect, ApplyKeyState, MergeIn, BaseCopy, PendingCopy, CatalogExtends;
    PullStops(sort, m, d, copy);
    PullKeeps(sort, m, d, copy);
    var pulled := Pull(sort, m, d, copy).0;
    if Collect(d.base, d.pending, Some(copy.vault), pulled.ks, None).Ok? {
      CollectExtendsPending(d.base, d.pending.value, Some(copy.vault), pulled.ks, None);
    }
  }

  /**
   A tombstone for a key of which the vault holds anything is in the pending revision, and the key is out of this
   device's keyrings at once. A retirement likewise, and leaves the key's record and guarded form.
   */
  lemma TombstoneStaged(d: Device, v: Vault, key: KeyRecord, at: int)
    requires v.generation >= d.pin.generation && !Gone(EntriesOf(v.projects, key.project), key.pub)
    ensures var next := ChangeKey(d, v, key, true, at);
      && next.pending.Some? && key in CatalogOf(next.pending.value).deleted && CatalogOf(next.pending.value).deleted[key] == at
      && CatalogOf(v).deleted.Keys <= CatalogOf(next.pending.value).deleted.Keys
      && AllFree(CatalogOf(v).deleted.Keys + {key}, next.ks)
      && Gone(EntriesOf(next.ks, key.project), key.pub)
  {
    hide SweepVault, ApplyKeyState, Holds, AllFree, Gone;
    HoldsByName(v, key);
    var c := CatalogOf(v);
    KeyStateFrees(d.ks, c.(deleted := c.deleted[key := at]));
    assert c.deleted[key := at].Keys == c.deleted.Keys + {key};
    FreeIsGone(c.deleted.Keys + {key}, ChangeKey(d, v, key, true, at).ks);
  }

  lemma RetirementStaged(d: Device, v: Vault, key: KeyRecord, at: int)
    requires v.generation >= d.pin.generation && !Gone(EntriesOf(v.projects, key.project), key.pub)
    requires AliasRecordsProper(CatalogOf(v)) && key !in CatalogOf(v).deleted
    ensures var next := ChangeKey(d, v, key, false, at);
      && next.pending.Some? && key in CatalogOf(next.pending.value).retired && CatalogOf(next.pending.value).retired[key] == at
      && CatalogOf(next.pending.value).deleted == CatalogOf(v).deleted
      && var was, now := EntriesOf(d.ks, key.project), EntriesOf(next.ks, key.project);
        && (forall n | n in now && n.KeyAlias? :: now[n] != Private(key.pub))
        && (GuardEntry(key.pub) in was ==> GuardEntry(key.pub) in now)
  {
    hide SweepVault, Holds, Gone, Doomed;
    HoldsByName(v, key);
    var c, p := CatalogOf(v), key.project;
    var c' := c.(retired := c.retired[key := at]);
    if p in d.ks {
      RetiredKeepsRecords(c', p, d.ks[p], key.pub);
      if Survivors(c', p, d.ks[p]) != d.ks[p] { FiledStillRetired(Survivors(c', p, d.ks[p]), key.pub); }
    }
  }

  lemma FiledStillRetired(left: Entries, pub: Pub)
    ensures forall n | n in FileKeys(left) && n.KeyAlias? :: n in left && FileKeys(left)[n] == left[n]
    ensures GuardEntry(pub) in left ==> GuardEntry(pub) in FileKeys(left)
  {
  }

  /** A key that is not in the vault, or a vault older than the one applied, changes nothing. */
  lemma NothingToChange(d: Device, v: Vault, key: KeyRecord, deleted: bool, at: int)
    requires v.generation < d.pin.generation || Gone(EntriesOf(v.projects, key.project), key.pub)
    ensures ChangeKey(d, v, key, deleted, at) == d
  {
    hide Gone, Holds;
    HoldsByName(v, key);
  }

  lemma PullKeeps(sort: Sorter, m: Mode, d: Device, copy: Copy)
    requires Sorts(sort)
    ensures var next := Pull(sort, m, d, copy).0;
      next.base == d.base && next.pending == d.pending && next.policy == d.policy && next.pin == d.pin
  {
    hide Collect, MergeIn, ApplyKeyState, SweepVault;
  }
}
