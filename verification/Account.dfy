/**
 One device of an account: its keyrings, the last acknowledged vault, the pending revision, its cache
 policy, and the sync that reads the server's vault, merges it, and prepares the upload that follows.
 */
module Account {
  import opened Wrappers
  import opened KeyVault
  import opened CatalogJoin
  import opened Inventory
  import opened KeyMerge

  /** The last vault version this machine applied. */
  datatype Pin = Pin(version: nat, generation: nat)

  datatype Device = Device(
    ks: Projects,
    base: Option<Vault>,
    pending: Option<Vault>,
    policy: map<string, CacheMode>,
    pin: Pin,
    conflicts: set<(string, Name)>)

  /** A server vault as fetched. */
  datatype Copy = Copy(version: nat, vault: Vault)

  /** An upload, accepted only over the version it names; 0 when there is none yet. */
  datatype Upload = Upload(ifMatch: nat, vault: Vault)

  datatype Outcome = Failed(error: string) | Clash | Settled | Ready(put: Upload)

  /** Sorts project names. */
  type Sorter = set<string> -> seq<string>

  ghost predicate Sorts(sort: Sorter) {
    forall names :: Orders(sort(names), names)
  }

  ghost predicate Orders(order: seq<string>, names: set<string>) {
    && (forall p :: p in order <==> p in names)
    && (forall i, j | 0 <= i < j < |order| :: order[i] != order[j])
  }

  const ROLLBACK := "older than one this machine already applied; refusing a rollback"

  function OpenRemote(pin: Pin, v: Vault): Result<Vault> {
    if v.generation < pin.generation then Err(ROLLBACK) else Ok(v)
  }

  function ProjectsIn(v: Option<Vault>): Projects {
    if v.Some? then v.value.projects else map[]
  }

  /** Takes what a catalog condemns out of every keyring; a keyring that loses nothing is not rewritten. */
  function ApplyKeyState(ks: Projects, c: Catalog): Projects {
    map p | p in ks :: SweptKeyring(c, p, ks[p])
  }

  function SweptKeyring(c: Catalog, p: string, entries: Entries): Entries {
    if Survivors(c, p, entries) == entries then entries else FileKeys(Survivors(c, p, entries))
  }

  /** A vault as kept on this device: evicted projects are left out. */
  function BaseCopy(policy: map<string, CacheMode>, v: Vault): Vault {
    v.(projects := map p | p in v.projects && !IsEvicted(policy, p) :: v.projects[p])
  }

  /** What an evicted project still owes the server: names imported here, or pending before, as the inventory has them. */
  function UncachedKeys(v: Vault, previous: Option<Vault>, ks: Projects, p: string): Entries {
    map n | n in EntriesOf(v.projects, p) && (n in EntriesOf(ks, p) || n in EntriesOf(ProjectsIn(previous), p)) ::
      EntriesOf(v.projects, p)[n]
  }

  /** The pending revision as kept on this device: an evicted project keeps only what it still owes. */
  function PendingCopy(policy: map<string, CacheMode>, v: Vault, previous: Option<Vault>, ks: Projects): Vault {
    v.(projects := map p | p in v.projects && (!IsEvicted(policy, p) || UncachedKeys(v, previous, ks, p) != map[]) ::
      if IsEvicted(policy, p) then UncachedKeys(v, previous, ks, p) else v.projects[p])
  }

  predicate SameInventory(a: Vault, b: Option<Vault>) {
    b.Some? && a.projects == b.value.projects && a.catalog == b.value.catalog
  }

  /** Captures local changes before any network I/O. */
  function Stage(d: Device): Device {
    match Collect(d.base, d.pending, None, d.ks, None)
    case Err(_) => d
    case Ok(v) =>
      if SameInventory(v, d.base) then d.(pending := None)
      else d.(pending := Some(PendingCopy(d.policy, v, d.pending, d.ks)))
  }

  /** Merges projects into the keyrings: the device, the conflicts, and whether it failed. */
  function MergeIn(sort: Sorter, m: Mode, d: Device, projects: Projects): (Progress, Option<string>)
    requires Sorts(sort)
  {
    MergeAll(m, d.policy, Progress(d.ks, {}), projects, ProjectsIn(d.base), sort(projects.Keys))
  }

  /** Keys of a durable pending revision come back, whatever happened to the keyrings. */
  function Recover(sort: Sorter, m: Mode, d: Device): (Device, Option<Outcome>)
    requires Sorts(sort)
  {
    if d.pending.None? then (d, None) else
    var (at, stop) := MergeIn(sort, m, d, d.pending.value.projects);
    (d.(ks := at.ks), if stop.Some? then Some(Failed(stop.value)) else if at.conflicts != {} then Some(Clash) else None)
  }

  /** The first half of a sync attempt: the server's vault comes into the keyrings. */
  function Pull(sort: Sorter, m: Mode, d: Device, copy: Copy): (Device, Option<Outcome>)
    requires Sorts(sort)
  {
    match OpenRemote(d.pin, copy.vault)
    case Err(e) => (d, Some(Failed(e)))
    case Ok(remote) =>
      match Collect(d.base, d.pending, Some(remote), d.ks, None)
      case Err(e) => (d, Some(Failed(e)))
      case Ok(combined) =>
        var swept := d.(ks := ApplyKeyState(d.ks, CatalogOf(combined)));
        if copy.version == d.pin.version && d.conflicts == {} then (swept, None) else
        var (at, stop) := MergeIn(sort, m, swept, SweepVault(CatalogOf(combined), remote.projects));
        if stop.Some? then (swept.(ks := at.ks), Some(Failed(stop.value)))
        else (swept.(ks := at.ks, conflicts := at.conflicts), if at.conflicts != {} then Some(Clash) else None)
  }

  /** The second half: the inventory comes into the keyrings, and is uploaded unless the server holds it already. */
  function Compose(sort: Sorter, m: Mode, d: Device, remote: Option<Copy>): (Device, Outcome)
    requires Sorts(sort)
  {
    var current := if remote.Some? then Some(remote.value.vault) else None;
    match Collect(d.base, d.pending, current, d.ks, None)
    case Err(e) => (d, Failed(e))
    case Ok(inventory) =>
      var swept := d.(ks := ApplyKeyState(d.ks, CatalogOf(inventory)));
      var (at, stop) := MergeIn(sort, m, swept, inventory.projects);
      var done := swept.(ks := at.ks);
      if stop.Some? then (done, Failed(stop.value))
      else if at.conflicts != {} then (done.(conflicts := at.conflicts), Clash)
      else if SameInventory(inventory, current) then (Acknowledge(done, remote.value), Settled)
      else
        var put := inventory.(generation := NextGeneration(d.pin, current));
        ( done.(pending := Some(PendingCopy(d.policy, put, d.pending, done.ks))),
          Ready(Upload(if remote.Some? then remote.value.version else 0, put)) )
  }

  function NextGeneration(pin: Pin, current: Option<Vault>): nat {
    if current.Some? && current.value.generation >= pin.generation + 1 then current.value.generation + 1 else pin.generation + 1
  }

  /** The server holds this version, and this device has applied it. */
  function Acknowledge(d: Device, copy: Copy): Device {
    d.(base := Some(BaseCopy(d.policy, copy.vault)), pending := None, pin := Pin(copy.version, copy.vault.generation), conflicts := {})
  }

  /** One attempt of a sync, up to its upload. */
  function Attempt(sort: Sorter, m: Mode, d: Device, remote: Option<Copy>): (Device, Outcome)
    requires Sorts(sort)
  {
    if remote.None? then Compose(sort, m, d, None) else
    var (pulled, stop) := Pull(sort, m, d, remote.value);
    if stop.Some? then (pulled, stop.value) else Compose(sort, m, pulled, remote)
  }

  /** What came of an upload: stored as a version, refused because the vault changed meanwhile, or an error. */
  datatype Reply = Stored(version: nat) | Changed | Broken(error: string)

  /** What one attempt saw of the network. */
  datatype Exchange = Exchange(remote: Option<Copy>, reply: Reply)

  datatype Verdict = Done | GaveUp(outcome: Outcome)

  const KEPT_CHANGING := "the vault kept changing on the server; try again"

  /** A sync: attempts until one is settled, stored or fails, as long as exchanges last. */
  function Attempts(sort: Sorter, m: Mode, d: Device, net: seq<Exchange>): (Device, Verdict)
    requires Sorts(sort)
    decreases |net|
  {
    if net == [] then (d, GaveUp(Failed(KEPT_CHANGING))) else
    var (next, outcome) := Attempt(sort, m, d, net[0].remote);
    match outcome
    case Settled => (next, Done)
    case Ready(put) =>
      (match net[0].reply
       case Stored(version) => (Acknowledge(next, Copy(version, put.vault)), Done)
       case Changed => Attempts(sort, m, next, net[1..])
       case Broken(e) => (next, GaveUp(Failed(e))))
    case _ => (next, GaveUp(outcome))
  }

  lemma AttemptsStep(sort: Sorter, m: Mode, d: Device, net: seq<Exchange>)
    requires Sorts(sort) && net != []
    ensures var (next, outcome) := Attempt(sort, m, d, net[0].remote);
      Attempts(sort, m, d, net) ==
        match outcome
        case Settled => (next, Done)
        case Ready(put) =>
          (match net[0].reply
           case Stored(version) => (Acknowledge(next, Copy(version, put.vault)), Done)
           case Changed => Attempts(sort, m, next, net[1..])
           case Broken(e) => (next, GaveUp(Failed(e))))
        case _ => (next, GaveUp(outcome))
  {
    hide Attempt, Acknowledge;
  }

  lemma NoAttempts(sort: Sorter, m: Mode, d: Device)
    requires Sorts(sort)
    ensures Attempts(sort, m, d, []) == (d, GaveUp(Failed(KEPT_CHANGING)))
  {
  }

  function Sync(sort: Sorter, m: Mode, d: Device, net: seq<Exchange>): (Device, Verdict)
    requires Sorts(sort)
  {
    var (ready, stop) := Recover(sort, m, d);
    if stop.Some? then (ready, GaveUp(stop.value)) else Attempts(sort, m, ready, net)
  }

  // ----- other writers of the pending revision -----

  /** An explicit guard change, recorded after the key was opened and resealed. */
  function ChangeGuard(d: Device, key: KeyRecord, guarded: bool): Device {
    match Collect(d.base, d.pending, None, d.ks, Some(GuardIntent(key, guarded)))
    case Err(_) => d
    case Ok(v) =>
      if !guarded && key.project !in d.ks then d else
      var ps := if guarded then v.projects else v.projects[key.project := d.ks[key.project]];
      var staged := v.(projects := SweepVault(CatalogOf(v), ps));
      d.(pending := Some(PendingCopy(d.policy, staged, d.pending, d.ks)))
  }

  /** A tombstone or retirement for a key the server's vault holds. */
  function ChangeKey(d: Device, v: Vault, key: KeyRecord, deleted: bool, at: int): Device {
    if OpenRemote(d.pin, v).Err? || !Holds(v, key) then d else
    var c := CatalogOf(v);
    var c' := if deleted then c.(deleted := c.deleted[key := at]) else c.(retired := c.retired[key := at]);
    var staged := Vault(SweepVault(c', v.projects), Some(c'), v.generation);
    d.(pending := Some(PendingCopy(d.policy, staged, d.pending, d.ks)), ks := ApplyKeyState(d.ks, c'))
  }

  predicate Holds(v: Vault, key: KeyRecord) {
    exists n | n in EntriesOf(v.projects, key.project) :: PublicEntry(n, EntriesOf(v.projects, key.project)[n]) == Some(key.pub)
  }

  /** Changes how one project is cached here, after a sync, against the vault just read. */
  function CacheProject(sort: Sorter, d: Device, v: Vault, project: string, mode: CacheMode): Device
    requires Sorts(sort)
  {
    if OpenRemote(d.pin, v).Err? || project !in v.projects then d else
    var chosen := d.(policy := d.policy[project := mode]);
    match mode
    case Evicted => chosen.(ks := chosen.ks - {project}, base := Some(BaseCopy(chosen.policy, v)))
    case Offline =>
      var (at, stop) := MergeAll(Unattended, chosen.policy, Progress(chosen.ks, {}), map[project := v.projects[project]], map[], sort({project}));
      if stop.Some? then chosen.(ks := at.ks) else chosen.(ks := at.ks, base := Some(BaseCopy(chosen.policy, v)))
  }

  /** What a key rotation uploads over the vault it read; its pending revision stays behind. */
  function Rotate(d: Device, copy: Copy): (Device, Outcome) {
    match OpenRemote(d.pin, copy.vault)
    case Err(e) => (d, Failed(e))
    case Ok(remote) =>
      match Collect(d.base, d.pending, Some(remote), d.ks, None)
      case Err(e) => (d, Failed(e))
      case Ok(inventory) =>
        var staged := d.(pending := Some(PendingCopy(d.policy, inventory, d.pending, d.ks)));
        (staged, Ready(Upload(copy.version, inventory.(generation := remote.generation + 1))))
  }

  /** The first upload of an account. */
  function FirstUpload(d: Device): Outcome {
    match Collect(d.base, d.pending, None, d.ks, None)
    case Err(e) => Failed(e)
    case Ok(inventory) => Ready(Upload(0, inventory.(generation := 1)))
  }

  // ----- what the two files of a device hold -----

  /** The base holds every project but the evicted ones, as the vault has them. */
  lemma BaseHolds(policy: map<string, CacheMode>, v: Vault, p: string)
    ensures var ps := BaseCopy(policy, v).projects;
      && (p in ps <==> p in v.projects && !(p in policy && policy[p] == Evicted))
      && (p in ps ==> ps[p] == v.projects[p])
    ensures BaseCopy(policy, v).catalog == v.catalog && BaseCopy(policy, v).generation == v.generation
  {
  }

  /**
   The pending revision holds of an evicted project exactly the vault's entries whose names are in the keyring or
   were pending before, and nothing of the project when there are none; every other project it holds as it is.
   */
  lemma PendingHolds(policy: map<string, CacheMode>, v: Vault, previous: Option<Vault>, ks: Projects, p: string)
    ensures var ps := PendingCopy(policy, v, previous, ks).projects;
      && (p !in v.projects ==> p !in ps)
      && (p in v.projects && !(p in policy && policy[p] == Evicted) ==> p in ps && ps[p] == v.projects[p])
      && (p in v.projects && p in policy && policy[p] == Evicted ==>
            && (p in ps <==> exists n :: n in v.projects[p] && Owed(previous, ks, p, n))
            && (p in ps ==> forall n :: n in ps[p] <==> n in v.projects[p] && Owed(previous, ks, p, n))
            && (p in ps ==> forall n | n in ps[p] :: ps[p][n] == v.projects[p][n]))
    ensures PendingCopy(policy, v, previous, ks).catalog == v.catalog && PendingCopy(policy, v, previous, ks).generation == v.generation
  {
    if p in v.projects {
      var owed := UncachedKeys(v, previous, ks, p);
      assert forall n :: n in owed <==> n in v.projects[p] && Owed(previous, ks, p, n);
      if n :| n in v.projects[p] && Owed(previous, ks, p, n) { assert n in owed; }
      if owed != map[] {
        var n :| n in owed;
        assert n in v.projects[p] && Owed(previous, ks, p, n);
      }
    }
  }

  /** The name is in the project's keyring, or in what was pending of the project. */
  predicate Owed(previous: Option<Vault>, ks: Projects, p: string, n: Name) {
    || (p in ks && n in ks[p])
    || (previous.Some? && p in previous.value.projects && n in previous.value.projects[p])
  }

  // ----- what every step keeps -----

  /** Everything on the device is well formed: filed keys are the right ones, alias events are about aliases. */
  ghost predicate DeviceOk(own: set<KeyRecord>, d: Device) {
    ProjectsOk(own, d.ks) && OptionalOk(own, d.base) && OptionalOk(own, d.pending)
  }

  lemma SweptOk(own: set<KeyRecord>, c: Catalog, ps: Projects)
    requires ProjectsOk(own, ps)
    ensures ProjectsOk(own, SweepVault(c, ps)) && ProjectsOk(own, ApplyKeyState(ps, c))
  {
    hide Doomed;
  }

  lemma CopiesOk(own: set<KeyRecord>, policy: map<string, CacheMode>, v: Vault, previous: Option<Vault>, ks: Projects)
    requires VaultOk(own, v)
    ensures VaultOk(own, BaseCopy(policy, v)) && VaultOk(own, PendingCopy(policy, v, previous, ks))
  {
    hide AliasRecordsProper;
  }

  lemma MergeProjectOk(own: set<KeyRecord>, m: Mode, policy: map<string, CacheMode>, at: Progress, p: string, remote: Entries, base: Entries)
    requires ProjectsOk(own, at.ks) && FiledFor(own, p, remote)
    requires MergeProject(m, policy, at, p, remote, base).Ok?
    ensures ProjectsOk(own, MergeProject(m, policy, at, p, remote, base).value.ks)
  {
    hide DecideGuard, Decide, Conflicts, Changes, EntryNameOk, Kept;
  }

  lemma {:induction false} MergeAllOk(own: set<KeyRecord>, m: Mode, policy: map<string, CacheMode>, at: Progress,
                                     remote: Projects, base: Projects, order: seq<string>)
    requires forall p | p in order :: p in remote
    requires ProjectsOk(own, at.ks) && ProjectsOk(own, remote)
    ensures ProjectsOk(own, MergeAll(m, policy, at, remote, base, order).0.ks)
  {
    hide MergeProject;
    if order != [] {
      var front := order[..|order| - 1];
      MergeAllOk(own, m, policy, at, remote, base, front);
      var (before, failed) := MergeAll(m, policy, at, remote, base, front);
      var p := order[|order| - 1];
      if failed.None? && MergeProject(m, policy, before, p, remote[p], EntriesOf(base, p)).Ok? {
        MergeProjectOk(own, m, policy, before, p, remote[p], EntriesOf(base, p));
      }
    }
  }

  lemma MergeInOk(own: set<KeyRecord>, sort: Sorter, m: Mode, d: Device, projects: Projects)
    requires Sorts(sort) && ProjectsOk(own, d.ks) && ProjectsOk(own, projects)
    ensures ProjectsOk(own, MergeIn(sort, m, d, projects).0.ks)
  {
    hide MergeAll, ProjectsOk;
    assert Orders(sort(projects.Keys), projects.Keys);
    MergeAllOk(own, m, d.policy, Progress(d.ks, {}), projects, ProjectsIn(d.base), sort(projects.Keys));
  }
}
