/**
 The inventory a device would upload: the acknowledged base, the pending revision and the server's
 vault merged, the local keyrings laid over them, deliberate alias edits recorded, and the sweep run.
 */
module Inventory {
  import opened Wrappers
  import opened KeyVault
  import opened CatalogJoin

  function CatalogOf(v: Vault): Catalog {
    if v.catalog.Some? then v.catalog.value else EMPTY_CATALOG
  }

  /** Per project, b's entries over a's. */
  function Overlay(a: Projects, b: Projects): Projects {
    map p | p in a.Keys + b.Keys :: EntriesOf(a, p) + EntriesOf(b, p)
  }

  /** One source into the inventory. */
  function MergeSource(v: Vault, source: Vault): Result<Vault> {
    match MergeCatalog(CatalogOf(v), CatalogOf(source))
    case Err(m) => Err(m)
    case Ok(c) => Ok(Vault(Overlay(v.projects, source.projects), Some(c), v.generation))
  }

  const EMPTY_VAULT := Vault(map[], Some(EMPTY_CATALOG), 0)

  function Gather(sources: seq<Vault>): Result<Vault> {
    if sources == [] then Ok(EMPTY_VAULT) else
    match Gather(sources[..|sources| - 1])
    case Err(m) => Err(m)
    case Ok(v) => MergeSource(v, sources[|sources| - 1])
  }

  function Present(v: Option<Vault>): seq<Vault> {
    if v.Some? then [v.value] else []
  }

  /** What the keyrings say changed since `previous`: alias names now missing, and alias names with another value. */
  function Edits(previous: Vault, local: Projects): map<AliasRecord, Event> {
    map r | r in Removed(previous.projects, local) + Repointed(previous.projects, local) ::
      Event(EventAt(CatalogOf(previous).aliases, r).version + 1, r in Removed(previous.projects, local))
  }

  function Removed(previous: Projects, local: Projects): set<AliasRecord> {
    set p, n | p in local && n in EntriesOf(previous, p) && n !in local[p] && n.IsAlias() ::
      AliasRecord(p, n, previous[p][n])
  }

  function Repointed(previous: Projects, local: Projects): set<AliasRecord> {
    set p, n | p in local && n in local[p] && Get(EntriesOf(previous, p), n) != local[p][n] && n.IsAlias() ::
      AliasRecord(p, n, local[p][n])
  }

  /** A deliberate guard change, made only after the key was opened and resealed. */
  datatype GuardIntent = GuardIntent(key: KeyRecord, guarded: bool)

  function ApplyIntent(guards: map<KeyRecord, Event>, intent: Option<GuardIntent>): map<KeyRecord, Event> {
    match intent
    case None => guards
    case Some(i) => guards[i.key := Event(EventAt(guards, i.key).version + 1, i.guarded)]
  }

  /** Sweeps every project. */
  function SweepVault(c: Catalog, ps: Projects): Projects {
    map p | p in ps :: Survivors(c, p, ps[p])
  }

  /** The inventory before the sweep. */
  function Assemble(base: Option<Vault>, pending: Option<Vault>, remote: Option<Vault>, local: Projects, intent: Option<GuardIntent>)
    : Result<Vault>
  {
    match Gather(Present(base) + Present(pending) + Present(remote))
    case Err(m) => Err(m)
    case Ok(g) =>
      var c := CatalogOf(g);
      var previous := if pending.Some? then pending else base;
      var aliases := if previous.Some? then JoinEvents(c.aliases, Edits(previous.value, local)) else c.aliases;
      Ok(Vault(Overlay(g.projects, local), Some(c.(aliases := aliases, guards := ApplyIntent(c.guards, intent))), 0))
  }

  function Collect(base: Option<Vault>, pending: Option<Vault>, remote: Option<Vault>, local: Projects, intent: Option<GuardIntent>)
    : Result<Vault>
  {
    match Assemble(base, pending, remote, local, intent)
    case Err(m) => Err(m)
    case Ok(v) => Ok(v.(projects := SweepVault(CatalogOf(v), v.projects)))
  }

  // ----- what every source and keyring keeps -----

  /** A private key filed under a public key is that key's private half. */
  ghost predicate FiledRight(entries: Entries) {
    forall n | n in entries && n.PubEntry? :: entries[n] == Private(n.pub)
  }

  /** The same, of these keys only. What must hold of keyrings is mostly said of some keys, or of none. */
  ghost predicate FiledFor(own: set<KeyRecord>, p: string, entries: Entries) {
    forall n | n in entries && n.PubEntry? && KeyRecord(p, n.pub) in own :: entries[n] == Private(n.pub)
  }

  ghost predicate ProjectsOk(own: set<KeyRecord>, ps: Projects) {
    forall p | p in ps :: FiledFor(own, p, ps[p])
  }

  ghost predicate VaultOk(own: set<KeyRecord>, v: Vault) {
    ProjectsOk(own, v.projects) && AliasRecordsProper(CatalogOf(v))
  }

  ghost predicate OptionalOk(own: set<KeyRecord>, v: Option<Vault>) {
    v.Some? ==> VaultOk(own, v.value)
  }

  lemma MergeSourceOk(own: set<KeyRecord>, v: Vault, source: Vault)
    requires VaultOk(own, v) && VaultOk(own, source) && MergeSource(v, source).Ok?
    ensures VaultOk(own, MergeSource(v, source).value)
  {
  }

  lemma {:induction false} GatherOk(own: set<KeyRecord>, sources: seq<Vault>)
    requires forall s | s in sources :: VaultOk(own, s)
    requires Gather(sources).Ok?
    ensures VaultOk(own, Gather(sources).value)
  {
    hide MergeSource, VaultOk;
    if sources == [] {
      assert VaultOk(own, EMPTY_VAULT) by { EmptyVaultOk(own); }
    } else {
      GatherOk(own, sources[..|sources| - 1]);
      MergeSourceOk(own, Gather(sources[..|sources| - 1]).value, sources[|sources| - 1]);
    }
  }

  lemma EmptyVaultOk(own: set<KeyRecord>)
    ensures VaultOk(own, EMPTY_VAULT)
  {
  }

  lemma AssembleOk(own: set<KeyRecord>, base: Option<Vault>, pending: Option<Vault>, remote: Option<Vault>, local: Projects, intent: Option<GuardIntent>)
    requires OptionalOk(own, base) && OptionalOk(own, pending) && OptionalOk(own, remote) && ProjectsOk(own, local)
    requires Assemble(base, pending, remote, local, intent).Ok?
    ensures VaultOk(own, Assemble(base, pending, remote, local, intent).value)
  {
    hide Gather, Edits, Overlay, ApplyIntent, JoinEvents;
    var sources := Present(base) + Present(pending) + Present(remote);
    forall v | v in sources ensures VaultOk(own, v) {
      assert v in Present(base) || v in Present(pending) || v in Present(remote);
    }
    GatherOk(own, sources);
    var g := Gather(sources).value;
    OverlayOk(own, g.projects, local);
    if pending.Some? {
      EditsProper(CatalogOf(g), pending.value, local);
    } else if base.Some? {
      EditsProper(CatalogOf(g), base.value, local);
    }
  }

  lemma OverlayOk(own: set<KeyRecord>, a: Projects, b: Projects)
    requires ProjectsOk(own, a) && ProjectsOk(own, b)
    ensures ProjectsOk(own, Overlay(a, b))
  {
  }

  lemma EditsProper(c: Catalog, previous: Vault, local: Projects)
    requires AliasRecordsProper(c)
    ensures AliasRecordsProper(c.(aliases := JoinEvents(c.aliases, Edits(previous, local))))
  {
  }

  lemma CollectOk(own: set<KeyRecord>, base: Option<Vault>, pending: Option<Vault>, remote: Option<Vault>, local: Projects, intent: Option<GuardIntent>)
    requires OptionalOk(own, base) && OptionalOk(own, pending) && OptionalOk(own, remote) && ProjectsOk(own, local)
    requires Collect(base, pending, remote, local, intent).Ok?
    ensures VaultOk(own, Collect(base, pending, remote, local, intent).value)
  {
    hide Assemble;
    AssembleOk(own, base, pending, remote, local, intent);
  }

  // ----- nothing acknowledged is forgotten -----

  /** The inventory's catalog remembers every tombstone, retirement and revision a source holds, and no alias or guard event goes back. */
  ghost predicate CatalogExtends(was: Catalog, now: Catalog) {
    && was.deleted.Keys <= now.deleted.Keys
    && was.retired.Keys <= now.retired.Keys
    && (forall k | k in was.captures :: k in now.captures && now.captures[k] == was.captures[k])
    && (forall k | k in was.artifacts :: k in now.artifacts && now.artifacts[k] == was.artifacts[k])
    && (forall k | k in was.aliases :: AtMost(was.aliases[k], EventAt(now.aliases, k)))
    && (forall k | k in was.guards :: AtMost(was.guards[k], EventAt(now.guards, k)))
  }

  /** Every entry name a source holds is still there before the sweep. */
  ghost predicate NamesKept(was: Projects, now: Projects) {
    forall p, n | p in was && n in was[p] :: p in now && n in now[p]
  }

  lemma CatalogExtendsTrans(a: Catalog, b: Catalog, c: Catalog)
    requires CatalogExtends(a, b) && CatalogExtends(b, c)
    ensures CatalogExtends(a, c)
  {
    hide AtMost;
    AtMostTrans(a.aliases, b.aliases, c.aliases);
    AtMostTrans(a.guards, b.guards, c.guards);
  }

  lemma AtMostTrans<K(!new)>(a: map<K, Event>, b: map<K, Event>, c: map<K, Event>)
    requires forall k | k in a :: AtMost(a[k], EventAt(b, k))
    requires forall k | k in b :: AtMost(b[k], EventAt(c, k))
    ensures forall k | k in a :: AtMost(a[k], EventAt(c, k))
  {
    forall k | k in a ensures AtMost(a[k], EventAt(c, k)) {
      assert AtMost(EventAt(b, k), EventAt(c, k));
    }
  }

  lemma JoinAtLeast<K(!new)>(a: map<K, Event>, b: map<K, Event>)
    ensures forall k | k in a :: AtMost(a[k], EventAt(JoinEvents(a, b), k))
    ensures forall k | k in b :: AtMost(b[k], EventAt(JoinEvents(a, b), k))
  {
  }

  lemma MergeCatalogExtends(a: Catalog, b: Catalog)
    requires MergeCatalog(a, b).Ok?
    ensures CatalogExtends(a, MergeCatalog(a, b).value) && CatalogExtends(b, MergeCatalog(a, b).value)
  {
    hide JoinEvents, AtMost;
    JoinAtLeast(a.aliases, b.aliases);
    JoinAtLeast(a.guards, b.guards);
  }

  /** The last source keeps everything: its catalog is extended and its names are present. */
  lemma GatherLast(sources: seq<Vault>)
    requires sources != [] && Gather(sources).Ok?
    ensures CatalogExtends(CatalogOf(sources[|sources| - 1]), CatalogOf(Gather(sources).value))
    ensures NamesKept(sources[|sources| - 1].projects, Gather(sources).value.projects)
  {
    hide MergeCatalog, CatalogExtends;
    MergeCatalogExtends(CatalogOf(Gather(sources[..|sources| - 1]).value), CatalogOf(sources[|sources| - 1]));
  }

  function Catalogs(sources: seq<Vault>): seq<Catalog> {
    seq(|sources|, i requires 0 <= i < |sources| => CatalogOf(sources[i]))
  }

  /** The sources' catalogs are joined, and only they decide whether gathering fails. */
  lemma {:induction false} GatherJoinsCatalogs(sources: seq<Vault>)
    ensures match GatherCatalogs(Catalogs(sources))
            case Err(m) => Gather(sources) == Err(m)
            case Ok(c) => Gather(sources).Ok? && Gather(sources).value.catalog == Some(c)
  {
    hide MergeCatalog, Overlay;
    if sources != [] {
      var last := |sources| - 1;
      assert Catalogs(sources)[..last] == Catalogs(sources[..last]);
      GatherJoinsCatalogs(sources[..last]);
    }
  }

  lemma CatalogsAmong(a: seq<Vault>, b: seq<Vault>)
    requires forall s | s in a :: s in b
    ensures forall c | c in Catalogs(a) :: c in Catalogs(b)
  {
    forall c | c in Catalogs(a) ensures c in Catalogs(b) {
      var i :| 0 <= i < |a| && Catalogs(a)[i] == c;
      assert a[i] in b;
      var j :| 0 <= j < |b| && b[j] == a[i];
      assert Catalogs(b)[j] == c;
    }
  }

  /** The inventory's catalog does not depend on the order of the sources, nor on repeating one. */
  lemma SourcesInAnyOrder(a: seq<Vault>, b: seq<Vault>)
    requires forall s :: s in a <==> s in b
    ensures Gather(a).Ok? <==> Gather(b).Ok?
    ensures Gather(a).Ok? ==> SameCatalog(CatalogOf(Gather(a).value), CatalogOf(Gather(b).value))
  {
    hide Gather, GatherCatalogs, SameCatalog;
    GatherJoinsCatalogs(a);
    GatherJoinsCatalogs(b);
    CatalogsAmong(a, b);
    CatalogsAmong(b, a);
    MergeIsJoin(Catalogs(a), Catalogs(b));
  }

  /** Every source's catalog is extended, wherever it stands. */
  lemma {:induction false} GatherMember(sources: seq<Vault>, i: nat)
    requires i < |sources| && Gather(sources).Ok?
    ensures CatalogExtends(CatalogOf(sources[i]), CatalogOf(Gather(sources).value))
    decreases |sources|
  {
    hide MergeCatalog, CatalogExtends;
    var last := |sources| - 1;
    if i == last {
      GatherLast(sources);
    } else {
      GatherMember(sources[..last], i);
      MergeCatalogExtends(CatalogOf(Gather(sources[..last]).value), CatalogOf(sources[last]));
      CatalogExtendsTrans(CatalogOf(sources[i]), CatalogOf(Gather(sources[..last]).value), CatalogOf(Gather(sources).value));
    }
  }

  lemma EditsExtend(c: Catalog, edits: map<AliasRecord, Event>, intent: Option<GuardIntent>)
    ensures CatalogExtends(c, c.(aliases := JoinEvents(c.aliases, edits), guards := ApplyIntent(c.guards, intent)))
    ensures CatalogExtends(c, c.(guards := ApplyIntent(c.guards, intent)))
  {
    hide JoinEvents, ApplyIntent;
    JoinAtLeast(c.aliases, edits);
    IntentAtLeast(c.guards, intent);
  }

  lemma IntentAtLeast(guards: map<KeyRecord, Event>, intent: Option<GuardIntent>)
    ensures forall k | k in guards :: AtMost(guards[k], EventAt(ApplyIntent(guards, intent), k))
  {
  }

  lemma AssembleKeeps(base: Option<Vault>, pending: Option<Vault>, remote: Vault, local: Projects, intent: Option<GuardIntent>)
    requires Assemble(base, pending, Some(remote), local, intent).Ok?
    ensures var v := Assemble(base, pending, Some(remote), local, intent).value;
      CatalogExtends(CatalogOf(remote), CatalogOf(v)) && NamesKept(remote.projects, v.projects)
  {
    hide Gather, CatalogExtends;
    var sources := Present(base) + Present(pending) + [remote];
    GatherLast(sources);
    var g := Gather(sources).value;
    var previous := if pending.Some? then pending else base;
    EditsExtend(CatalogOf(g), if previous.Some? then Edits(previous.value, local) else map[], intent);
    CatalogExtendsTrans(CatalogOf(remote), CatalogOf(g), CatalogOf(Assemble(base, pending, Some(remote), local, intent).value));
  }

  /** What a collection knows extends what is pending: no staged change is forgotten. */
  lemma CollectExtendsPending(base: Option<Vault>, pending: Vault, remote: Option<Vault>, local: Projects, intent: Option<GuardIntent>)
    requires Collect(base, Some(pending), remote, local, intent).Ok?
    ensures CatalogExtends(CatalogOf(pending), CatalogOf(Collect(base, Some(pending), remote, local, intent).value))
  {
    hide Gather, CatalogExtends, SweepVault, JoinEvents, Edits;
    var sources := Present(base) + [pending] + Present(remote);
    var at := |Present(base)|;
    assert sources[at] == pending;
    GatherMember(sources, at);
    var g := Gather(sources).value;
    EditsExtend(CatalogOf(g), Edits(pending, local), intent);
    CatalogExtendsTrans(CatalogOf(pending), CatalogOf(g), CatalogOf(Collect(base, Some(pending), remote, local, intent).value));
  }

  /** No entry of a swept project is about a tombstoned key. */
  lemma SweptClean(c: Catalog, ps: Projects)
    ensures forall p, n | p in SweepVault(c, ps) && n in SweepVault(c, ps)[p] ::
      var pub := PublicEntry(n, SweepVault(c, ps)[p][n]);
      pub.Some? ==> KeyRecord(p, pub.value) !in c.deleted
  {
  }

  /** A key's record survives the sweep unless the key is tombstoned or guarded. */
  lemma SweepKeepsKey(c: Catalog, project: string, entries: Entries, pub: Pub)
    requires AliasRecordsProper(c) && PubEntry(pub) in entries && entries[PubEntry(pub)] == Private(pub)
    ensures PubEntry(pub) in Survivors(c, project, entries) || Excused(c, project, Survivors(c, project, entries), pub)
  {
    var n := PubEntry(pub);
    assert AliasRecord(project, n, entries[n]) !in c.aliases;
    if GuardedHere(entries, entries[n]) {
      var g := GuardEntry(pub);
      assert AliasRecord(project, g, entries[g]) !in c.aliases;
    }
  }

  /** Why a key's clear record may be gone from a vault: a tombstone, a guard change, or its guarded form being there. */
  predicate Excused(c: Catalog, project: string, entries: Entries, pub: Pub) {
    || KeyRecord(project, pub) in c.deleted
    || EventAt(c.guards, KeyRecord(project, pub)).flag
    || Get(entries, GuardEntry(pub)) != NOTHING
  }

  /** No entry is about a key the vault's own catalog tombstones. */
  ghost predicate Clean(v: Vault) {
    forall p, n | p in v.projects && n in v.projects[p] ::
      var pub := PublicEntry(n, v.projects[p][n]);
      pub.Some? ==> KeyRecord(p, pub.value) !in CatalogOf(v).deleted
  }

  /** No record of these keys is gone without a reason on record, and no sealed key but by a tombstone. */
  ghost predicate KeysKept(own: set<KeyRecord>, was: Vault, now: Vault) {
    && (forall p, n | p in was.projects && n in was.projects[p] && n.PubEntry? && KeyRecord(p, n.pub) in own ::
          || n in EntriesOf(now.projects, p)
          || Excused(CatalogOf(now), p, EntriesOf(now.projects, p), n.pub))
    && (forall p, n | p in was.projects && n in was.projects[p] && n.GuardEntry? ::
          || n in EntriesOf(now.projects, p)
          || KeyRecord(p, n.pub) in CatalogOf(now).deleted)
  }

  /** One upload over an acknowledged vault: tombstones stay and hold, and no key is lost without a reason on record. */
  ghost predicate Preserves(own: set<KeyRecord>, was: Vault, now: Vault) {
    CatalogExtends(CatalogOf(was), CatalogOf(now)) && Clean(now) && KeysKept(own, was, now)
  }

  /** A sealed key survives the sweep unless it is tombstoned. */
  lemma SweepKeepsSealed(c: Catalog, project: string, entries: Entries, pub: Pub)
    requires AliasRecordsProper(c) && GuardEntry(pub) in entries
    ensures GuardEntry(pub) in Survivors(c, project, entries) || KeyRecord(project, pub) in c.deleted
  {
    assert AliasRecord(project, GuardEntry(pub), entries[GuardEntry(pub)]) !in c.aliases;
  }

  /** Whatever is collected holds nothing about a key it knows to be tombstoned. */
  lemma CollectClean(base: Option<Vault>, pending: Option<Vault>, remote: Option<Vault>, local: Projects, intent: Option<GuardIntent>)
    requires Collect(base, pending, remote, local, intent).Ok?
    ensures Clean(Collect(base, pending, remote, local, intent).value)
  {
    hide Assemble, Survivors;
    var a := Assemble(base, pending, remote, local, intent).value;
    SweptClean(CatalogOf(a), a.projects);
  }

  /** Whatever base, pending revision and keyrings a device brings, what it collects over the server's vault preserves it. */
  lemma CollectPreserves(own: set<KeyRecord>, base: Option<Vault>, pending: Option<Vault>, remote: Vault, local: Projects, intent: Option<GuardIntent>)
    requires OptionalOk(own, base) && OptionalOk(own, pending) && VaultOk(own, remote) && ProjectsOk(own, local)
    requires Collect(base, pending, Some(remote), local, intent).Ok?
    ensures Preserves(own, remote, Collect(base, pending, Some(remote), local, intent).value)
  {
    hide Assemble, CatalogExtends, Survivors, Excused, AliasRecordsProper, Clean;
    var a := Assemble(base, pending, Some(remote), local, intent).value;
    var v := Collect(base, pending, Some(remote), local, intent).value;
    AssembleOk(own, base, pending, Some(remote), local, intent);
    AssembleKeeps(base, pending, remote, local, intent);
    CollectClean(base, pending, Some(remote), local, intent);
    forall p, n | p in remote.projects && n in remote.projects[p] && n.PubEntry? && KeyRecord(p, n.pub) in own
      ensures n in EntriesOf(v.projects, p) || Excused(CatalogOf(v), p, EntriesOf(v.projects, p), n.pub)
    {
      SweepKeepsKey(CatalogOf(a), p, a.projects[p], n.pub);
    }
    forall p, n | p in remote.projects && n in remote.projects[p] && n.GuardEntry?
      ensures n in EntriesOf(v.projects, p) || KeyRecord(p, n.pub) in CatalogOf(v).deleted
    {
      SweepKeepsSealed(CatalogOf(a), p, a.projects[p], n.pub);
    }
  }

  /** Every source's names are present, wherever it stands. */
  lemma {:induction false} GatherNames(sources: seq<Vault>, i: nat)
    requires i < |sources| && Gather(sources).Ok?
    ensures NamesKept(sources[i].projects, Gather(sources).value.projects)
    decreases |sources|
  {
    hide MergeCatalog;
    if i < |sources| - 1 { GatherNames(sources[..|sources| - 1], i); }
  }

  /** A key on record in any of the three vaults, or in the keyring, is in what is collected of them, unless excused. */
  lemma CollectHoldsKey(base: Option<Vault>, pending: Option<Vault>, remote: Option<Vault>, local: Projects, intent: Option<GuardIntent>, p: string, pub: Pub)
    requires var own := {KeyRecord(p, pub)}; OptionalOk(own, base) && OptionalOk(own, pending) && OptionalOk(own, remote) && ProjectsOk(own, local)
    requires PubEntry(pub) in EntriesOf(local, p) || exists v | v in Present(base) + Present(pending) + Present(remote) :: PubEntry(pub) in EntriesOf(v.projects, p)
    requires Collect(base, pending, remote, local, intent).Ok?
    ensures var r := Collect(base, pending, remote, local, intent).value;
      PubEntry(pub) in EntriesOf(r.projects, p) || Excused(CatalogOf(r), p, EntriesOf(r.projects, p), pub)
  {
    hide Gather, AliasRecordsProper, Survivors, Excused, Edits, ApplyIntent, JoinEvents;
    var sources := Present(base) + Present(pending) + Present(remote);
    if PubEntry(pub) !in EntriesOf(local, p) {
      var v :| v in sources && PubEntry(pub) in EntriesOf(v.projects, p);
      var i :| 0 <= i < |sources| && sources[i] == v;
      GatherNames(sources, i);
    }
    var a := Assemble(base, pending, remote, local, intent).value;
    AssembleOk({KeyRecord(p, pub)}, base, pending, remote, local, intent);
    assert PubEntry(pub) in EntriesOf(a.projects, p);
    SweepKeepsKey(CatalogOf(a), p, a.projects[p], pub);
  }

  /**
   Not so for a key whose record holds another key here, which is guarded: the sweep takes the record away, and
   nothing on record says why.
   */
  lemma MisfiledLosesKey(remote: Vault, local: Projects)
    requires remote == Vault(map["p" := map[PubEntry("1") := Private("1")]], Some(EMPTY_CATALOG), 1)
    requires local == map["p" := map[PubEntry("1") := Private("2"), GuardEntry("2") := Plain("sealed")]]
    ensures var r := Collect(None, None, Some(remote), local, None);
      && r.Ok? && PubEntry("1") !in EntriesOf(r.value.projects, "p")
      && !Excused(CatalogOf(r.value), "p", EntriesOf(r.value.projects, "p"), "1")
  {
    hide MergeCatalog;
    assert Present(None) + Present(None) + Present(Some(remote)) == [remote] && [remote][..0] == [];
    NothingMerges();
    assert Gather([]) == Ok(EMPTY_VAULT);
    assert Gather([remote]) == MergeSource(EMPTY_VAULT, remote);
    var g := Gather([remote]).value;
    assert g.projects["p"] == map[PubEntry("1") := Private("1")];
    var a := Assemble(None, None, Some(remote), local, None).value;
    assert a.projects["p"] == local["p"];
    assert Doomed(CatalogOf(a), "p", a.projects["p"], PubEntry("1"), Private("2"));
  }

  lemma NothingMerges()
    ensures MergeCatalog(EMPTY_CATALOG, EMPTY_CATALOG) == Ok(EMPTY_CATALOG)
  {
  }

  // ----- the inventory as the program builds it -----

  lemma AdmitJoins<K>(m: map<K, Event>, events: map<K, Event>, k: K, e: Event)
    requires k !in events
    ensures Admit(JoinEvents(m, events), k, e) == JoinEvents(m, events[k := e])
  {
  }

  /** Admits every event, in any order. */
  method AdmitAll<K(==)>(m: map<K, Event>, events: map<K, Event>) returns (r: map<K, Event>)
    ensures r == JoinEvents(m, events)
  {
    r := m;
    var todo := events.Keys;
    ghost var done: map<K, Event> := map[];
    while todo != {}
      invariant todo <= events.Keys && done == map k | k in events && k !in todo :: events[k]
      invariant r == JoinEvents(m, done)
    {
      var k :| k in todo;
      AdmitJoins(m, done, k, events[k]);
      r := Admit(r, k, events[k]);
      done := done[k := events[k]];
      todo := todo - {k};
    }
    assert done == events;
  }

  /** Copies immutable revisions, stopping at one that differs from what is there. */
  method CopyImmutable<V(==)>(m: map<string, V>, source: map<string, V>) returns (ok: bool, r: map<string, V>)
    ensures ok <==> Agree(m, source)
    ensures ok ==> r == m + source
  {
    r := m;
    var todo := source.Keys;
    while todo != {}
      invariant todo <= source.Keys
      invariant r == m + map k | k in source && k !in todo :: source[k]
      invariant forall k | k in m && k in source && k !in todo :: m[k] == source[k]
    {
      var k :| k in todo;
      if k in r && r[k] != source[k] {
        return false, r;
      }
      r := r[k := source[k]];
      todo := todo - {k};
    }
    return true, r;
  }

  lemma OverlayNothing(ps: Projects)
    ensures Overlay(ps, map[]) == ps
  {
    assert forall p | p in ps :: EntriesOf(ps, p) + EntriesOf(map[], p) == ps[p];
  }

  lemma OverlayStep(a: Projects, done: Projects, p: string, e: Entries)
    requires p !in done
    ensures Overlay(a, done[p := e]) == Overlay(a, done)[p := EntriesOf(Overlay(a, done), p) + e]
  {
    hide Overlay, EntriesOf;
    var l, r := Overlay(a, done[p := e]), Overlay(a, done)[p := EntriesOf(Overlay(a, done), p) + e];
    OverlayKeys(a, done);
    OverlayKeys(a, done[p := e]);
    forall q | q in l ensures l[q] == r[q] {
      OverlayStepAt(a, done, p, e, q);
    }
    assert l.Keys == r.Keys;
  }

  lemma OverlayStepAt(a: Projects, done: Projects, p: string, e: Entries, q: string)
    requires p !in done && (q in a || q in done || q == p)
    ensures Overlay(a, done[p := e])[q] == Overlay(a, done)[p := EntriesOf(Overlay(a, done), p) + e][q]
  {
    OverlayAt(a, done, q);
    OverlayAt(a, done[p := e], q);
    if q == p { assert EntriesOf(a, p) + map[] == EntriesOf(a, p); }
  }

  lemma OverlayKeys(a: Projects, b: Projects)
    ensures Overlay(a, b).Keys == a.Keys + b.Keys
  {
  }

  lemma OverlayAt(a: Projects, b: Projects, p: string)
    ensures EntriesOf(Overlay(a, b), p) == EntriesOf(a, p) + EntriesOf(b, p)
    ensures p in Overlay(a, b) ==> Overlay(a, b)[p] == EntriesOf(a, p) + EntriesOf(b, p)
  {
  }

  /** Events of two disjoint batches, admitted one batch after the other. */
  lemma JoinBatches<K>(m: map<K, Event>, a: map<K, Event>, b: map<K, Event>)
    requires a.Keys !! b.Keys
    ensures JoinEvents(JoinEvents(m, a), b) == JoinEvents(m, a + b)
  {
  }

  lemma RemovedStep(previous: Projects, done: Projects, p: string, e: Entries)
    requires p !in done
    ensures Removed(previous, done[p := e]) == Removed(previous, done) + Removed(previous, map[p := e])
    ensures Removed(previous, done) !! Removed(previous, map[p := e])
  {
    forall r ensures r in Removed(previous, done[p := e]) <==> r in Removed(previous, done) + Removed(previous, map[p := e]) {
    }
  }

  lemma RepointedStep(previous: Projects, done: Projects, p: string, e: Entries)
    requires p !in done
    ensures Repointed(previous, done[p := e]) == Repointed(previous, done) + Repointed(previous, map[p := e])
    ensures Repointed(previous, done) !! Repointed(previous, map[p := e])
  {
    forall r ensures r in Repointed(previous, done[p := e]) <==> r in Repointed(previous, done) + Repointed(previous, map[p := e]) {
    }
  }

  lemma EditedProjects(previous: Projects, local: Projects)
    ensures forall r | r in Removed(previous, local) + Repointed(previous, local) :: r.project in local
  {
  }

  lemma EditsStep(previous: Vault, done: Projects, p: string, e: Entries)
    requires p !in done
    ensures Edits(previous, done).Keys !! Edits(previous, map[p := e]).Keys
    ensures Edits(previous, done) + Edits(previous, map[p := e]) == Edits(previous, done[p := e])
  {
    hide Removed, Repointed;
    RemovedStep(previous.projects, done, p, e);
    RepointedStep(previous.projects, done, p, e);
    EditedProjects(previous.projects, done);
    EditedProjects(previous.projects, map[p := e]);
  }

  lemma EditsNothing<K>(m: map<K, Event>, previous: Vault)
    ensures JoinEvents(m, map[]) == m && Edits(previous, map[]) == map[]
  {
    assert Removed(previous.projects, map[]) == {} && Repointed(previous.projects, map[]) == {};
  }

  /** The events of alias names that are gone. */
  method RemovedEvents(previous: Vault, project: string, entries: Entries) returns (events: map<AliasRecord, Event>)
    ensures forall r :: r in events <==> r in Removed(previous.projects, map[project := entries])
    ensures forall r | r in events :: events[r] == Event(EventAt(CatalogOf(previous).aliases, r).version + 1, true)
  {
    var before := EntriesOf(previous.projects, project);
    events := map[];
    var todo := before.Keys;
    while todo != {}
      invariant todo <= before.Keys
      invariant forall r :: r in events <==>
        (r.project == project && r.name in before && r.name !in todo && r.name !in entries && r.name.IsAlias()
         && r.value == before[r.name])
      invariant forall r | r in events :: events[r] == Event(EventAt(CatalogOf(previous).aliases, r).version + 1, true)
    {
      var n :| n in todo;
      if n !in entries && n.IsAlias() {
        var r := AliasRecord(project, n, before[n]);
        events := events[r := Event(EventAt(CatalogOf(previous).aliases, r).version + 1, true)];
      }
      todo := todo - {n};
    }
  }

  /** The events of alias names that hold another value. */
  method RepointedEvents(previous: Vault, project: string, entries: Entries) returns (events: map<AliasRecord, Event>)
    ensures forall r :: r in events <==> r in Repointed(previous.projects, map[project := entries])
    ensures forall r | r in events :: events[r] == Event(EventAt(CatalogOf(previous).aliases, r).version + 1, false)
  {
    var before := EntriesOf(previous.projects, project);
    events := map[];
    var todo := entries.Keys;
    while todo != {}
      invariant todo <= entries.Keys
      invariant forall r :: r in events <==>
        (r.project == project && r.name in entries && r.name !in todo && Get(before, r.name) != entries[r.name]
         && r.name.IsAlias() && r.value == entries[r.name])
      invariant forall r | r in events :: events[r] == Event(EventAt(CatalogOf(previous).aliases, r).version + 1, false)
    {
      var n :| n in todo;
      if Get(before, n) != entries[n] && n.IsAlias() {
        var r := AliasRecord(project, n, entries[n]);
        events := events[r := Event(EventAt(CatalogOf(previous).aliases, r).version + 1, false)];
      }
      todo := todo - {n};
    }
  }

  class Draft {
    var projects: Projects
    var catalog: Catalog

    constructor ()
      ensures projects == map[] && catalog == EMPTY_CATALOG
    {
      projects, catalog := map[], EMPTY_CATALOG;
    }

    /** Lays one project's entries over what is there. */
    method CopyEntries(p: string, entries: Entries)
      modifies this`projects
      ensures projects == old(projects)[p := EntriesOf(old(projects), p) + entries]
    {
      if p !in projects {
        projects := projects[p := map[]];
      }
      projects := projects[p := projects[p] + entries];
    }

    /** Lays a source's entries over what is there. */
    method CopyProjects(source: Projects)
      modifies this`projects
      ensures projects == Overlay(old(projects), source)
    {
      hide Overlay;
      var todo := source.Keys;
      ghost var done: Projects := map[];
      OverlayNothing(projects);
      while todo != {}
        invariant todo <= source.Keys && done == map p | p in source && p !in todo :: source[p]
        invariant projects == Overlay(old(projects), done)
      {
        var p :| p in todo;
        OverlayStep(old(projects), done, p, source[p]);
        CopyEntries(p, source[p]);
        done := done[p := source[p]];
        todo := todo - {p};
      }
      assert done == source;
    }

    method AddSource(source: Vault) returns (r: Result<()>)
      modifies this
      ensures match MergeCatalog(old(catalog), CatalogOf(source))
              case Err(m) => r == Err(m)
              case Ok(c) => r.Ok? && catalog == c && projects == Overlay(old(projects), source.projects)
    {
      hide Agree, JoinEvents, Overlay;
      CopyProjects(source.projects);
      if source.catalog.None? {
        NothingToMerge(catalog);
        return Ok(());
      }
      var s := source.catalog.value;
      var aliases := AdmitAll(catalog.aliases, s.aliases);
      var ok, captures := CopyImmutable(catalog.captures, s.captures);
      if !ok { return Err(CAPTURE_CONFLICT); }
      var same, artifacts := CopyImmutable(catalog.artifacts, s.artifacts);
      if !same { return Err(ARTIFACT_CONFLICT); }
      var guards := AdmitAll(catalog.guards, s.guards);
      catalog := Catalog(aliases, guards, catalog.deleted + s.deleted, catalog.retired + s.retired, captures, artifacts);
      return Ok(());
    }

    /** Records one project's deliberate alias edits since `previous`. */
    method RecordEdits(previous: Vault, project: string, entries: Entries)
      modifies this`catalog
      ensures catalog == old(catalog).(aliases := JoinEvents(old(catalog).aliases, Edits(previous, map[project := entries])))
    {
      hide Removed, Repointed, JoinEvents;
      var removed := RemovedEvents(previous, project, entries);
      var repointed := RepointedEvents(previous, project, entries);
      var events := repointed + removed;
      assert events == Edits(previous, map[project := entries]);
      var aliases := AdmitAll(catalog.aliases, events);
      catalog := catalog.(aliases := aliases);
    }

    /** Adds the sources in order; the first that conflicts ends it. */
    method AddSources(sources: seq<Vault>) returns (r: Result<()>)
      requires projects == map[] && catalog == EMPTY_CATALOG
      modifies this
      ensures match Gather(sources)
              case Err(m) => r == Err(m)
              case Ok(g) => r.Ok? && g == Vault(projects, Some(catalog), 0)
    {
      hide MergeCatalog, Overlay;
      for i := 0 to |sources|
        invariant Gather(sources[..i]) == Ok(Vault(projects, Some(catalog), 0))
      {
        assert sources[..i + 1][..i] == sources[..i];
        var done := AddSource(sources[i]);
        if done.Err? {
          GatherStops(sources, i + 1);
          return Err(done.error);
        }
      }
      assert sources[..|sources|] == sources;
      return Ok(());
    }

    /** Lays the local keyrings over the sources, and records what they say was edited since `previous`. */
    method AddLocal(local: Projects, previous: Option<Vault>)
      modifies this
      ensures projects == Overlay(old(projects), local)
      ensures catalog == old(catalog).(aliases :=
        if previous.Some? then JoinEvents(old(catalog).aliases, Edits(previous.value, local)) else old(catalog).aliases)
    {
      hide Overlay, Edits, JoinEvents;
      var todo := local.Keys;
      ghost var done: Projects := map[];
      OverlayNothing(projects);
      if previous.Some? { EditsNothing(catalog.aliases, previous.value); }
      while todo != {}
        invariant todo <= local.Keys && done == map p | p in local && p !in todo :: local[p]
        invariant projects == Overlay(old(projects), done)
        invariant catalog == old(catalog).(aliases :=
          if previous.Some? then JoinEvents(old(catalog).aliases, Edits(previous.value, done)) else old(catalog).aliases)
      {
        var p :| p in todo;
        OverlayStep(old(projects), done, p, local[p]);
        CopyEntries(p, local[p]);
        if previous.Some? {
          EditsStep(previous.value, done, p, local[p]);
          JoinBatches(old(catalog).aliases, Edits(previous.value, done), Edits(previous.value, map[p := local[p]]));
          RecordEdits(previous.value, p, local[p]);
        }
        done := done[p := local[p]];
        todo := todo - {p};
      }
      assert done == local;
    }

    /** Sweeps every project in place. */
    method SweepAll()
      requires AliasRecordsProper(catalog)
      modifies this`projects
      ensures projects == SweepVault(catalog, old(projects))
    {
      hide Survivors;
      var todo := projects.Keys;
      while todo != {}
        invariant projects.Keys == old(projects).Keys && todo <= projects.Keys
        invariant forall p | p in todo :: projects[p] == old(projects)[p]
        invariant forall p | p in projects && p !in todo :: projects[p] == Survivors(catalog, p, old(projects)[p])
      {
        var p :| p in todo;
        var ring := new Keyring(projects[p]);
        ring.ApplyDeleted(catalog, p);
        projects := projects[p := ring.entries];
        todo := todo - {p};
      }
    }
  }

  /**
   Builds the inventory step by step: the sources in order, then the local keyrings and their edits, then
   an explicit guard change, then the sweep.
   */
  method CollectInventory(base: Option<Vault>, pending: Option<Vault>, remote: Option<Vault>, local: Projects, intent: Option<GuardIntent>)
    returns (r: Result<Vault>)
    requires OptionalOk({}, base) && OptionalOk({}, pending) && OptionalOk({}, remote)
    ensures r == Collect(base, pending, remote, local, intent)
  {
    hide Gather, Overlay, JoinEvents, Edits, SweepVault, ApplyIntent, OptionalOk, ProjectsOk, VaultOk;
    var draft := new Draft();
    var sources := Present(base) + Present(pending) + Present(remote);
    var done := draft.AddSources(sources);
    if done.Err? { return Err(done.error); }
    var previous := if pending.Some? then pending else base;
    draft.AddLocal(local, previous);
    draft.catalog := draft.catalog.(guards := ApplyIntent(draft.catalog.guards, intent));
    assert Assemble(base, pending, remote, local, intent) == Ok(Vault(draft.projects, Some(draft.catalog), 0));
    AssembledProper(base, pending, remote, local, intent);
    draft.SweepAll();
    return Ok(Vault(draft.projects, Some(draft.catalog), 0));
  }

  lemma AssembledProper(base: Option<Vault>, pending: Option<Vault>, remote: Option<Vault>, local: Projects, intent: Option<GuardIntent>)
    requires OptionalOk({}, base) && OptionalOk({}, pending) && OptionalOk({}, remote)
    requires Assemble(base, pending, remote, local, intent).Ok?
    ensures AliasRecordsProper(CatalogOf(Assemble(base, pending, remote, local, intent).value))
  {
    hide Assemble;
    AssembleOk({}, base, pending, remote, local, intent);
  }

  lemma {:induction false} GatherStops(sources: seq<Vault>, n: nat)
    requires n <= |sources| && Gather(sources[..n]).Err?
    ensures Gather(sources) == Gather(sources[..n])
    decreases |sources|
  {
    hide MergeSource;
    if n == |sources| {
      assert sources[..n] == sources;
    } else {
      assert sources[..|sources| - 1][..n] == sources[..n];
      GatherStops(sources[..|sources| - 1], n);
    }
  }

  lemma NothingToMerge(c: Catalog)
    ensures MergeCatalog(c, EMPTY_CATALOG) == Ok(c)
  {
    assert JoinEvents(c.aliases, EMPTY_CATALOG.aliases) == c.aliases;
    assert JoinEvents(c.guards, EMPTY_CATALOG.guards) == c.guards;
    assert c.deleted + EMPTY_CATALOG.deleted == c.deleted && c.retired + EMPTY_CATALOG.retired == c.retired;
    assert c.captures + EMPTY_CATALOG.captures == c.captures && c.artifacts + EMPTY_CATALOG.artifacts == c.artifacts;
  }
}
