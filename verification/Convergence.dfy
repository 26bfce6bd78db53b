/**
 Two devices that edit different names from a common acknowledged vault converge: each edit is a keyring,
 compared with the base it started from, and a sync mixes the edits of both sides.
 */
module Convergence {
  import opened Wrappers
  import opened KeyVault
  import opened CatalogJoin
  import opened Inventory
  import opened KeyMerge
  import opened Account

  // ----- edits, and mixing them -----

  /** Both hold n with one value, or neither does. */
  predicate Same(a: Entries, b: Entries, n: Name) {
    (n in a <==> n in b) && (n in a ==> a[n] == b[n])
  }

  /** r's version of every name r changed since b, l's version of the rest. */
  function MixEntries(b: Entries, l: Entries, r: Entries): Entries {
    map n | n in l.Keys + r.Keys && n in (if Same(b, r, n) then l else r) :: if Same(b, r, n) then l[n] else r[n]
  }

  function Mix(b: Projects, l: Projects, r: Projects): Projects {
    map p | p in l.Keys + r.Keys :: MixEntries(EntriesOf(b, p), EntriesOf(l, p), EntriesOf(r, p))
  }

  /** Nobody changed a name the other side changed; guards are left alone, and only names that may be repointed go. */
  ghost predicate EditedApart(b: Entries, l: Entries, r: Entries) {
    forall n: Name :: NameApart(b, l, r, n)
  }

  ghost predicate NameApart(b: Entries, l: Entries, r: Entries, n: Name) {
    && (Same(b, l, n) || Same(b, r, n))
    && (n.IsGuardUnit() || n.GuardEntry? ==> Same(b, l, n) && Same(b, r, n))
    && (n in b && !n.IsAlias() ==> n in l && n in r)
  }

  /** Condemned by the catalog for its key. */
  predicate KeyCondemned(c: Catalog, p: string, n: Name, v: Value) {
    var pub := PublicEntry(n, v);
    pub.Some? &&
    var k := KeyRecord(p, pub.value);
    || (EventAt(c.guards, k).flag && n.IsKey())
    || k in c.deleted
    || (k in c.retired && !n.PubEntry? && !n.GuardEntry?)
  }

  /** A keyring in use: proper names, filed keys, no clear copy of a guarded key, and nothing condemned. */
  ghost predicate Live(c: Catalog, p: string, e: Entries) {
    && FiledRight(e) && FileKeys(e) == e
    && (forall n | n in e :: LiveAt(c, p, e, n))
  }

  predicate LiveAt(c: Catalog, p: string, e: Entries, n: Name)
    requires n in e
  {
    && EntryNameOk(n) && !KeyCondemned(c, p, n, e[n]) && !GuardedHere(e, e[n])
    && (n.IsAlias() ==> e[n] != NOTHING)
  }

  ghost predicate AllLive(c: Catalog, ps: Projects) {
    forall p | p in ps :: Live(c, p, ps[p])
  }

  /** Every recorded event is a real one. */
  ghost predicate RealEvents(c: Catalog) {
    && (forall r | r in c.aliases :: c.aliases[r] != NO_EVENT)
    && (forall k | k in c.guards :: c.guards[k] != NO_EVENT)
  }

  /** No alias a vault holds is marked removed. */
  ghost predicate AliasesStand(c: Catalog, ps: Projects) {
    forall p, n | p in ps && n in ps[p] :: !EventAt(c.aliases, AliasRecord(p, n, ps[p][n])).flag
  }

  /** A vault as an account in use has it. */
  ghost predicate Steady(v: Vault) {
    v.catalog.Some? && RealEvents(v.catalog.value) && AliasRecordsProper(v.catalog.value)
    && AllLive(v.catalog.value, v.projects) && AliasesStand(v.catalog.value, v.projects)
  }

  /** Keyrings l and r, edited apart from the vault v. */
  ghost predicate Apart(v: Vault, l: Projects, r: Projects) {
    && Steady(v) && AllLive(v.catalog.value, l) && AllLive(v.catalog.value, r)
    && v.projects.Keys <= l.Keys && v.projects.Keys <= r.Keys
    && (forall p: string :: EditedApart(EntriesOf(v.projects, p), EntriesOf(l, p), EntriesOf(r, p)))
  }

  // ----- the catalog of the edits -----

  function With(c: Catalog, e: map<AliasRecord, Event>): Catalog {
    c.(aliases := c.aliases + e)
  }

  /** Each event is the next one of its record. */
  ghost predicate NextEvents(c: Catalog, e: map<AliasRecord, Event>) {
    forall r | r in e :: e[r].version == EventAt(c.aliases, r).version + 1
  }

  lemma JoinNext(m: map<AliasRecord, Event>, d: map<AliasRecord, Event>, e: map<AliasRecord, Event>)
    requires forall r | r in m :: m[r] != NO_EVENT
    requires forall r | r in d :: d[r].version == EventAt(m, r).version + 1
    requires forall r | r in e :: e[r].version == EventAt(m, r).version + 1
    requires forall r | r in d && r in e :: d[r] == e[r]
    ensures JoinEvents(m + d, m + e) == m + (d + e)
  {
    var j := JoinEvents(m + d, m + e);
    forall r ensures (r in j <==> r in m + (d + e)) && (r in j ==> j[r] == (m + (d + e))[r]) {
    }
  }

  lemma JoinOnto(m: map<AliasRecord, Event>)
    requires forall r | r in m :: m[r] != NO_EVENT
    ensures JoinEvents(map[], m) == m
  {
  }

  lemma JoinSelf<K(!new)>(m: map<K, Event>)
    requires forall k | k in m :: m[k] != NO_EVENT
    ensures JoinEvents(m, m) == m && JoinEvents(map[], m) == m
  {
  }

  lemma WithNothing(c: Catalog)
    ensures With(c, map[]) == c
  {
    assert c.aliases + map[] == c.aliases;
  }

  lemma MergeWith(c: Catalog, d: map<AliasRecord, Event>, e: map<AliasRecord, Event>)
    requires RealEvents(c) && NextEvents(c, d) && NextEvents(c, e)
    requires forall r | r in d && r in e :: d[r] == e[r]
    ensures MergeCatalog(With(c, d), With(c, e)) == Ok(With(c, d + e))
    ensures MergeCatalog(EMPTY_CATALOG, With(c, e)) == Ok(With(c, e))
  {
    hide JoinEvents;
    JoinNext(c.aliases, d, e);
    JoinOnto(c.aliases + e);
    JoinSelf(c.guards);
    assert c.deleted + c.deleted == c.deleted && map[] + c.deleted == c.deleted;
    assert c.retired + c.retired == c.retired && map[] + c.retired == c.retired;
    assert c.captures + c.captures == c.captures && map[] + c.captures == c.captures;
    assert c.artifacts + c.artifacts == c.artifacts && map[] + c.artifacts == c.artifacts;
  }

  lemma NextEdits(v: Vault, l: Projects)
    ensures NextEvents(CatalogOf(v), Edits(v, l))
    ensures v.catalog.Some? ==> NextEvents(v.catalog.value, Edits(v, l))
  {
    hide Removed, Repointed;
  }

  lemma EditedRecord(v: Vault, l: Projects, k: AliasRecord)
    requires k in Edits(v, l)
    ensures k.project in l && !Same(EntriesOf(v.projects, k.project), EntriesOf(l, k.project), k.name)
    ensures Edits(v, l)[k].flag <==> k in Removed(v.projects, l)
  {
  }

  /** The edits of two sides are about different records. */
  lemma EditsApart(v: Vault, l: Projects, r: Projects)
    requires forall p: string :: EditedApart(EntriesOf(v.projects, p), EntriesOf(l, p), EntriesOf(r, p))
    ensures Edits(v, l).Keys !! Edits(v, r).Keys
  {
    hide Edits;
    forall k ensures k !in Edits(v, l) || k !in Edits(v, r) {
      assert EditedApart(EntriesOf(v.projects, k.project), EntriesOf(l, k.project), EntriesOf(r, k.project));
      assert NameApart(EntriesOf(v.projects, k.project), EntriesOf(l, k.project), EntriesOf(r, k.project), k.name);
      if k in Edits(v, l) { EditedRecord(v, l, k); }
      if k in Edits(v, r) { EditedRecord(v, r, k); }
    }
  }

  lemma SameRecords(b: Projects, l: Projects, r: Projects, k: AliasRecord)
    requires b.Keys <= l.Keys && b.Keys <= r.Keys
    requires NameApart(EntriesOf(b, k.project), EntriesOf(l, k.project), EntriesOf(r, k.project), k.name)
    ensures k in Removed(l, Mix(b, l, r)) <==> k in Removed(b, r)
    ensures k in Repointed(l, Mix(b, l, r)) <==> k in Repointed(b, r)
  {
    hide MixEntries;
    var p := k.project;
    MixedName(EntriesOf(b, p), EntriesOf(l, p), EntriesOf(r, p), k.name);
  }

  /** What mixing does to one name. */
  lemma MixedName(b: Entries, l: Entries, r: Entries, n: Name)
    ensures Same(MixEntries(b, l, r), if Same(b, r, n) then l else r, n)
  {
  }

  /** Seen from l's staged edits, the mix holds exactly r's edits. */
  lemma EditsOfMix(v: Vault, l: Projects, r: Projects, staged: Vault)
    requires v.catalog.Some? && v.projects.Keys <= l.Keys && v.projects.Keys <= r.Keys
    requires forall p: string :: EditedApart(EntriesOf(v.projects, p), EntriesOf(l, p), EntriesOf(r, p))
    requires staged.projects == l && staged.catalog == Some(With(v.catalog.value, Edits(v, l)))
    ensures Edits(staged, Mix(v.projects, l, r)) == Edits(v, r)
  {
    hide Mix, Removed, Repointed;
    var mix := Mix(v.projects, l, r);
    EditsApart(v, l, r);
    forall k ensures k in Removed(l, mix) <==> k in Removed(v.projects, r)
      ensures k in Repointed(l, mix) <==> k in Repointed(v.projects, r)
    {
      assert EditedApart(EntriesOf(v.projects, k.project), EntriesOf(l, k.project), EntriesOf(r, k.project));
      assert NameApart(EntriesOf(v.projects, k.project), EntriesOf(l, k.project), EntriesOf(r, k.project), k.name);
      SameRecords(v.projects, l, r, k);
    }
    assert Edits(staged, mix).Keys == Edits(v, r).Keys;
  }

  // ----- what the sweep leaves once both sides' edits are known -----

  /** The catalog that knows both sides' edits. */
  function Joint(v: Vault, l: Projects, r: Projects): Catalog {
    With(CatalogOf(v), Edits(v, l) + Edits(v, r))
  }

  lemma JointSymmetric(v: Vault, l: Projects, r: Projects)
    requires Apart(v, l, r)
    ensures Apart(v, r, l) && Joint(v, l, r) == Joint(v, r, l) && Mix(v.projects, l, r) == Mix(v.projects, r, l)
  {
    hide AllLive, Steady, Edits, MixEntries;
    EditsApart(v, l, r);
    assert Edits(v, l) + Edits(v, r) == Edits(v, r) + Edits(v, l);
    forall p: string ensures EditedApart(EntriesOf(v.projects, p), EntriesOf(r, p), EntriesOf(l, p))
      ensures MixEntries(EntriesOf(v.projects, p), EntriesOf(l, p), EntriesOf(r, p)) == MixEntries(EntriesOf(v.projects, p), EntriesOf(r, p), EntriesOf(l, p))
    {
      assert EditedApart(EntriesOf(v.projects, p), EntriesOf(l, p), EntriesOf(r, p));
      MixSymmetric(EntriesOf(v.projects, p), EntriesOf(l, p), EntriesOf(r, p));
    }
  }

  lemma MixSymmetric(b: Entries, l: Entries, r: Entries)
    requires EditedApart(b, l, r)
    ensures EditedApart(b, r, l) && MixEntries(b, l, r) == MixEntries(b, r, l)
  {
    forall n: Name ensures NameApart(b, r, l, n) && Same(MixEntries(b, l, r), MixEntries(b, r, l), n) {
      assert NameApart(b, l, r, n);
    }
    var x, y := MixEntries(b, l, r), MixEntries(b, r, l);
    forall n ensures n in x <==> n in y
      ensures n in x ==> x[n] == y[n]
    {
      assert Same(x, y, n);
    }
  }

  /** In the joint catalog a name of l is marked removed exactly when the mix has lost it. */
  lemma LeftStands(v: Vault, l: Projects, r: Projects, p: string, n: Name)
    requires Apart(v, l, r) && p in l && n in l[p]
    ensures var b := EntriesOf(v.projects, p);
      && (EventAt(Joint(v, l, r).aliases, AliasRecord(p, n, l[p][n])).flag <==> n !in MixEntries(b, l[p], EntriesOf(r, p)))
      && (n !in MixEntries(b, l[p], EntriesOf(r, p)) ==> n.IsAlias() && n in b && b[n] == l[p][n])
  {
    hide Removed, Repointed, MixEntries;
    var b, rec := EntriesOf(v.projects, p), AliasRecord(p, n, l[p][n]);
    assert EditedApart(b, EntriesOf(l, p), EntriesOf(r, p));
    assert NameApart(b, l[p], EntriesOf(r, p), n);
    assert Live(CatalogOf(v), p, l[p]) && LiveAt(CatalogOf(v), p, l[p], n);
    MixedName(b, l[p], EntriesOf(r, p), n);
    EditOf(v, l, rec);
    EditOf(v, r, rec);
  }

  /** Which event, if any, an edit makes of one record. */
  lemma EditOf(v: Vault, l: Projects, k: AliasRecord)
    ensures k in Edits(v, l) <==> k in Removed(v.projects, l) || k in Repointed(v.projects, l)
    ensures k in Edits(v, l) ==> (Edits(v, l)[k].flag <==> k in Removed(v.projects, l))
    ensures k in Removed(v.projects, l) <==>
      k.project in l && k.name in EntriesOf(v.projects, k.project) && k.name !in l[k.project] && k.name.IsAlias()
      && k.value == v.projects[k.project][k.name]
    ensures k in Repointed(v.projects, l) <==>
      k.project in l && k.name in l[k.project] && Get(EntriesOf(v.projects, k.project), k.name) != l[k.project][k.name]
      && k.name.IsAlias() && k.value == l[k.project][k.name]
  {
  }

  lemma RightStands(v: Vault, l: Projects, r: Projects, p: string, n: Name)
    requires Apart(v, l, r) && p in r && n in r[p]
    ensures var b := EntriesOf(v.projects, p);
      && (EventAt(Joint(v, l, r).aliases, AliasRecord(p, n, r[p][n])).flag <==> n !in MixEntries(b, EntriesOf(l, p), r[p]))
      && (n !in MixEntries(b, EntriesOf(l, p), r[p]) ==> n.IsAlias() && n in b && b[n] == r[p][n])
  {
    hide MixEntries, Edits, Steady, AllLive;
    JointSymmetric(v, l, r);
    LeftStands(v, r, l, p, n);
    assert EditedApart(EntriesOf(v.projects, p), EntriesOf(l, p), EntriesOf(r, p));
    MixSymmetric(EntriesOf(v.projects, p), EntriesOf(l, p), r[p]);
  }

  /** The part of e whose names t holds. */
  function Trim(e: Entries, t: Entries): Entries {
    map n | n in e && n in t :: e[n]
  }

  function MixAt(v: Vault, l: Projects, r: Projects, p: string): Entries {
    MixEntries(EntriesOf(v.projects, p), EntriesOf(l, p), EntriesOf(r, p))
  }

  /** A sweep comes to t when all of t stands and everything else is marked removed. */
  lemma SweepTo(c: Catalog, p: string, g: Entries, t: Entries)
    requires forall n | n in t :: n in g && g[n] == t[n] && !DoomedAlone(c, p, n, t[n]) && !GuardedHere(g, t[n])
    requires forall n | n in g && n !in t :: EventAt(c.aliases, AliasRecord(p, n, g[n])).flag
    ensures Survivors(c, p, g) == t
  {
  }

  /** What the mix holds came from one side, and guards are the same on both. */
  lemma MixFrom(v: Vault, l: Projects, r: Projects, p: string, n: Name)
    requires Apart(v, l, r)
    ensures n in MixAt(v, l, r, p) ==>
      || (n in EntriesOf(l, p) && MixAt(v, l, r, p)[n] == l[p][n])
      || (n in EntriesOf(r, p) && MixAt(v, l, r, p)[n] == r[p][n])
    ensures n.GuardEntry? || n.IsGuardUnit() ==>
      Same(MixAt(v, l, r, p), EntriesOf(l, p), n) && Same(MixAt(v, l, r, p), EntriesOf(r, p), n)
    ensures n in EntriesOf(l, p) && !n.IsAlias() ==> n in MixAt(v, l, r, p)
    ensures n in EntriesOf(r, p) && !n.IsAlias() ==> n in MixAt(v, l, r, p)
  {
    hide Steady, AllLive;
    assert EditedApart(EntriesOf(v.projects, p), EntriesOf(l, p), EntriesOf(r, p));
    assert NameApart(EntriesOf(v.projects, p), EntriesOf(l, p), EntriesOf(r, p), n);
  }

  lemma LiveLeft(v: Vault, l: Projects, r: Projects, p: string, n: Name)
    requires Apart(v, l, r) && n in EntriesOf(l, p)
    ensures LiveAt(CatalogOf(v), p, EntriesOf(l, p), n) && FileKeys(EntriesOf(l, p)) == EntriesOf(l, p) && FiledRight(EntriesOf(l, p))
  {
    hide FileKeys, FiledRight;
    assert Live(CatalogOf(v), p, l[p]);
  }

  /** The mix is as live as the two sides. */
  lemma MixLive(v: Vault, l: Projects, r: Projects, p: string)
    requires Apart(v, l, r)
    ensures Live(CatalogOf(v), p, MixAt(v, l, r, p))
  {
    hide Apart, MixEntries, FileKeys;
    var mix := MixAt(v, l, r, p);
    forall n | n in mix ensures LiveAt(CatalogOf(v), p, mix, n)
      ensures n.PubEntry? ==> mix[n] == Private(n.pub)
    {
      MixLiveAt(v, l, r, p, n);
    }
    MixFiled(v, l, r, p);
  }

  lemma MixLiveAt(v: Vault, l: Projects, r: Projects, p: string, n: Name)
    requires Apart(v, l, r) && n in MixAt(v, l, r, p)
    ensures LiveAt(CatalogOf(v), p, MixAt(v, l, r, p), n)
    ensures n.PubEntry? ==> MixAt(v, l, r, p)[n] == Private(n.pub)
  {
    hide Apart, MixEntries, FileKeys, KeyCondemned, EntryNameOk;
    var mix := MixAt(v, l, r, p);
    JointSymmetric(v, l, r);
    MixFrom(v, l, r, p, n);
    if mix[n].Private? { MixFrom(v, l, r, p, GuardEntry(mix[n].pub)); }
    if n in EntriesOf(l, p) && mix[n] == l[p][n] {
      LiveLeft(v, l, r, p, n);
    } else {
      LiveLeft(v, r, l, p, n);
    }
  }

  lemma FiledAlready(e: Entries, a: Name)
    requires FileKeys(e) == e && a in e && NamesKey(a) && e[a].Private? && !GuardedHere(e, e[a])
    ensures PubEntry(e[a].pub) in e
  {
    assert PubEntry(e[a].pub) in FileKeys(e);
  }

  lemma AllFiled(e: Entries)
    requires forall a | a in e && NamesKey(a) && e[a].Private? && !GuardedHere(e, e[a]) :: PubEntry(e[a].pub) in e
    ensures FileKeys(e) == e
  {
    assert ToFile(e) == {};
  }

  lemma MixFiled(v: Vault, l: Projects, r: Projects, p: string)
    requires Apart(v, l, r)
    ensures FileKeys(MixAt(v, l, r, p)) == MixAt(v, l, r, p)
  {
    hide Apart, MixEntries, FileKeys;
    var mix := MixAt(v, l, r, p);
    JointSymmetric(v, l, r);
    forall a | a in mix && NamesKey(a) && mix[a].Private? && !GuardedHere(mix, mix[a]) ensures PubEntry(mix[a].pub) in mix {
      MixFrom(v, l, r, p, a);
      MixFrom(v, l, r, p, PubEntry(mix[a].pub));
      if a in EntriesOf(l, p) && mix[a] == l[p][a] {
        LiveLeft(v, l, r, p, a);
        FiledAlready(l[p], a);
      } else {
        LiveLeft(v, r, l, p, a);
        FiledAlready(r[p], a);
      }
    }
    AllFiled(mix);
  }

  lemma NotDoomed(v: Vault, l: Projects, r: Projects, p: string, e: Entries, n: Name)
    requires n in e && LiveAt(CatalogOf(v), p, e, n)
    requires !EventAt(Joint(v, l, r).aliases, AliasRecord(p, n, e[n])).flag
    ensures !DoomedAlone(Joint(v, l, r), p, n, e[n])
  {
  }

  /** The joint catalog takes from l what r removed, and nothing needs filing afterwards. */
  lemma SweepLeft(v: Vault, l: Projects, r: Projects, p: string)
    requires Apart(v, l, r) && p in l
    ensures Survivors(Joint(v, l, r), p, l[p]) == Trim(l[p], MixAt(v, l, r, p))
    ensures FileKeys(Trim(l[p], MixAt(v, l, r, p))) == Trim(l[p], MixAt(v, l, r, p))
  {
    hide Apart, Joint, DoomedAlone, FileKeys, MixEntries, LiveAt, Survivors;
    var t := Trim(l[p], MixAt(v, l, r, p));
    forall n | n in l[p]
      ensures n in t ==> !DoomedAlone(Joint(v, l, r), p, n, t[n]) && !GuardedHere(l[p], t[n])
      ensures n !in t ==> EventAt(Joint(v, l, r).aliases, AliasRecord(p, n, l[p][n])).flag
    {
      LeftStands(v, l, r, p, n);
      LiveLeft(v, l, r, p, n);
      LiveUnguarded(CatalogOf(v), p, l[p], n);
      if n in t { NotDoomed(v, l, r, p, l[p], n); }
    }
    SweepTo(Joint(v, l, r), p, l[p], t);
    forall a | a in t && NamesKey(a) && t[a].Private? && !GuardedHere(t, t[a]) ensures PubEntry(t[a].pub) in t {
      LiveLeft(v, l, r, p, a);
      LiveUnguarded(CatalogOf(v), p, l[p], a);
      FiledAlready(l[p], a);
      MixFrom(v, l, r, p, PubEntry(t[a].pub));
    }
    AllFiled(t);
  }

  lemma LiveUnguarded(c: Catalog, p: string, e: Entries, n: Name)
    requires n in e && LiveAt(c, p, e, n)
    ensures !GuardedHere(e, e[n]) && EntryNameOk(n)
  {
  }

  /** Everything either side holds, with the mix's own values where it has one. */
  ghost predicate Pooled(v: Vault, l: Projects, r: Projects, p: string, g: Entries) {
    && (forall n | n in MixAt(v, l, r, p) :: n in g && g[n] == MixAt(v, l, r, p)[n])
    && (forall n | n in g && n !in MixAt(v, l, r, p) ::
          (n in EntriesOf(l, p) && g[n] == l[p][n]) || (n in EntriesOf(r, p) && g[n] == r[p][n]))
  }

  /** The joint catalog leaves of the pool exactly the mix. */
  lemma SweepPool(v: Vault, l: Projects, r: Projects, p: string, g: Entries)
    requires Apart(v, l, r) && Pooled(v, l, r, p, g)
    ensures Survivors(Joint(v, l, r), p, g) == MixAt(v, l, r, p)
  {
    hide Apart, Joint, DoomedAlone, FileKeys, MixEntries, LiveAt, Survivors;
    var mix := MixAt(v, l, r, p);
    forall n | n in mix ensures !DoomedAlone(Joint(v, l, r), p, n, mix[n]) && !GuardedHere(g, mix[n]) {
      MixStands(v, l, r, p, n);
      MixLiveAt(v, l, r, p, n);
      LiveUnguarded(CatalogOf(v), p, mix, n);
      NotDoomed(v, l, r, p, mix, n);
      if mix[n].Private? { MixFrom(v, l, r, p, GuardEntry(mix[n].pub)); }
    }
    forall n | n in g && n !in mix ensures EventAt(Joint(v, l, r).aliases, AliasRecord(p, n, g[n])).flag {
      if n in EntriesOf(l, p) && g[n] == l[p][n] {
        LeftStands(v, l, r, p, n);
      } else {
        RightStands(v, l, r, p, n);
      }
    }
    SweepTo(Joint(v, l, r), p, g, mix);
  }

  lemma MixStands(v: Vault, l: Projects, r: Projects, p: string, n: Name)
    requires Apart(v, l, r) && n in MixAt(v, l, r, p)
    ensures !EventAt(Joint(v, l, r).aliases, AliasRecord(p, n, MixAt(v, l, r, p)[n])).flag
  {
    hide Apart, Joint, MixEntries;
    MixFrom(v, l, r, p, n);
    if n in EntriesOf(l, p) && MixAt(v, l, r, p)[n] == l[p][n] {
      LeftStands(v, l, r, p, n);
    } else {
      RightStands(v, l, r, p, n);
    }
  }

  // ----- the merge brings the other side's edits in -----

  /** What the table does with one ordinary name of the other side. */
  lemma DecideMixed(m: Mode, v: Vault, l: Projects, r: Projects, p: string, n: Name)
    requires Apart(v, l, r) && !n.IsGuardUnit()
    requires n in Trim(EntriesOf(r, p), MixAt(v, l, r, p))
    ensures var b, mix := EntriesOf(v.projects, p), MixAt(v, l, r, p);
      var tl, tr := Trim(EntriesOf(l, p), mix), Trim(EntriesOf(r, p), mix);
      && Decide(m, p, tl, tr, b, n) != Conflict
      && (Decide(m, p, tl, tr, b, n) == Take ==> mix[n] == tr[n])
      && (Decide(m, p, tl, tr, b, n) == Keep ==> n in tl && mix[n] == tl[n])
  {
    hide Steady, AllLive;
    var b, mix := EntriesOf(v.projects, p), MixAt(v, l, r, p);
    assert EditedApart(b, EntriesOf(l, p), EntriesOf(r, p));
    assert NameApart(b, EntriesOf(l, p), EntriesOf(r, p), n);
    if n !in EntriesOf(l, p) {
      RightUnguarded(v, l, r, p, n);
    }
  }

  lemma RightUnguarded(v: Vault, l: Projects, r: Projects, p: string, n: Name)
    requires Apart(v, l, r) && n in EntriesOf(r, p)
    ensures !GuardedHere(Trim(EntriesOf(l, p), MixAt(v, l, r, p)), r[p][n])
    ensures !GuardedHere(Trim(EntriesOf(r, p), MixAt(v, l, r, p)), r[p][n])
  {
    hide Apart, MixEntries;
    JointSymmetric(v, l, r);
    LiveLeft(v, r, l, p, n);
    if r[p][n].Private? { MixFrom(v, l, r, p, GuardEntry(r[p][n].pub)); }
  }

  lemma GuardMixed(m: Mode, v: Vault, l: Projects, r: Projects, p: string)
    requires Apart(v, l, r)
    ensures var b, mix := EntriesOf(v.projects, p), MixAt(v, l, r, p);
      DecideGuard(m, p, Trim(EntriesOf(l, p), mix), Trim(EntriesOf(r, p), mix), b) == Keep
  {
    hide Apart, MixEntries;
    MixFrom(v, l, r, p, GuardIdentity);
    MixFrom(v, l, r, p, GuardRecipient);
    MixFrom(v, l, r, p, GuardHolders);
  }

  /** Merging r, swept, into l, swept, gives the mix, without conflict. */
  lemma MergedMix(m: Mode, v: Vault, l: Projects, r: Projects, p: string)
    requires Apart(v, l, r)
    ensures var b, mix := EntriesOf(v.projects, p), MixAt(v, l, r, p);
      var tl, tr := Trim(EntriesOf(l, p), mix), Trim(EntriesOf(r, p), mix);
      Merged(m, p, tl, tr, b) == mix && Conflicts(m, p, tl, tr, b) == {} && (!Changes(m, p, tl, tr, b) ==> tl == mix)
  {
    hide Apart, MixAt, Merged, Conflicts, Trim, DecideGuard, Decide;
    var b, mix := EntriesOf(v.projects, p), MixAt(v, l, r, p);
    var tl, tr := Trim(EntriesOf(l, p), mix), Trim(EntriesOf(r, p), mix);
    GuardMixed(m, v, l, r, p);
    forall n ensures Same(Merged(m, p, tl, tr, b), mix, n) && n !in Conflicts(m, p, tl, tr, b) {
      MergedMixAt(m, v, l, r, p, n);
    }
    SameAll(Merged(m, p, tl, tr, b), mix);
    if !Changes(m, p, tl, tr, b) { UnchangedMerge(m, p, tl, tr, b); }
  }

  lemma UnchangedMerge(m: Mode, p: string, local: Entries, remote: Entries, base: Entries)
    requires !Changes(m, p, local, remote, base)
    ensures Merged(m, p, local, remote, base) == local
  {
    hide DecideGuard, Decide;
  }

  lemma MergedMixAt(m: Mode, v: Vault, l: Projects, r: Projects, p: string, n: Name)
    requires Apart(v, l, r)
    ensures var b, mix := EntriesOf(v.projects, p), MixAt(v, l, r, p);
      var tl, tr := Trim(EntriesOf(l, p), mix), Trim(EntriesOf(r, p), mix);
      Same(Merged(m, p, tl, tr, b), mix, n) && n !in Conflicts(m, p, tl, tr, b)
  {
    hide Apart, MixEntries, Decide, DecideGuard;
    var b, mix := EntriesOf(v.projects, p), MixAt(v, l, r, p);
    var tl, tr := Trim(EntriesOf(l, p), mix), Trim(EntriesOf(r, p), mix);
    GuardMixed(m, v, l, r, p);
    MixFrom(v, l, r, p, n);
    MixedName(b, EntriesOf(l, p), EntriesOf(r, p), n);
    if n in tr && !n.IsGuardUnit() { DecideMixed(m, v, l, r, p, n); }
    LeftOnly(v, l, r, p, n);
  }

  lemma SameAll(x: Entries, y: Entries)
    requires forall n :: Same(x, y, n)
    ensures x == y
  {
    forall n ensures (n in x <==> n in y) && (n in x ==> x[n] == y[n]) {
      assert Same(x, y, n);
    }
  }

  /** Of names only l holds, the mix has l's value. */
  lemma LeftOnly(v: Vault, l: Projects, r: Projects, p: string, n: Name)
    requires Apart(v, l, r)
    ensures n in EntriesOf(l, p) && n in MixAt(v, l, r, p) && n !in EntriesOf(r, p) ==> MixAt(v, l, r, p)[n] == l[p][n]
    ensures n in MixAt(v, l, r, p) && n !in EntriesOf(l, p) ==> n in EntriesOf(r, p) && MixAt(v, l, r, p)[n] == r[p][n]
  {
    hide Apart;
  }

  /** The write that follows is not refused: no filed key, guarded entry or guard is touched. */
  lemma MixKept(v: Vault, l: Projects, r: Projects, p: string)
    requires Apart(v, l, r)
    ensures Kept(Trim(EntriesOf(l, p), MixAt(v, l, r, p)), MixAt(v, l, r, p))
  {
    hide Apart, MixEntries;
    var mix := MixAt(v, l, r, p);
    forall n | n in EntriesOf(l, p) && n in mix ensures EntryKept(n, l[p][n], mix) {
      MixFrom(v, l, r, p, n);
      LiveLeft(v, l, r, p, n);
      if n.PubEntry? { MixLiveAt(v, l, r, p, n); }
    }
  }

  /** What one project's keyring becomes when r's project, swept, is merged into l's, swept. */
  lemma MergeProjectMix(m: Mode, policy: map<string, CacheMode>, v: Vault, l: Projects, r: Projects, p: string, ks: Projects)
    requires Apart(v, l, r) && !IsEvicted(policy, p) && p in r
    requires (p in ks <==> p in l) && (p in ks ==> ks[p] == Trim(l[p], MixAt(v, l, r, p)))
    ensures MergeProject(m, policy, Progress(ks, {}), p, Trim(r[p], MixAt(v, l, r, p)), EntriesOf(v.projects, p))
      == Ok(Progress(ks[p := MixAt(v, l, r, p)], {}))
  {
    hide Apart, MixEntries, Merged, Conflicts, Changes, FileKeys, Kept;
    var b, mix := EntriesOf(v.projects, p), MixAt(v, l, r, p);
    var tl, tr := Trim(EntriesOf(l, p), mix), Trim(r[p], mix);
    forall n | n in tr ensures EntryNameOk(n) && !GuardedHere(tr, tr[n]) {
      JointSymmetric(v, l, r);
      LiveLeft(v, r, l, p, n);
      LiveUnguarded(CatalogOf(v), p, r[p], n);
      RightUnguarded(v, l, r, p, n);
    }
    MixFiled(v, l, r, p);
    assert Named(p, {}) == {};
    if p in ks {
      MergedMix(m, v, l, r, p);
      MixKept(v, l, r, p);
      assert ks[p := tl] == ks;
      assert ks[p] == tl && Write(ks, p, mix, true) == Ok(ks[p := mix]);
      assert Conflicts(m, p, ks[p], tr, b) == {} && Named(p, Conflicts(m, p, ks[p], tr, b)) == {};
      assert {} + Named(p, Conflicts(m, p, ks[p], tr, b)) == {};
      if !Changes(m, p, ks[p], tr, b) {
        assert MergeProject(m, policy, Progress(ks, {}), p, tr, b) == Ok(Progress(ks, {}));
      } else {
        assert MergeProject(m, policy, Progress(ks, {}), p, tr, b) == Ok(Progress(ks[p := mix], {}));
      }
    } else {
      NewProject(v, l, r, p);
      assert Fresh(tr) == tr;
      assert Write(ks, p, mix, false) == Ok(ks[p := mix]);
    }
  }

  lemma NewProject(v: Vault, l: Projects, r: Projects, p: string)
    requires Apart(v, l, r) && p in r && p !in l
    ensures Trim(r[p], MixAt(v, l, r, p)) == MixAt(v, l, r, p)
  {
    hide Steady, AllLive;
    assert EditedApart(EntriesOf(v.projects, p), EntriesOf(l, p), EntriesOf(r, p));
    forall n | n in MixAt(v, l, r, p) ensures n in r[p] && r[p][n] == MixAt(v, l, r, p)[n] {
      assert NameApart(EntriesOf(v.projects, p), EntriesOf(l, p), EntriesOf(r, p), n);
    }
  }

  function TrimAll(ps: Projects, v: Vault, l: Projects, r: Projects): Projects {
    map p | p in ps :: Trim(ps[p], MixAt(v, l, r, p))
  }

  predicate NothingEvicted(policy: map<string, CacheMode>) {
    forall p | p in policy :: policy[p] != Evicted
  }

  /** Merging project by project gets part of the way to the mix. */
  function Partly(v: Vault, l: Projects, r: Projects, done: seq<string>): Projects {
    map p | p in l.Keys + (set q | q in done) :: if p in done then MixAt(v, l, r, p) else Trim(l[p], MixAt(v, l, r, p))
  }

  lemma NothingYet(v: Vault, l: Projects, r: Projects)
    ensures Partly(v, l, r, []) == TrimAll(l, v, l, r)
  {
    hide MixAt, Trim;
  }

  lemma PartlyOneMore(v: Vault, l: Projects, r: Projects, order: seq<string>)
    requires order != []
    ensures var front, p := order[..|order| - 1], order[|order| - 1];
      Partly(v, l, r, front)[p := MixAt(v, l, r, p)] == Partly(v, l, r, order)
    ensures var front, p := order[..|order| - 1], order[|order| - 1];
      p !in front ==> (p in Partly(v, l, r, front) <==> p in l)
    ensures var front, p := order[..|order| - 1], order[|order| - 1];
      p !in front && p in l ==> Partly(v, l, r, front)[p] == Trim(l[p], MixAt(v, l, r, p))
  {
    hide MixAt, Trim;
    assert order == order[..|order| - 1] + [order[|order| - 1]];
  }

  lemma {:induction false} MergeAllMix(m: Mode, policy: map<string, CacheMode>, v: Vault, l: Projects, r: Projects, order: seq<string>)
    requires Apart(v, l, r) && NothingEvicted(policy)
    requires forall p | p in order :: p in r
    requires forall i, j | 0 <= i < j < |order| :: order[i] != order[j]
    ensures MergeAll(m, policy, Progress(TrimAll(l, v, l, r), {}), TrimAll(r, v, l, r), v.projects, order)
      == (Progress(Partly(v, l, r, order), {}), None)
  {
    hide Apart, MixAt, MergeProject, Trim, Partly;
    if order == [] {
      NothingYet(v, l, r);
    } else {
      var front, p := order[..|order| - 1], order[|order| - 1];
      MergeAllMix(m, policy, v, l, r, front);
      PartlyOneMore(v, l, r, order);
      assert p in TrimAll(r, v, l, r) && TrimAll(r, v, l, r)[p] == Trim(r[p], MixAt(v, l, r, p));
      assert p !in front;
      MergeProjectMix(m, policy, v, l, r, p, Partly(v, l, r, front));
    }
  }

  /** Merging r, swept, into l, swept, gives the mix. */
  lemma MergeInMix(sort: Sorter, m: Mode, d: Device, v: Vault, l: Projects, r: Projects)
    requires Sorts(sort) && Apart(v, l, r) && NothingEvicted(d.policy)
    requires d.ks == TrimAll(l, v, l, r) && ProjectsIn(d.base) == v.projects
    ensures MergeIn(sort, m, d, TrimAll(r, v, l, r)) == (Progress(Mix(v.projects, l, r), {}), None)
  {
    hide Apart, MergeAll, MixEntries, Trim;
    var order := sort(TrimAll(r, v, l, r).Keys);
    assert Orders(order, TrimAll(r, v, l, r).Keys);
    MergeAllMix(m, d.policy, v, l, r, order);
    AllMerged(v, l, r, order);
  }

  /** Once every project of r is merged, the keyrings are the mix. */
  lemma AllMerged(v: Vault, l: Projects, r: Projects, order: seq<string>)
    requires Apart(v, l, r) && forall p :: p in order <==> p in r
    ensures Partly(v, l, r, order) == Mix(v.projects, l, r)
  {
    hide Apart, MixEntries, Trim;
    forall p | p in l && p !in r ensures Trim(l[p], MixAt(v, l, r, p)) == MixAt(v, l, r, p) {
      OldProject(v, l, r, p);
    }
  }

  lemma OldProject(v: Vault, l: Projects, r: Projects, p: string)
    requires Apart(v, l, r) && p in l && p !in r
    ensures Trim(l[p], MixAt(v, l, r, p)) == MixAt(v, l, r, p)
  {
    hide Apart;
    JointSymmetric(v, l, r);
    NewProject(v, r, l, p);
  }

  /** Merging what is already here changes nothing. */
  lemma {:induction false} MergeAllSame(m: Mode, policy: map<string, CacheMode>, ks: Projects, base: Projects, order: seq<string>)
    requires forall p | p in order :: p in ks
    requires forall p, n | p in ks && n in ks[p] :: EntryNameOk(n)
    ensures MergeAll(m, policy, Progress(ks, {}), ks, base, order) == (Progress(ks, {}), None)
  {
    hide MergeProject;
    if order != [] {
      MergeAllSame(m, policy, ks, base, order[..|order| - 1]);
      MergeSame(m, policy, ks, order[|order| - 1], EntriesOf(base, order[|order| - 1]));
    }
  }

  lemma MergeSame(m: Mode, policy: map<string, CacheMode>, ks: Projects, p: string, base: Entries)
    requires p in ks && forall n | n in ks[p] :: EntryNameOk(n)
    ensures MergeProject(m, policy, Progress(ks, {}), p, ks[p], base) == Ok(Progress(ks, {}))
  {
    hide EntryNameOk;
    assert Taken(m, p, ks[p], ks[p], base) == {} && Conflicts(m, p, ks[p], ks[p], base) == {};
    assert UncachedConflicts(ks[p], ks[p], base) == {};
    assert Named(p, {}) == {};
  }

  lemma MergeInSame(sort: Sorter, m: Mode, d: Device)
    requires Sorts(sort)
    requires forall p, n | p in d.ks && n in d.ks[p] :: EntryNameOk(n)
    ensures MergeIn(sort, m, d, d.ks) == (Progress(d.ks, {}), None)
  {
    hide MergeAll, EntryNameOk;
    assert Orders(sort(d.ks.Keys), d.ks.Keys);
    MergeAllSame(m, d.policy, d.ks, ProjectsIn(d.base), sort(d.ks.Keys));
  }

  // ----- collecting the inventory -----

  /** The pending revision holds l's edits; there is none when l has none. */
  ghost predicate StagedAs(v: Vault, l: Projects, pending: Option<Vault>) {
    if pending.Some? then pending.value.projects == l && pending.value.catalog == Some(With(CatalogOf(v), Edits(v, l)))
    else l == v.projects
  }

  lemma NoEdits(v: Vault)
    ensures Edits(v, v.projects) == map[]
  {
    assert Removed(v.projects, v.projects) == {} && Repointed(v.projects, v.projects) == {};
  }

  /** b, then l, then r. */
  function Layered(b: Projects, l: Projects, r: Projects): Projects {
    Overlay(Overlay(b, l), r)
  }

  lemma OverlayOnto(ps: Projects)
    ensures Overlay(map[], ps) == ps && Overlay(ps, ps) == ps
  {
    forall p | p in ps ensures EntriesOf(map[], p) + EntriesOf(ps, p) == ps[p] && EntriesOf(ps, p) + EntriesOf(ps, p) == ps[p] {
    }
    assert Overlay(map[], ps).Keys == ps.Keys && Overlay(ps, ps).Keys == ps.Keys;
  }

  lemma GatherOne(a: Vault)
    requires RealEvents(CatalogOf(a)) && a.catalog.Some?
    ensures Gather([a]) == Ok(Vault(a.projects, a.catalog, 0))
  {
    hide MergeCatalog, Overlay;
    assert [a][..0] == [];
    WithNothing(CatalogOf(a));
    MergeWith(CatalogOf(a), map[], map[]);
    OverlayOnto(a.projects);
    assert Gather([a]) == MergeSource(EMPTY_VAULT, a);
  }

  lemma GatherMore(sources: seq<Vault>, c: Catalog, d: map<AliasRecord, Event>, next: Vault, e: map<AliasRecord, Event>)
    requires RealEvents(c) && NextEvents(c, d) && NextEvents(c, e)
    requires forall r | r in d && r in e :: d[r] == e[r]
    requires Gather(sources).Ok? && Gather(sources).value.catalog == Some(With(c, d))
    requires next.catalog == Some(With(c, e))
    ensures Gather(sources + [next]) ==
      Ok(Vault(Overlay(Gather(sources).value.projects, next.projects), Some(With(c, d + e)), Gather(sources).value.generation))
  {
    hide MergeCatalog, Overlay, RealEvents, NextEvents, With;
    assert (sources + [next])[..|sources|] == sources;
    MergeWith(c, d, e);
  }

  lemma GatherStaged(v: Vault, l: Projects, r: Projects, pending: Option<Vault>, remote: Vault)
    requires Apart(v, l, r) && StagedAs(v, l, pending)
    requires remote.projects == r && remote.catalog == Some(With(CatalogOf(v), Edits(v, r)))
    ensures Gather(Present(Some(v)) + Present(pending) + Present(Some(remote)))
      == Ok(Vault(Layered(v.projects, l, r), Some(Joint(v, l, r)), 0))
  {
    hide AllLive, AliasesStand, Edits, Overlay, With, Gather;
    var c := CatalogOf(v);
    GatherOne(v);
    WithNothing(c);
    EditsApart(v, l, r);
    NextEdits(v, l);
    NextEdits(v, r);
    if pending.Some? {
      GatherMore([v], c, map[], pending.value, Edits(v, l));
      assert map[] + Edits(v, l) == Edits(v, l);
      assert [v] + [pending.value] == [v, pending.value];
      GatherMore([v, pending.value], c, Edits(v, l), remote, Edits(v, r));
      assert Present(Some(v)) + Present(pending) + Present(Some(remote)) == [v, pending.value] + [remote];
    } else {
      NoEdits(v);
      OverlayOnto(v.projects);
      GatherMore([v], c, map[], remote, Edits(v, r));
      assert Present(Some(v)) + Present(pending) + Present(Some(remote)) == [v] + [remote];
    }
  }

  lemma JoinKnown(m: map<AliasRecord, Event>, e: map<AliasRecord, Event>)
    requires forall k | k in e :: k in m && m[k] == e[k]
    ensures JoinEvents(m, e) == m
  {
  }

  lemma JoinEdits(m: map<AliasRecord, Event>, e: map<AliasRecord, Event>)
    requires forall k | k in e :: e[k].version == EventAt(m, k).version + 1
    ensures JoinEvents(m, e) == m + e
  {
  }

  /** The layers with the mix on top are a pool the sweep turns into the mix. */
  lemma LayersPooled(v: Vault, l: Projects, r: Projects, p: string)
    requires Apart(v, l, r)
    ensures Pooled(v, l, r, p, EntriesOf(v.projects, p) + EntriesOf(l, p) + EntriesOf(r, p) + MixAt(v, l, r, p))
  {
    hide Steady, AllLive, MixEntries;
    var b, mix := EntriesOf(v.projects, p), MixAt(v, l, r, p);
    assert EditedApart(b, EntriesOf(l, p), EntriesOf(r, p));
    var g := b + EntriesOf(l, p) + EntriesOf(r, p) + mix;
    forall n | n in g && n !in mix
      ensures (n in EntriesOf(l, p) && g[n] == l[p][n]) || (n in EntriesOf(r, p) && g[n] == r[p][n])
    {
      assert NameApart(b, EntriesOf(l, p), EntriesOf(r, p), n);
    }
  }

  lemma LayersAt(v: Vault, l: Projects, r: Projects)
    requires v.projects.Keys <= l.Keys
    ensures var g := Overlay(Layered(v.projects, l, r), Mix(v.projects, l, r));
      && g.Keys == l.Keys + r.Keys
      && forall p | p in g :: g[p] == EntriesOf(v.projects, p) + EntriesOf(l, p) + EntriesOf(r, p) + MixAt(v, l, r, p)
  {
    hide MixEntries, Overlay, EntriesOf;
    var b := v.projects;
    var mix := Mix(b, l, r);
    OverlayKeys(b, l);
    OverlayKeys(Overlay(b, l), r);
    OverlayKeys(Layered(b, l, r), mix);
    forall p | p in Overlay(Layered(b, l, r), mix)
      ensures Overlay(Layered(b, l, r), mix)[p] == EntriesOf(b, p) + EntriesOf(l, p) + EntriesOf(r, p) + MixAt(v, l, r, p)
    {
      OverlayAt(b, l, p);
      OverlayAt(Overlay(b, l), r, p);
      OverlayAt(Layered(b, l, r), mix, p);
      EntriesAre(mix, p);
    }
  }

  lemma EntriesAre(ps: Projects, p: string)
    ensures p in ps ==> EntriesOf(ps, p) == ps[p]
  {
  }

  lemma SweepLayers(v: Vault, l: Projects, r: Projects)
    requires Apart(v, l, r)
    ensures SweepVault(Joint(v, l, r), Overlay(Layered(v.projects, l, r), Mix(v.projects, l, r))) == Mix(v.projects, l, r)
  {
    hide Apart, Survivors, Joint, MixEntries, Pooled, Layered, Overlay, EntriesOf;
    var mix, g := Mix(v.projects, l, r), Overlay(Layered(v.projects, l, r), Mix(v.projects, l, r));
    BaseInside(v, l, r);
    LayersAt(v, l, r);
    forall p | p in g ensures Survivors(Joint(v, l, r), p, g[p]) == mix[p] {
      LayersPooled(v, l, r, p);
      SweepPool(v, l, r, p, g[p]);
    }
  }

  lemma BaseInside(v: Vault, l: Projects, r: Projects)
    requires Apart(v, l, r)
    ensures v.projects.Keys <= l.Keys && v.projects.Keys <= r.Keys && v.catalog.Some?
  {
    hide AllLive;
  }

  /** Before any pull, the catalog already knows both sides' edits. */
  lemma CombinedCatalog(v: Vault, l: Projects, r: Projects, pending: Option<Vault>, remote: Vault)
    requires Apart(v, l, r) && StagedAs(v, l, pending)
    requires remote.projects == r && remote.catalog == Some(With(CatalogOf(v), Edits(v, r)))
    ensures Collect(Some(v), pending, Some(remote), l, None).Ok?
    ensures CatalogOf(Collect(Some(v), pending, Some(remote), l, None).value) == Joint(v, l, r)
  {
    hide Gather, Edits, Layered, Overlay, SweepVault, Joint, With, Apart;
    GatherStaged(v, l, r, pending, remote);
    var previous := if pending.Some? then pending.value else v;
    NoEdits(previous);
    NoEditsOf(previous, l);
    JoinKnown(Joint(v, l, r).aliases, map[]);
  }

  lemma NoEditsOf(v: Vault, l: Projects)
    requires v.projects == l
    ensures Edits(v, l) == map[]
  {
    NoEdits(v);
  }

  /** With the mix in the keyrings, the inventory is the mix and both sides' edits. */
  lemma MixedInventory(v: Vault, l: Projects, r: Projects, pending: Option<Vault>, remote: Vault)
    requires Apart(v, l, r) && StagedAs(v, l, pending)
    requires remote.projects == r && remote.catalog == Some(With(CatalogOf(v), Edits(v, r)))
    ensures Collect(Some(v), pending, Some(remote), Mix(v.projects, l, r), None)
      == Ok(Vault(Mix(v.projects, l, r), Some(Joint(v, l, r)), 0))
  {
    hide Gather, Edits, Layered, Overlay, SweepVault, Mix, Apart;
    GatherStaged(v, l, r, pending, remote);
    SweepLayers(v, l, r);
    BaseInside(v, l, r);
    var previous := if pending.Some? then pending.value else v;
    if pending.None? {
      NoEdits(v);
      WithNothing(CatalogOf(v));
    }
    assert forall p: string :: EditedApart(EntriesOf(v.projects, p), EntriesOf(l, p), EntriesOf(r, p)) by { ApartProjects(v, l, r); }
    EditsOfMix(v, l, r, previous);
    JoinKnown(Joint(v, l, r).aliases, Edits(v, r));
  }

  lemma ApartProjects(v: Vault, l: Projects, r: Projects)
    requires Apart(v, l, r)
    ensures forall p: string :: EditedApart(EntriesOf(v.projects, p), EntriesOf(l, p), EntriesOf(r, p))
  {
    hide AllLive, Steady, EditedApart;
  }

  /** l's edits against the base alone. */
  lemma ApartFromBase(v: Vault, l: Projects, r: Projects)
    requires Apart(v, l, r)
    ensures Apart(v, l, v.projects) && Mix(v.projects, l, v.projects) == l
    ensures Joint(v, l, v.projects) == With(CatalogOf(v), Edits(v, l))
  {
    hide AllLive, AliasesStand, Edits, EditedApart, MixEntries, With;
    NoEdits(v);
    assert Edits(v, l) + map[] == Edits(v, l);
    forall p: string ensures EditedApart(EntriesOf(v.projects, p), EntriesOf(l, p), EntriesOf(v.projects, p)) {
      OneSideApart(EntriesOf(v.projects, p), EntriesOf(l, p), EntriesOf(r, p));
    }
    forall p | p in l ensures MixEntries(EntriesOf(v.projects, p), l[p], EntriesOf(v.projects, p)) == l[p] {
      MixWithBase(EntriesOf(v.projects, p), l[p]);
    }
    assert Mix(v.projects, l, v.projects).Keys == l.Keys;
  }

  lemma OneSideApart(b: Entries, l: Entries, r: Entries)
    requires EditedApart(b, l, r)
    ensures EditedApart(b, l, b)
  {
    forall n: Name ensures NameApart(b, l, b, n) {
      assert NameApart(b, l, r, n);
    }
  }

  lemma MixWithBase(b: Entries, l: Entries)
    ensures MixEntries(b, l, b) == l
  {
  }

  /** Staging captures exactly the local edits. */
  lemma StageEdits(v: Vault, l: Projects, r: Projects, d: Device)
    requires Apart(v, l, r) && NothingEvicted(d.policy)
    requires d.ks == l && d.base == Some(v) && d.pending == None
    ensures var next := Stage(d);
      next == d.(pending := next.pending) && StagedAs(v, l, next.pending)
  {
    hide Collect, Apart, Edits, With, Mix;
    BaseInside(v, l, r);
    StagedInventory(v, l, r);
    var inventory := Vault(l, Some(With(CatalogOf(v), Edits(v, l))), 0);
    AllKept(d.policy, inventory, d.pending, d.ks);
  }

  lemma AllKept(policy: map<string, CacheMode>, v: Vault, previous: Option<Vault>, ks: Projects)
    requires NothingEvicted(policy)
    ensures BaseCopy(policy, v) == v && PendingCopy(policy, v, previous, ks) == v
  {
    assert BaseCopy(policy, v).projects == v.projects && PendingCopy(policy, v, previous, ks).projects == v.projects;
  }

  lemma StagedInventory(v: Vault, l: Projects, r: Projects)
    requires Apart(v, l, r)
    ensures Collect(Some(v), None, None, l, None) == Ok(Vault(l, Some(With(CatalogOf(v), Edits(v, l))), 0))
  {
    hide Gather, Edits, SweepVault, Mix, Overlay, AllLive, AliasesStand, EditedApart;
    GatherOne(v);
    assert Present(Some(v)) + Present(None) + Present(None) == [v];
    NextEdits(v, l);
    JoinEdits(CatalogOf(v).aliases, Edits(v, l));
    ApartFromBase(v, l, r);
    SweepLayers(v, l, v.projects);
    OverlayTwice(v.projects, l);
  }

  lemma TwoLayers(b: Entries, l: Entries)
    ensures b + l + b + l == b + l
  {
  }

  lemma OverlayTwice(b: Projects, l: Projects)
    requires b.Keys <= l.Keys
    ensures Overlay(Overlay(Overlay(b, l), b), l) == Overlay(b, l)
  {
    hide Overlay, EntriesOf;
    var x, y := Overlay(Overlay(Overlay(b, l), b), l), Overlay(b, l);
    OverlayKeys(b, l);
    OverlayKeys(y, b);
    OverlayKeys(Overlay(y, b), l);
    forall p | p in x ensures x[p] == y[p] {
      OverlayAt(b, l, p);
      OverlayAt(y, b, p);
      OverlayAt(Overlay(y, b), l, p);
      TwoLayers(EntriesOf(b, p), EntriesOf(l, p));
    }
  }

  // ----- one sync -----

  /** A whole sync whose upload, if any, is stored: the device, the server's vault, and the verdict. */
  function SyncOver(sort: Sorter, m: Mode, d: Device, server: Copy): (Device, Copy, Verdict)
    requires Sorts(sort)
  {
    var (ready, stop) := Recover(sort, m, Stage(d));
    if stop.Some? then (ready, server, GaveUp(stop.value)) else
    var (next, outcome) := Attempt(sort, m, ready, Some(server));
    match outcome
    case Settled => (next, server, Done)
    case Ready(put) =>
      var stored := Copy(server.version + 1, put.vault);
      (Acknowledge(next, stored), stored, Done)
    case _ => (next, server, GaveUp(outcome))
  }

  /** It is the sync of Account, over one exchange. */
  lemma SyncOverIsSync(sort: Sorter, m: Mode, d: Device, server: Copy)
    requires Sorts(sort)
    ensures var (next, _, verdict) := SyncOver(sort, m, d, server);
      Sync(sort, m, Stage(d), [Exchange(Some(server), Stored(server.version + 1))]) == (next, verdict)
  {
    hide Stage, Recover, Attempt, Acknowledge;
  }

  /** A device with l in its keyrings over the acknowledged vault v, and a server that holds r's edits of v. */
  ghost predicate Meets(v: Vault, l: Projects, r: Projects, d: Device, server: Copy) {
    && Apart(v, l, r) && NothingEvicted(d.policy)
    && d.ks == l && d.base == Some(v) && d.pending == None && d.conflicts == {}
    && server.vault.projects == r && server.vault.catalog == Some(With(CatalogOf(v), Edits(v, r)))
    && server.vault.generation >= d.pin.generation
    && (server.version == d.pin.version ==> r == v.projects)
  }

  lemma SweepBoth(v: Vault, l: Projects, r: Projects)
    requires Apart(v, l, r)
    ensures ApplyKeyState(l, Joint(v, l, r)) == TrimAll(l, v, l, r)
    ensures SweepVault(Joint(v, l, r), r) == TrimAll(r, v, l, r)
    ensures ApplyKeyState(Mix(v.projects, l, r), Joint(v, l, r)) == Mix(v.projects, l, r)
  {
    hide Apart, Survivors, Joint, MixEntries, FileKeys, Trim, Pooled;
    forall p | p in l ensures SweptKeyring(Joint(v, l, r), p, l[p]) == Trim(l[p], MixAt(v, l, r, p)) {
      SweepLeft(v, l, r, p);
    }
    JointSymmetric(v, l, r);
    forall p | p in r ensures Survivors(Joint(v, l, r), p, r[p]) == Trim(r[p], MixAt(v, l, r, p)) {
      SweepLeft(v, r, l, p);
      MixAtSymmetric(v, l, r, p);
    }
    forall p | p in l.Keys + r.Keys ensures Survivors(Joint(v, l, r), p, MixAt(v, l, r, p)) == MixAt(v, l, r, p) {
      PooledItself(v, l, r, p);
      SweepPool(v, l, r, p, MixAt(v, l, r, p));
    }
  }

  lemma MixAtSymmetric(v: Vault, l: Projects, r: Projects, p: string)
    requires Apart(v, l, r)
    ensures MixAt(v, l, r, p) == MixAt(v, r, l, p)
  {
    hide MixEntries, EditedApart;
    ApartProjects(v, l, r);
    MixSymmetric(EntriesOf(v.projects, p), EntriesOf(l, p), EntriesOf(r, p));
  }

  lemma PooledItself(v: Vault, l: Projects, r: Projects, p: string)
    ensures Pooled(v, l, r, p, MixAt(v, l, r, p))
  {
    hide MixEntries;
  }

  lemma NamesOk(v: Vault, l: Projects, r: Projects)
    requires Apart(v, l, r)
    ensures forall p, n | p in l && n in l[p] :: EntryNameOk(n)
    ensures forall p, n | p in Mix(v.projects, l, r) && n in Mix(v.projects, l, r)[p] :: EntryNameOk(n)
  {
    hide Apart, MixEntries, EntryNameOk, KeyCondemned;
    forall p, n | p in l && n in l[p] ensures EntryNameOk(n) {
      LiveLeft(v, l, r, p, n);
      LiveUnguarded(CatalogOf(v), p, l[p], n);
    }
    forall p, n | p in Mix(v.projects, l, r) && n in Mix(v.projects, l, r)[p] ensures EntryNameOk(n) {
      MixLiveAt(v, l, r, p, n);
      LiveUnguarded(CatalogOf(v), p, MixAt(v, l, r, p), n);
    }
  }

  /** After the pull the keyrings hold the mix, whether or not anything had to be merged. */
  lemma PullMix(sort: Sorter, m: Mode, v: Vault, l: Projects, r: Projects, d: Device, server: Copy)
    requires Sorts(sort) && Meets(v, l, r, d.(pending := None), server) && StagedAs(v, l, d.pending)
    ensures Pull(sort, m, d, server) == (d.(ks := Mix(v.projects, l, r)), None)
  {
    hide Apart, Collect, MergeIn, ApplyKeyState, SweepVault, Joint, Mix, With, TrimAll, Edits;
    CombinedCatalog(v, l, r, d.pending, server.vault);
    SweepBoth(v, l, r);
    var swept := d.(ks := ApplyKeyState(d.ks, Joint(v, l, r)));
    MergeInMix(sort, m, swept, v, l, r);
    if server.version == d.pin.version {
      UnchangedTrim(v, l);
    }
  }

  lemma UnchangedTrim(v: Vault, l: Projects)
    requires Apart(v, l, v.projects)
    ensures TrimAll(l, v, l, v.projects) == Mix(v.projects, l, v.projects)
  {
    hide Apart;
    ApartFromBase(v, l, v.projects);
    forall p | p in l ensures Trim(l[p], MixAt(v, l, v.projects, p)) == l[p] {
      assert Mix(v.projects, l, v.projects)[p] == l[p];
    }
  }

  /** The server's vault after the sync: as it was if it holds the mix already, else the mix as the next version. */
  function StoredMix(v: Vault, l: Projects, r: Projects, d: Device, server: Copy): Copy {
    var inventory := Vault(Mix(v.projects, l, r), Some(Joint(v, l, r)), 0);
    if SameInventory(inventory, Some(server.vault)) then server
    else Copy(server.version + 1, inventory.(generation := NextGeneration(d.pin, Some(server.vault))))
  }

  lemma ComposeMix(sort: Sorter, m: Mode, v: Vault, l: Projects, r: Projects, d: Device, server: Copy)
    requires Sorts(sort) && StagedAs(v, l, d.pending) && d.ks == Mix(v.projects, l, r) && d.base == Some(v)
    requires Meets(v, l, r, d.(ks := l, pending := None), server)
    ensures var (next, outcome) := Compose(sort, m, d, Some(server));
      var stored := StoredMix(v, l, r, d, server);
      if outcome.Settled? then
        stored == server && next == Acknowledge(d, server)
      else
        (outcome == Ready(Upload(server.version, stored.vault)) && stored.version == server.version + 1
         && next == d.(pending := next.pending))
  {
    hide Apart, Collect, MergeIn, ApplyKeyState, Joint, Mix, With, Edits, PendingCopy, BaseCopy, EntryNameOk;
    MixedInventory(v, l, r, d.pending, server.vault);
    SweepBoth(v, l, r);
    NamesOk(v, l, r);
    MergeInSame(sort, m, d);
  }

  /** One sync leaves both the device and the server with the mix, without conflict. */
  lemma OneSync(sort: Sorter, m: Mode, v: Vault, l: Projects, r: Projects, d: Device, server: Copy)
    requires Sorts(sort) && Meets(v, l, r, d, server)
    ensures var stored := StoredMix(v, l, r, d, server);
      SyncOver(sort, m, d, server) ==
        (Device(Mix(v.projects, l, r), Some(stored.vault), None, d.policy, Pin(stored.version, stored.vault.generation), {}), stored, Done)
  {
    hide Apart, Stage, MergeIn, Pull, Compose, Mix, Edits, With, EntryNameOk, StoredMix, NothingEvicted;
    StageEdits(v, l, r, d);
    var staged := Stage(d);
    NamesOk(v, l, r);
    MergeInSame(sort, m, staged);
    PullMix(sort, m, v, l, r, staged, server);
    ComposeMix(sort, m, v, l, r, staged.(ks := Mix(v.projects, l, r)), server);
    AllKept(d.policy, server.vault, None, d.ks);
    AllKept(d.policy, StoredMix(v, l, r, d, server).vault, None, d.ks);
    StoredByPin(v, l, r, d, staged.(ks := Mix(v.projects, l, r)), server);
  }

  lemma StoredByPin(v: Vault, l: Projects, r: Projects, d: Device, e: Device, server: Copy)
    requires d.pin == e.pin
    ensures StoredMix(v, l, r, d, server) == StoredMix(v, l, r, e, server)
  {
  }

  // ----- two devices -----

  /** A mix carries each side's edits and leaves the rest as it was. */
  lemma MixCarriesEdits(v: Vault, l: Projects, r: Projects, p: string, n: Name)
    requires Apart(v, l, r)
    ensures var b, mix := EntriesOf(v.projects, p), EntriesOf(Mix(v.projects, l, r), p);
      && (!Same(b, EntriesOf(l, p), n) ==> Same(mix, EntriesOf(l, p), n))
      && (!Same(b, EntriesOf(r, p), n) ==> Same(mix, EntriesOf(r, p), n))
      && (Same(b, EntriesOf(l, p), n) && Same(b, EntriesOf(r, p), n) ==> Same(mix, b, n))
  {
    hide AllLive, Steady, MixEntries;
    assert EditedApart(EntriesOf(v.projects, p), EntriesOf(l, p), EntriesOf(r, p));
    assert NameApart(EntriesOf(v.projects, p), EntriesOf(l, p), EntriesOf(r, p), n);
    MixedName(EntriesOf(v.projects, p), EntriesOf(l, p), EntriesOf(r, p), n);
    assert p !in l && p !in r ==> MixAt(v, l, r, p) == map[] by { NothingMixed(); }
  }

  lemma NothingMixed()
    ensures forall b: Entries :: MixEntries(b, map[], map[]) == map[]
  {
  }

  /** l's edits acknowledged, the mix is r's edits over them. */
  lemma ApartNext(v: Vault, l: Projects, r: Projects, next: Vault)
    requires Apart(v, l, r)
    requires next.projects == l && next.catalog == Some(With(CatalogOf(v), Edits(v, l)))
    ensures Apart(next, l, Mix(v.projects, l, r)) && Mix(l, l, Mix(v.projects, l, r)) == Mix(v.projects, l, r)
  {
    hide Apart, With, Edits, MixEntries, Mix;
    SteadyNext(v, l, r, next);
    LiveNext(v, l, r, next);
    BaseInside(v, l, r);
    var mix := Mix(v.projects, l, r);
    forall p: string
      ensures EditedApart(EntriesOf(l, p), EntriesOf(l, p), EntriesOf(mix, p))
      ensures MixEntries(EntriesOf(l, p), EntriesOf(l, p), EntriesOf(mix, p)) == EntriesOf(mix, p)
    {
      MixOverLeft(v, l, r, p);
    }
    MixKeys(v.projects, l, r);
    assert Apart(next, l, mix) by { IsApart(next, l, mix); }
    MixAgain(l, mix);
  }

  lemma MixKeys(b: Projects, l: Projects, r: Projects)
    ensures Mix(b, l, r).Keys == l.Keys + r.Keys
  {
    hide MixEntries;
  }

  lemma MixAgain(l: Projects, mix: Projects)
    requires l.Keys <= mix.Keys
    requires forall p: string :: MixEntries(EntriesOf(l, p), EntriesOf(l, p), EntriesOf(mix, p)) == EntriesOf(mix, p)
    ensures Mix(l, l, mix) == mix
  {
    hide MixEntries;
  }

  lemma IsApart(v: Vault, l: Projects, r: Projects)
    requires Steady(v) && AllLive(CatalogOf(v), l) && AllLive(CatalogOf(v), r)
    requires v.projects.Keys <= l.Keys && v.projects.Keys <= r.Keys
    requires forall p: string :: EditedApart(EntriesOf(v.projects, p), EntriesOf(l, p), EntriesOf(r, p))
    ensures Apart(v, l, r)
  {
    hide AllLive, EditedApart;
  }

  lemma MixOverLeft(v: Vault, l: Projects, r: Projects, p: string)
    requires Apart(v, l, r)
    ensures var mix := EntriesOf(Mix(v.projects, l, r), p);
      EditedApart(EntriesOf(l, p), EntriesOf(l, p), mix) && MixEntries(EntriesOf(l, p), EntriesOf(l, p), mix) == mix
  {
    hide Apart, MixEntries;
    var mix := EntriesOf(Mix(v.projects, l, r), p);
    NothingMixed();
    forall n: Name ensures NameApart(EntriesOf(l, p), EntriesOf(l, p), mix, n) {
      MixFrom(v, l, r, p, n);
    }
    MixOnto(EntriesOf(l, p), mix);
  }

  lemma MixOnto(l: Entries, mix: Entries)
    ensures MixEntries(l, l, mix) == mix
  {
    forall n ensures Same(MixEntries(l, l, mix), mix, n) {
    }
    SameAll(MixEntries(l, l, mix), mix);
  }

  lemma LiveWith(c: Catalog, e: map<AliasRecord, Event>, p: string, entries: Entries)
    requires Live(c, p, entries)
    ensures Live(With(c, e), p, entries)
  {
    hide FileKeys, FiledRight, EntryNameOk;
  }

  lemma LiveNext(v: Vault, l: Projects, r: Projects, next: Vault)
    requires Apart(v, l, r) && next.catalog == Some(With(CatalogOf(v), Edits(v, l)))
    ensures AllLive(CatalogOf(next), l) && AllLive(CatalogOf(next), Mix(v.projects, l, r))
  {
    hide Apart, Live, With, Edits, MixEntries;
    forall p | p in l ensures Live(CatalogOf(next), p, l[p]) {
      LeftLive(v, l, r, p);
      LiveWith(CatalogOf(v), Edits(v, l), p, l[p]);
    }
    forall p | p in Mix(v.projects, l, r) ensures Live(CatalogOf(next), p, Mix(v.projects, l, r)[p]) {
      MixLive(v, l, r, p);
      LiveWith(CatalogOf(v), Edits(v, l), p, MixAt(v, l, r, p));
    }
  }

  lemma LeftLive(v: Vault, l: Projects, r: Projects, p: string)
    requires Apart(v, l, r) && p in l
    ensures Live(CatalogOf(v), p, l[p])
  {
    hide Live, EditedApart;
  }

  lemma SteadyNext(v: Vault, l: Projects, r: Projects, next: Vault)
    requires Apart(v, l, r)
    requires next.projects == l && next.catalog == Some(With(CatalogOf(v), Edits(v, l)))
    ensures Steady(next)
  {
    hide AllLive, AliasesStand, Edits, Apart;
    LiveNext(v, l, r, next);
    NextEdits(v, l);
    BaseSteady(v, l, r);
    forall k | k in Edits(v, l) ensures k.name.IsAlias() {
      EditOf(v, l, k);
    }
    StandNext(v, l, r, next);
  }

  lemma BaseSteady(v: Vault, l: Projects, r: Projects)
    requires Apart(v, l, r)
    ensures RealEvents(CatalogOf(v)) && AliasRecordsProper(CatalogOf(v)) && v.catalog.Some?
  {
    hide AllLive, AliasesStand, EditedApart, RealEvents, AliasRecordsProper;
  }

  lemma StandNext(v: Vault, l: Projects, r: Projects, next: Vault)
    requires Apart(v, l, r) && next.catalog == Some(With(CatalogOf(v), Edits(v, l)))
    ensures AliasesStand(CatalogOf(next), l)
  {
    hide Apart, Edits, MixEntries, With;
    ApartFromBase(v, l, r);
    forall p, n | p in l && n in l[p] ensures !EventAt(CatalogOf(next).aliases, AliasRecord(p, n, l[p][n])).flag {
      LeftStands(v, l, v.projects, p, n);
      assert n in Mix(v.projects, l, v.projects)[p];
    }
  }

  /** A device in use over an acknowledged vault, with nothing staged and nothing evicted. */
  ghost predicate Idle(d: Device, version: nat, v: Vault, ks: Projects) {
    d == Device(ks, Some(v), None, d.policy, Pin(version, v.generation), {}) && NothingEvicted(d.policy)
  }

  /**
   Two devices edit disjoint sets of names from a common acknowledged vault, then sync in turn: the first,
   the second, the first again. All three succeed without conflict, and both devices and the server end with
   the same entries: the mix, which carries both sets of edits.
   */
  lemma Converge(sort: Sorter, m: Mode, version: nat, v: Vault, la: Projects, lb: Projects, a: Device, b: Device)
    requires Sorts(sort) && Apart(v, la, lb) && Idle(a, version, v, la) && Idle(b, version, v, lb)
    ensures
      var (a1, s1, first) := SyncOver(sort, m, a, Copy(version, v));
      var (b1, s2, second) := SyncOver(sort, m, b, s1);
      var (a2, s3, third) := SyncOver(sort, m, a1, s2);
      && first == Done && second == Done && third == Done
      && a2.ks == b1.ks == s3.vault.projects == Mix(v.projects, la, lb)
      && s3 == s2 && a2.base == b1.base == Some(s3.vault) && a2.pin == b1.pin
      && a2.conflicts == b1.conflicts == {} && a2.pending == b1.pending == None
  {
    hide Apart, Mix, Edits, SyncOver, NothingEvicted, With;
    var (a1, s1, first) := SyncOver(sort, m, a, Copy(version, v));
    FirstSync(sort, m, version, v, la, lb, a);
    JointSymmetric(v, la, lb);
    OneSync(sort, m, v, lb, la, b, s1);
    var (b1, s2, second) := SyncOver(sort, m, b, s1);
    LastSync(sort, m, v, la, lb, a1, s1, b, s2);
  }

  lemma FirstSync(sort: Sorter, m: Mode, version: nat, v: Vault, la: Projects, lb: Projects, a: Device)
    requires Sorts(sort) && Apart(v, la, lb) && Idle(a, version, v, la)
    ensures var (a1, s1, first) := SyncOver(sort, m, a, Copy(version, v));
      && first == Done
      && a1 == Device(la, Some(s1.vault), None, a.policy, Pin(s1.version, s1.vault.generation), {})
      && s1.vault.projects == la && s1.vault.catalog == Some(With(CatalogOf(v), Edits(v, la)))
      && s1.vault.generation >= v.generation && (s1.version == version ==> la == v.projects)
  {
    hide Apart, Mix, Edits, SyncOver, NothingEvicted, With, Joint;
    BaseInside(v, la, lb);
    ApartFromBase(v, la, lb);
    NoEdits(v);
    WithNothing(CatalogOf(v));
    OneSync(sort, m, v, la, v.projects, a, Copy(version, v));
  }

  lemma LastSync(sort: Sorter, m: Mode, v: Vault, la: Projects, lb: Projects, a1: Device, s1: Copy, b: Device, s2: Copy)
    requires Sorts(sort) && Apart(v, la, lb) && NothingEvicted(a1.policy)
    requires a1 == Device(la, Some(s1.vault), None, a1.policy, Pin(s1.version, s1.vault.generation), {})
    requires s1.vault.projects == la && s1.vault.catalog == Some(With(CatalogOf(v), Edits(v, la)))
    requires s2 == StoredMix(v, lb, la, b, s1)
    ensures SyncOver(sort, m, a1, s2) ==
      (Device(Mix(v.projects, la, lb), Some(s2.vault), None, a1.policy, Pin(s2.version, s2.vault.generation), {}), s2, Done)
  {
    hide Apart, Mix, Edits, SyncOver, NothingEvicted, With;
    var mix := Mix(v.projects, la, lb);
    BaseInside(v, la, lb);
    JointSymmetric(v, la, lb);
    ApartProjects(v, la, lb);
    EditsOfMix(v, la, lb, s1.vault);
    ApartNext(v, la, lb, s1.vault);
    NoEditsOf(s1.vault, la);
    WithBoth(CatalogOf(v), Edits(v, la), Edits(v, lb));
    OneSync(sort, m, s1.vault, la, mix, a1, s2);
  }

  lemma WithBoth(c: Catalog, d: map<AliasRecord, Event>, e: map<AliasRecord, Event>)
    ensures With(With(c, d), e) == With(c, d + e) && map[] + e == e
  {
    assert c.aliases + d + e == c.aliases + (d + e);
  }
}
