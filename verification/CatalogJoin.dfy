/**
 Merging catalogs. Alias and guard events carry logical versions, tombstones and retirements only
 accumulate, and revisions are immutable, so the merge is a join: neither the order of the sources
 nor repeating one matters.
 */
module CatalogJoin {
  import opened Wrappers
  import opened KeyVault

  const CAPTURE_CONFLICT := "conflicting immutable project revision"
  const ARTIFACT_CONFLICT := "conflicting immutable file revision"

  /** A later version wins; at the same version, removal or protection wins. */
  predicate Supersedes(e: Event, was: Event) {
    e.version > was.version || (e.version == was.version && e.flag)
  }

  /** One event into a map of events, as every event enters. */
  function Admit<K>(m: map<K, Event>, k: K, e: Event): map<K, Event> {
    if Supersedes(e, EventAt(m, k)) then m[k := e] else m
  }

  function JoinEvents<K>(a: map<K, Event>, b: map<K, Event>): map<K, Event> {
    map k | k in a.Keys + b.Keys && (k in a || Supersedes(b[k], NO_EVENT)) ::
      if k in b && Supersedes(b[k], EventAt(a, k)) then b[k] else a[k]
  }

  /** Immutable revisions agree wherever both maps hold one. */
  predicate Agree<V(==)>(a: map<string, V>, b: map<string, V>) {
    forall k | k in a && k in b :: a[k] == b[k]
  }

  function MergeCatalog(a: Catalog, b: Catalog): Result<Catalog> {
    if !Agree(a.captures, b.captures) then Err(CAPTURE_CONFLICT)
    else if !Agree(a.artifacts, b.artifacts) then Err(ARTIFACT_CONFLICT)
    else Ok(Catalog(JoinEvents(a.aliases, b.aliases), JoinEvents(a.guards, b.guards),
                    a.deleted + b.deleted, a.retired + b.retired,
                    a.captures + b.captures, a.artifacts + b.artifacts))
  }

  function GatherCatalogs(cs: seq<Catalog>): Result<Catalog> {
    if cs == [] then Ok(EMPTY_CATALOG) else
    match GatherCatalogs(cs[..|cs| - 1])
    case Err(m) => Err(m)
    case Ok(c) => MergeCatalog(c, cs[|cs| - 1])
  }

  // ----- what a join is, without any order -----

  /** The versions' order: later, or as late and with the flag. */
  predicate AtMost(a: Event, b: Event) {
    a.version < b.version || (a.version == b.version && (a.flag ==> b.flag))
  }

  /** e is the greatest event of any source for k, or no event when no source has a real one. */
  ghost predicate Greatest<K(!new)>(ms: set<map<K, Event>>, k: K, e: Event) {
    && (forall m | m in ms && k in m :: AtMost(m[k], e))
    && (e == NO_EVENT || exists m | m in ms :: k in m && m[k] == e)
  }

  lemma GreatestUnique<K(!new)>(ms: set<map<K, Event>>, k: K, d: Event, e: Event)
    requires Greatest(ms, k, d) && Greatest(ms, k, e)
    ensures d == e
  {
  }

  lemma GreatestExtends<K(!new)>(ms: set<map<K, Event>>, a: map<K, Event>, b: map<K, Event>, k: K)
    requires Greatest(ms, k, EventAt(a, k)) && (k in a ==> a[k] != NO_EVENT)
    ensures Greatest(ms + {b}, k, EventAt(JoinEvents(a, b), k))
    ensures k in JoinEvents(a, b) ==> JoinEvents(a, b)[k] != NO_EVENT
  {
    var j := JoinEvents(a, b);
    if k in b && Supersedes(b[k], EventAt(a, k)) {
      assert b in ms + {b} && b[k] == EventAt(j, k);
    } else if EventAt(a, k) != NO_EVENT {
      var m :| m in ms && k in m && m[k] == EventAt(a, k);
      assert m in ms + {b};
    }
  }

  function AliasesOf(cs: seq<Catalog>): set<map<AliasRecord, Event>> { set c | c in cs :: c.aliases }

  function GuardsOf(cs: seq<Catalog>): set<map<KeyRecord, Event>> { set c | c in cs :: c.guards }

  /** Two sources hold different revisions under one id. */
  ghost predicate Conflict(cs: seq<Catalog>) {
    exists a, b | a in cs && b in cs :: !Agree(a.captures, b.captures) || !Agree(a.artifacts, b.artifacts)
  }

  /** c is the join of the sources, said without mentioning their order. */
  ghost predicate JoinOf(cs: seq<Catalog>, c: Catalog) {
    && EventsJoined(AliasesOf(cs), c.aliases)
    && EventsJoined(GuardsOf(cs), c.guards)
    && KeysJoined(set s | s in cs :: s.deleted.Keys, c.deleted.Keys)
    && KeysJoined(set s | s in cs :: s.retired.Keys, c.retired.Keys)
    && UnionOf(set s | s in cs :: s.captures, c.captures)
    && UnionOf(set s | s in cs :: s.artifacts, c.artifacts)
  }

  ghost predicate EventsJoined<K(!new)>(ms: set<map<K, Event>>, j: map<K, Event>) {
    forall k :: Greatest(ms, k, EventAt(j, k)) && (k in j ==> j[k] != NO_EVENT)
  }

  ghost predicate KeysJoined<K(!new)>(ms: set<set<K>>, u: set<K>) {
    forall k :: k in u <==> exists m | m in ms :: k in m
  }

  ghost predicate UnionOf<V(!new)>(ms: set<map<string, V>>, u: map<string, V>) {
    && (forall k | k in u :: exists m | m in ms :: k in m && m[k] == u[k])
    && (forall m, k | m in ms && k in m :: k in u && u[k] == m[k])
  }

  lemma UnionExtends<V(!new)>(ms: set<map<string, V>>, u: map<string, V>, b: map<string, V>)
    requires UnionOf(ms, u) && Agree(u, b)
    ensures UnionOf(ms + {b}, u + b)
  {
    forall k | k in u + b ensures exists m | m in ms + {b} :: k in m && m[k] == (u + b)[k] {
      if k in b {
        assert b in ms + {b};
      } else {
        var m :| m in ms && k in m && m[k] == u[k];
        assert m in ms + {b};
      }
    }
  }

  lemma UnionUnique<V(!new)>(ms: set<map<string, V>>, u: map<string, V>, v: map<string, V>)
    requires UnionOf(ms, u) && UnionOf(ms, v)
    ensures u == v
  {
    forall k ensures k in u <==> k in v {
      if k in u {
        var m :| m in ms && k in m && m[k] == u[k];
        assert k in v;
      }
      if k in v {
        var m :| m in ms && k in m && m[k] == v[k];
        assert k in u;
      }
    }
    forall k | k in u ensures u[k] == v[k] {
      var m :| m in ms && k in m && m[k] == u[k];
    }
  }

  /** Folding the sources computes their join, and fails exactly when two of them conflict. */
  lemma {:induction false} GatherJoins(cs: seq<Catalog>)
    ensures GatherCatalogs(cs).Err? <==> Conflict(cs)
    ensures GatherCatalogs(cs).Ok? ==> JoinOf(cs, GatherCatalogs(cs).value)
  {
    hide Conflict, JoinOf;
    if cs == [] {
      EmptyJoin();
    } else {
      var front, last := cs[..|cs| - 1], cs[|cs| - 1];
      assert cs == front + [last];
      GatherJoins(front);
      ConflictExtends(front, last);
      if GatherCatalogs(front).Ok? {
        var c := GatherCatalogs(front).value;
        AgreeWithJoin(front, c, last);
        if MergeCatalog(c, last).Ok? {
          JoinExtends(front, c, last);
        }
      }
    }
  }

  lemma EmptyJoin()
    ensures JoinOf([], EMPTY_CATALOG) && !Conflict([])
  {
  }

  lemma ConflictExtends(cs: seq<Catalog>, b: Catalog)
    ensures Conflict(cs + [b]) <==> Conflict(cs) || exists a :: a in cs && !AgreeBoth(a, b)
  {
    assert b in cs + [b];
    assert forall a :: a in cs ==> a in cs + [b];
    if Conflict(cs + [b]) {
      var x, y :| x in cs + [b] && y in cs + [b] && (!Agree(x.captures, y.captures) || !Agree(x.artifacts, y.artifacts));
      if y !in cs && x in cs {
        assert !AgreeBoth(x, b);
      } else if x !in cs && y in cs {
        assert !AgreeBoth(y, b);
      }
    }
  }

  predicate AgreeBoth(a: Catalog, b: Catalog) {
    Agree(a.captures, b.captures) && Agree(a.artifacts, b.artifacts)
  }

  lemma AgreeWithUnion<V(!new)>(ms: set<map<string, V>>, u: map<string, V>, b: map<string, V>)
    requires UnionOf(ms, u)
    ensures Agree(u, b) <==> forall m | m in ms :: Agree(m, b)
  {
    if !Agree(u, b) {
      var k :| k in u && k in b && u[k] != b[k];
      var m :| m in ms && k in m && m[k] == u[k];
      assert !Agree(m, b);
    }
  }

  lemma AgreeWithJoin(cs: seq<Catalog>, c: Catalog, b: Catalog)
    requires JoinOf(cs, c)
    ensures AgreeBoth(c, b) <==> forall a :: a in cs ==> AgreeBoth(a, b)
  {
    hide Greatest, UnionOf, Agree, EventsJoined, KeysJoined;
    var captures, artifacts := set s | s in cs :: s.captures, set s | s in cs :: s.artifacts;
    AgreeWithUnion(captures, c.captures, b.captures);
    AgreeWithUnion(artifacts, c.artifacts, b.artifacts);
    forall a | a in cs ensures a.captures in captures && a.artifacts in artifacts {
    }
  }

  lemma EventsExtend<K(!new)>(ms: set<map<K, Event>>, j: map<K, Event>, b: map<K, Event>)
    requires EventsJoined(ms, j)
    ensures EventsJoined(ms + {b}, JoinEvents(j, b))
  {
    hide Greatest, JoinEvents;
    forall k ensures Greatest(ms + {b}, k, EventAt(JoinEvents(j, b), k))
      && (k in JoinEvents(j, b) ==> JoinEvents(j, b)[k] != NO_EVENT)
    {
      GreatestExtends(ms, j, b, k);
    }
  }

  lemma KeysExtend<K(!new)>(ms: set<set<K>>, u: set<K>, b: set<K>)
    requires KeysJoined(ms, u)
    ensures KeysJoined(ms + {b}, u + b)
  {
    forall k ensures k in u + b <==> exists m | m in ms + {b} :: k in m {
      if k in b {
        assert b in ms + {b};
      } else if k in u {
        var m :| m in ms && k in m;
        assert m in ms + {b};
      }
    }
  }

  lemma JoinExtendsEvents(cs: seq<Catalog>, c: Catalog, b: Catalog)
    requires EventsJoined(AliasesOf(cs), c.aliases) && EventsJoined(GuardsOf(cs), c.guards)
    ensures EventsJoined(AliasesOf(cs + [b]), JoinEvents(c.aliases, b.aliases))
    ensures EventsJoined(GuardsOf(cs + [b]), JoinEvents(c.guards, b.guards))
  {
    hide EventsJoined, JoinEvents;
    var all := cs + [b];
    assert AliasesOf(all) == AliasesOf(cs) + {b.aliases};
    assert GuardsOf(all) == GuardsOf(cs) + {b.guards};
    EventsExtend(AliasesOf(cs), c.aliases, b.aliases);
    EventsExtend(GuardsOf(cs), c.guards, b.guards);
  }

  lemma JoinExtendsKeys(cs: seq<Catalog>, c: Catalog, b: Catalog)
    requires KeysJoined(set s | s in cs :: s.deleted.Keys, c.deleted.Keys)
    requires KeysJoined(set s | s in cs :: s.retired.Keys, c.retired.Keys)
    ensures KeysJoined(set s | s in cs + [b] :: s.deleted.Keys, (c.deleted + b.deleted).Keys)
    ensures KeysJoined(set s | s in cs + [b] :: s.retired.Keys, (c.retired + b.retired).Keys)
  {
    hide KeysJoined;
    DeletedExtend(cs, c, b);
    RetiredExtend(cs, c, b);
  }

  lemma DeletedExtend(cs: seq<Catalog>, c: Catalog, b: Catalog)
    requires KeysJoined(set s | s in cs :: s.deleted.Keys, c.deleted.Keys)
    ensures KeysJoined(set s | s in cs + [b] :: s.deleted.Keys, (c.deleted + b.deleted).Keys)
  {
    hide KeysJoined;
    var all := cs + [b];
    assert (set s | s in all :: s.deleted.Keys) == (set s | s in cs :: s.deleted.Keys) + {b.deleted.Keys};
    KeysExtend(set s | s in cs :: s.deleted.Keys, c.deleted.Keys, b.deleted.Keys);
    assert (c.deleted + b.deleted).Keys == c.deleted.Keys + b.deleted.Keys;
  }

  lemma RetiredExtend(cs: seq<Catalog>, c: Catalog, b: Catalog)
    requires KeysJoined(set s | s in cs :: s.retired.Keys, c.retired.Keys)
    ensures KeysJoined(set s | s in cs + [b] :: s.retired.Keys, (c.retired + b.retired).Keys)
  {
    hide KeysJoined;
    var all := cs + [b];
    assert (set s | s in all :: s.retired.Keys) == (set s | s in cs :: s.retired.Keys) + {b.retired.Keys};
    KeysExtend(set s | s in cs :: s.retired.Keys, c.retired.Keys, b.retired.Keys);
    assert (c.retired + b.retired).Keys == c.retired.Keys + b.retired.Keys;
  }

  lemma JoinExtendsUnions(cs: seq<Catalog>, c: Catalog, b: Catalog)
    requires UnionOf(set s | s in cs :: s.captures, c.captures) && Agree(c.captures, b.captures)
    requires UnionOf(set s | s in cs :: s.artifacts, c.artifacts) && Agree(c.artifacts, b.artifacts)
    ensures UnionOf(set s | s in cs + [b] :: s.captures, c.captures + b.captures)
    ensures UnionOf(set s | s in cs + [b] :: s.artifacts, c.artifacts + b.artifacts)
  {
    hide UnionOf, Agree;
    var all := cs + [b];
    assert (set s | s in all :: s.captures) == (set s | s in cs :: s.captures) + {b.captures};
    assert (set s | s in all :: s.artifacts) == (set s | s in cs :: s.artifacts) + {b.artifacts};
    UnionExtends(set s | s in cs :: s.captures, c.captures, b.captures);
    UnionExtends(set s | s in cs :: s.artifacts, c.artifacts, b.artifacts);
  }

  lemma JoinExtends(cs: seq<Catalog>, c: Catalog, b: Catalog)
    requires JoinOf(cs, c) && MergeCatalog(c, b).Ok?
    ensures JoinOf(cs + [b], MergeCatalog(c, b).value)
  {
    hide EventsJoined, KeysJoined, UnionOf, Agree, JoinEvents, AliasesOf, GuardsOf;
    JoinExtendsEvents(cs, c, b);
    JoinExtendsKeys(cs, c, b);
    JoinExtendsUnions(cs, c, b);
  }

  /** The catalogs agree on everything but the wall-clock time kept with a tombstone or retirement. */
  predicate SameCatalog(a: Catalog, b: Catalog) {
    && a.aliases == b.aliases && a.guards == b.guards
    && a.deleted.Keys == b.deleted.Keys && a.retired.Keys == b.retired.Keys
    && a.captures == b.captures && a.artifacts == b.artifacts
  }

  lemma JoinUnique(cs: seq<Catalog>, ds: seq<Catalog>, c: Catalog, d: Catalog)
    requires forall s :: s in cs <==> s in ds
    requires JoinOf(cs, c) && JoinOf(ds, d)
    ensures SameCatalog(c, d)
  {
    hide EventsJoined, KeysJoined, UnionOf;
    assert AliasesOf(cs) == AliasesOf(ds) && GuardsOf(cs) == GuardsOf(ds);
    EventsUnique(AliasesOf(cs), c.aliases, d.aliases);
    EventsUnique(GuardsOf(cs), c.guards, d.guards);
    var deleted, retired := set s | s in cs :: s.deleted.Keys, set s | s in cs :: s.retired.Keys;
    assert deleted == (set s | s in ds :: s.deleted.Keys) && retired == (set s | s in ds :: s.retired.Keys);
    KeysUnique(deleted, c.deleted.Keys, d.deleted.Keys);
    KeysUnique(retired, c.retired.Keys, d.retired.Keys);
    var captures, artifacts := set s | s in cs :: s.captures, set s | s in cs :: s.artifacts;
    assert captures == (set s | s in ds :: s.captures) && artifacts == (set s | s in ds :: s.artifacts);
    UnionUnique(captures, c.captures, d.captures);
    UnionUnique(artifacts, c.artifacts, d.artifacts);
  }

  lemma KeysUnique<K(!new)>(ms: set<set<K>>, u: set<K>, v: set<K>)
    requires KeysJoined(ms, u) && KeysJoined(ms, v)
    ensures u == v
  {
    forall k ensures k in u <==> k in v {
    }
  }

  lemma EventsUnique<K(!new)>(ms: set<map<K, Event>>, a: map<K, Event>, b: map<K, Event>)
    requires EventsJoined(ms, a) && EventsJoined(ms, b)
    ensures a == b
  {
    hide Greatest;
    forall k ensures EventAt(a, k) == EventAt(b, k) {
      GreatestUnique(ms, k, EventAt(a, k), EventAt(b, k));
    }
    SameEvents(a, b);
  }

  lemma SameEvents<K(!new)>(a: map<K, Event>, b: map<K, Event>)
    requires forall k :: EventAt(a, k) == EventAt(b, k)
    requires forall k | k in a :: a[k] != NO_EVENT
    requires forall k | k in b :: b[k] != NO_EVENT
    ensures a == b
  {
    forall k ensures k in a <==> k in b {
      assert EventAt(a, k) == EventAt(b, k);
    }
    forall k | k in a ensures a[k] == b[k] {
      assert EventAt(a, k) == EventAt(b, k);
    }
  }

  /**
   Merging catalogs is a join: two lists of the same sources, in any order and with any repetition, come
   to the same catalog, and the immutable-revision error arises for one exactly when it arises for the other.
   */
  lemma MergeIsJoin(cs: seq<Catalog>, ds: seq<Catalog>)
    requires forall s :: s in cs <==> s in ds
    ensures GatherCatalogs(cs).Ok? <==> GatherCatalogs(ds).Ok?
    ensures GatherCatalogs(cs).Ok? ==> SameCatalog(GatherCatalogs(cs).value, GatherCatalogs(ds).value)
  {
    hide JoinOf, GatherCatalogs, Agree, SameCatalog;
    GatherJoins(cs);
    GatherJoins(ds);
    assert Conflict(cs) <==> Conflict(ds);
    if GatherCatalogs(cs).Ok? {
      JoinUnique(cs, ds, GatherCatalogs(cs).value, GatherCatalogs(ds).value);
    }
  }
}
