/** What collecting an inventory comes to: whose entry counts, which edits are recorded, and what the sweep leaves of it. */
module InventoryEffects {
  import opened Wrappers
  import opened KeyVault
  import opened CatalogJoin
  import opened Inventory

  predicate In(v: Option<Vault>, p: string, n: Name) {
    v.Some? && p in v.value.projects && n in v.value.projects[p]
  }

  /**
   An entry counts as the keyring has it, else as the server, else as the pending revision, else as the base; names
   and projects that none of them has are not there.
   */
  lemma EntriesByRank(base: Option<Vault>, pending: Option<Vault>, remote: Option<Vault>, local: Projects, intent: Option<GuardIntent>, p: string, n: Name)
    requires Assemble(base, pending, remote, local, intent).Ok?
    ensures var ps := Assemble(base, pending, remote, local, intent).value.projects;
      var here := p in local && n in local[p];
      && (p in ps && n in ps[p] <==> here || In(remote, p, n) || In(pending, p, n) || In(base, p, n))
      && (here ==> ps[p][n] == local[p][n])
      && (!here && In(remote, p, n) ==> ps[p][n] == remote.value.projects[p][n])
      && (!here && !In(remote, p, n) && In(pending, p, n) ==> ps[p][n] == pending.value.projects[p][n])
      && (!here && !In(remote, p, n) && !In(pending, p, n) && In(base, p, n) ==> ps[p][n] == base.value.projects[p][n])
  {
    hide MergeCatalog, Gather, Edits, ApplyIntent, JoinEvents;
    var sources := Present(base) + Present(pending) + Present(remote);
    LastHolds(sources, p, n);
    RankOfThree(base, pending, remote, p, n);
  }

  /** Of the sources merged, the last that has a name decides. */
  ghost predicate Decides(sources: seq<Vault>, p: string, n: Name, i: int) {
    && 0 <= i < |sources| && p in sources[i].projects && n in sources[i].projects[p]
    && forall j | i < j < |sources| :: !(p in sources[j].projects && n in sources[j].projects[p])
  }

  lemma {:induction false} LastHolds(sources: seq<Vault>, p: string, n: Name)
    requires Gather(sources).Ok?
    ensures var ps := Gather(sources).value.projects;
      && (p in ps && n in ps[p] <==> exists i :: Decides(sources, p, n, i))
      && forall i | Decides(sources, p, n, i) :: p in ps && n in ps[p] && ps[p][n] == sources[i].projects[p][n]
  {
    hide MergeSource;
    if sources == [] {
      NoneDecides(p, n);
    } else {
      var front, last := sources[..|sources| - 1], |sources| - 1;
      LastHolds(front, p, n);
      LaidOver(Gather(front).value, sources[last], p, n);
      LastDecides(sources, p, n);
      if p in sources[last].projects && n in sources[last].projects[p] {
        assert Decides(sources, p, n, last);
      } else if i :| Decides(front, p, n, i) {
        assert Decides(sources, p, n, i);
      }
    }
  }

  lemma NoneDecides(p: string, n: Name)
    ensures forall i :: !Decides([], p, n, i)
  {
  }

  /** A source's own entries come over what was gathered before. */
  lemma LaidOver(v: Vault, source: Vault, p: string, n: Name)
    requires MergeSource(v, source).Ok?
    ensures var ps := MergeSource(v, source).value.projects;
      && (p in ps && n in ps[p] <==> (p in source.projects && n in source.projects[p]) || (p in v.projects && n in v.projects[p]))
      && (p in source.projects && n in source.projects[p] ==> ps[p][n] == source.projects[p][n])
      && (!(p in source.projects && n in source.projects[p]) && p in v.projects && n in v.projects[p] ==> ps[p][n] == v.projects[p][n])
  {
    hide MergeCatalog;
  }

  lemma LastDecides(sources: seq<Vault>, p: string, n: Name)
    requires sources != []
    ensures var last := |sources| - 1;
      if p in sources[last].projects && n in sources[last].projects[p] then forall i :: Decides(sources, p, n, i) <==> i == last
      else forall i :: Decides(sources, p, n, i) <==> Decides(sources[..last], p, n, i)
  {
  }

  lemma RankOfThree(base: Option<Vault>, pending: Option<Vault>, remote: Option<Vault>, p: string, n: Name)
    ensures var sources := Present(base) + Present(pending) + Present(remote);
      && ((exists i :: Decides(sources, p, n, i)) <==> In(base, p, n) || In(pending, p, n) || In(remote, p, n))
      && forall i | Decides(sources, p, n, i) ::
        sources[i] == if In(remote, p, n) then remote.value else if In(pending, p, n) then pending.value else base.value
  {
    var sources := Present(base) + Present(pending) + Present(remote);
    var b, q := |Present(base)|, |Present(base)| + |Present(pending)|;
    assert remote.Some? ==> sources[q] == remote.value;
    assert pending.Some? ==> sources[b] == pending.value;
    assert base.Some? ==> sources[0] == base.value;
    if In(remote, p, n) { assert Decides(sources, p, n, q); }
    else if In(pending, p, n) { assert Decides(sources, p, n, b); }
    else if In(base, p, n) { assert Decides(sources, p, n, 0); }
  }

  /**
   Which alias edits a device records: of names that may be repointed, in projects with a keyring here, a removal for
   what the previous revision had and is missing, and a setting for what is here and was not the same. Each is one
   version later than the previous revision knows.
   */
  lemma EditsExactly(previous: Vault, local: Projects, p: string, n: Name, v: Value)
    ensures var r, was := AliasRecord(p, n, v), if p in previous.projects then previous.projects[p] else map[];
      var alias := n.KeyAlias? || n.GuardEnv? || n.ActiveKey? || n.ActiveEnvironment?;
      var removed := p in local && n in was && was[n] == v && n !in local[p] && alias;
      var pointed := p in local && n in local[p] && local[p][n] == v && Get(was, n) != v && alias;
      && (r in Edits(previous, local) <==> removed || pointed)
      && (r in Edits(previous, local) ==>
            && Edits(previous, local)[r].flag == removed
            && Edits(previous, local)[r].version == EventAt(CatalogOf(previous).aliases, r).version + 1)
  {
    var r := AliasRecord(p, n, v);
    assert r in Removed(previous.projects, local) <==>
      p in local && n in EntriesOf(previous.projects, p) && previous.projects[p][n] == v && n !in local[p] && n.IsAlias();
    assert r in Repointed(previous.projects, local) <==>
      p in local && n in local[p] && local[p][n] == v && Get(EntriesOf(previous.projects, p), n) != v && n.IsAlias();
  }

  /**
   The catalog collected: the sources', with the edits since the pending revision, or since the base when nothing is
   pending, laid over its alias events, and everything immutable as the sources have it.
   */
  lemma CatalogCollected(base: Option<Vault>, pending: Option<Vault>, remote: Option<Vault>, local: Projects)
    requires Collect(base, pending, remote, local, None).Ok?
    ensures Gather(Present(base) + Present(pending) + Present(remote)).Ok?
    ensures var g := CatalogOf(Gather(Present(base) + Present(pending) + Present(remote)).value);
      var c := CatalogOf(Collect(base, pending, remote, local, None).value);
      && c == g.(aliases := c.aliases)
      && (pending.Some? ==> c.aliases == JoinEvents(g.aliases, Edits(pending.value, local)))
      && (pending.None? && base.Some? ==> c.aliases == JoinEvents(g.aliases, Edits(base.value, local)))
      && (pending.None? && base.None? ==> c.aliases == g.aliases)
  {
    hide Gather, SweepVault, Overlay, Edits, JoinEvents;
  }

  /** What is collected is what was assembled, each project swept by the assembled catalog, as a vault of no generation yet. */
  lemma SweptCollected(base: Option<Vault>, pending: Option<Vault>, remote: Option<Vault>, local: Projects, intent: Option<GuardIntent>)
    ensures Collect(base, pending, remote, local, intent).Ok? <==> Assemble(base, pending, remote, local, intent).Ok?
    ensures Collect(base, pending, remote, local, intent).Ok? ==>
      var a, r := Assemble(base, pending, remote, local, intent).value, Collect(base, pending, remote, local, intent).value;
      && r.catalog == a.catalog && r.generation == 0 && r.projects.Keys == a.projects.Keys
      && forall p | p in a.projects :: r.projects[p] == Survivors(CatalogOf(a), p, a.projects[p])
  {
    hide Gather, Survivors, Overlay, Edits, JoinEvents, ApplyIntent;
  }

  /** It fails exactly when two sources hold different revisions under one id. */
  lemma CollectsUnlessConflict(base: Option<Vault>, pending: Option<Vault>, remote: Option<Vault>, local: Projects, intent: Option<GuardIntent>)
    ensures Collect(base, pending, remote, local, intent).Ok? <==> Gather(Present(base) + Present(pending) + Present(remote)).Ok?
  {
    hide Gather, SweepVault, Overlay, Edits, JoinEvents, ApplyIntent;
  }
}
