/** What each operation of a device comes to, field by field: what it changes, when, and what it leaves alone. */
module AccountEffects {
  import opened Wrappers
  import opened KeyVault
  import opened Inventory
  import opened KeyMerge
  import opened Account

  // ----- versions and generations -----

  /** A vault is refused exactly when its generation is lower than the one applied. */
  lemma OpensExactly(pin: Pin, v: Vault)
    ensures OpenRemote(pin, v) == (if v.generation >= pin.generation then Ok(v) else Err(ROLLBACK))
  {
  }

  /** The next generation is one more than the greater of the one applied and the server's. */
  lemma NextExactly(pin: Pin, current: Option<Vault>)
    ensures var next := NextGeneration(pin, current);
      && next > pin.generation && (current.Some? ==> next > current.value.generation)
      && (next - 1 == pin.generation || (current.Some? && next - 1 == current.value.generation))
  {
  }

  /** An acknowledged vault is the base, but for evicted projects; it is pinned, nothing is pending and no conflict is left. */
  lemma Acknowledged(d: Device, copy: Copy)
    ensures var next := Acknowledge(d, copy);
      && next.base == Some(BaseCopy(d.policy, copy.vault)) && next.pending == None && next.conflicts == {}
      && next.pin.version == copy.version && next.pin.generation == copy.vault.generation
      && next.ks == d.ks && next.policy == d.policy
  {
  }

  // ----- staging -----

  /** Staging touches the pending revision only: none when the inventory is the base's, and what is to be kept of it otherwise. */
  lemma Staged(d: Device)
    ensures Stage(d) == d.(pending := Stage(d).pending)
    ensures match Collect(d.base, d.pending, None, d.ks, None)
            case Err(_) => Stage(d).pending == d.pending
            case Ok(v) =>
              if d.base.Some? && v.projects == d.base.value.projects && v.catalog == d.base.value.catalog then Stage(d).pending == None
              else Stage(d).pending == Some(PendingCopy(d.policy, v, d.pending, d.ks))
  {
    hide Collect, PendingCopy;
  }

  // ----- deliberate changes -----

  /**
   A guard change enters the pending catalog one version later than any known, for this key only; of a key now
   guarded no clear name is pending. Unguarding takes what this device now holds of the project, and does nothing
   when it holds nothing.
   */
  lemma GuardChanged(d: Device, key: KeyRecord, guarded: bool)
    requires Collect(d.base, d.pending, None, d.ks, Some(GuardIntent(key, guarded))).Ok? && (guarded || key.project in d.ks)
    ensures var next := ChangeGuard(d, key, guarded);
      && next == d.(pending := next.pending) && next.pending.Some?
      && var v := Collect(d.base, d.pending, None, d.ks, Some(GuardIntent(key, guarded))).value;
        && next.pending.value.catalog == v.catalog
        && var left := SweepVault(CatalogOf(v), if guarded then v.projects else v.projects[key.project := d.ks[key.project]]);
          next.pending.value.projects == PendingCopy(d.policy, v.(projects := left), d.pending, d.ks).projects
  {
    hide Collect, PendingCopy, SweepVault;
    PendingCatalog(d, key, guarded);
  }

  lemma PendingCatalog(d: Device, key: KeyRecord, guarded: bool)
    ensures forall v :: PendingCopy(d.policy, v, d.pending, d.ks).catalog == v.catalog
  {
  }

  lemma GuardUnchanged(d: Device, key: KeyRecord, guarded: bool)
    requires Collect(d.base, d.pending, None, d.ks, Some(GuardIntent(key, guarded))).Err? || (!guarded && key.project !in d.ks)
    ensures ChangeGuard(d, key, guarded) == d
  {
    hide Collect, PendingCopy, SweepVault;
  }

  /** What a collection with a guard change knows of the key: its flag, at the version after the greatest any source has. */
  lemma GuardRecorded(base: Option<Vault>, pending: Option<Vault>, remote: Option<Vault>, local: Projects, key: KeyRecord, guarded: bool)
    requires Collect(base, pending, remote, local, Some(GuardIntent(key, guarded))).Ok?
    ensures Gather(Present(base) + Present(pending) + Present(remote)).Ok?
    ensures var was := CatalogOf(Gather(Present(base) + Present(pending) + Present(remote)).value).guards;
      var now := CatalogOf(Collect(base, pending, remote, local, Some(GuardIntent(key, guarded))).value).guards;
      && key in now && now[key].flag == guarded && now[key].version == (if key in was then was[key].version else 0) + 1
      && forall k | k != key :: (k in now <==> k in was) && (k in was ==> now[k] == was[k])
  {
    hide Gather, SweepVault, Overlay, Edits;
  }

  /** Without one, guards are what the sources say. */
  lemma GuardsGathered(base: Option<Vault>, pending: Option<Vault>, remote: Option<Vault>, local: Projects)
    requires Collect(base, pending, remote, local, None).Ok?
    ensures Gather(Present(base) + Present(pending) + Present(remote)).Ok?
    ensures CatalogOf(Collect(base, pending, remote, local, None).value).guards
      == CatalogOf(Gather(Present(base) + Present(pending) + Present(remote)).value).guards
  {
    hide Gather, SweepVault, Overlay, Edits;
  }

  // ----- caching -----

  /** Evicting a project drops its keyring and its part of the base, and nothing else. */
  lemma EvictedProject(sort: Sorter, d: Device, v: Vault, project: string)
    requires Sorts(sort) && v.generation >= d.pin.generation && project in v.projects
    ensures var next := CacheProject(sort, d, v, project, Evicted);
      && next.ks == d.ks - {project} && next.policy == d.policy[project := Evicted]
      && next.base.Some? && project !in next.base.value.projects
      && next.base == Some(BaseCopy(next.policy, v))
      && next.pending == d.pending && next.pin == d.pin && next.conflicts == d.conflicts
  {
  }

  /** Caching it again brings in the vault's entries of it; the base has it again unless the keyring could not be written. */
  lemma CachedProject(sort: Sorter, d: Device, v: Vault, project: string)
    requires Sorts(sort) && v.generation >= d.pin.generation && project in v.projects
    ensures var next := CacheProject(sort, d, v, project, Offline);
      var merged := MergeProject(Unattended, next.policy, Progress(d.ks, {}), project, v.projects[project], map[]);
      && next.policy == d.policy[project := Offline]
      && next.ks == (if merged.Ok? then merged.value.ks else d.ks)
      && next.base == (if merged.Ok? then Some(BaseCopy(next.policy, v)) else d.base)
      && next.pending == d.pending && next.pin == d.pin && next.conflicts == d.conflicts
  {
    hide MergeProject, BaseCopy;
    var order := sort({project});
    assert Orders(order, {project});
    OnlyOne(order, project);
    assert order[..|order| - 1] == [];
    var policy, at := d.policy[project := Offline], Progress(d.ks, {});
    var remote: Projects := map[project := v.projects[project]];
    assert MergeAll(Unattended, policy, at, remote, map[], order) ==
      match MergeProject(Unattended, policy, at, project, v.projects[project], map[])
      case Err(e) => (at, Some(e))
      case Ok(next) => (next, None);
  }

  lemma OnlyOne(order: seq<string>, project: string)
    requires Orders(order, {project})
    ensures order == [project]
  {
    assert project in order;
    var last := |order| - 1;
    assert order[0] in order && order[last] in order;
    assert order[0] == order[last];
  }

  /** A vault older than the one applied, or without the project, changes nothing. */
  lemma CacheUnchanged(sort: Sorter, d: Device, v: Vault, project: string, mode: CacheMode)
    requires Sorts(sort) && (v.generation < d.pin.generation || project !in v.projects)
    ensures CacheProject(sort, d, v, project, mode) == d
  {
  }

  // ----- uploads outside a sync -----

  /** A rotation uploads what it collected over the vault it read, one generation later, and keeps it pending. */
  lemma Rotated(d: Device, copy: Copy)
    ensures var (next, outcome) := Rotate(d, copy);
      if copy.vault.generation < d.pin.generation || Collect(d.base, d.pending, Some(copy.vault), d.ks, None).Err?
      then next == d && outcome.Failed?
      else
        var v := Collect(d.base, d.pending, Some(copy.vault), d.ks, None).value;
        && next == d.(pending := Some(PendingCopy(d.policy, v, d.pending, d.ks)))
        && outcome.Ready? && outcome.put.ifMatch == copy.version
        && outcome.put.vault == v.(generation := copy.vault.generation + 1)
  {
    hide Collect, PendingCopy;
  }

  /** An account's first upload is what the device has, as generation 1, where there is no vault yet. */
  lemma FirstUploaded(d: Device)
    ensures match Collect(d.base, d.pending, None, d.ks, None)
            case Err(_) => FirstUpload(d).Failed?
            case Ok(v) => FirstUpload(d).Ready? && FirstUpload(d).put.ifMatch == 0 && FirstUpload(d).put.vault == v.(generation := 1)
  {
    hide Collect;
  }

  // ----- a sync -----

  /**
   Before its attempts, a sync merges what is pending into the keyrings, whatever happened to them; a conflict or a
   refused write there ends it.
   */
  lemma Recovered(sort: Sorter, m: Mode, d: Device)
    requires Sorts(sort)
    ensures var (next, stop) := Recover(sort, m, d);
      && next == d.(ks := next.ks)
      && (d.pending.None? ==> next == d && stop == None)
      && (d.pending.Some? ==>
            var (at, failed) := MergeIn(sort, m, d, d.pending.value.projects);
            && next.ks == at.ks
            && (failed.Some? ==> stop == Some(Failed(failed.value)))
            && (failed.None? ==> stop == if at.conflicts == {} then None else Some(Clash)))
  {
    hide MergeIn;
  }

  /**
   Pulling: a vault older than the one applied stops it with nothing changed. Otherwise the keyrings are swept by
   what is known together, and the vault's entries, swept too, are merged in if the vault is not the one applied or
   conflicts are outstanding. The conflicts found are on record, and stop it.
   */
  lemma Pulled(sort: Sorter, m: Mode, d: Device, copy: Copy)
    requires Sorts(sort)
    ensures var (next, stop) := Pull(sort, m, d, copy);
      && (copy.vault.generation < d.pin.generation ==> next == d && stop == Some(Failed(ROLLBACK)))
      && (copy.vault.generation >= d.pin.generation ==>
            match Collect(d.base, d.pending, Some(copy.vault), d.ks, None)
            case Err(e) => next == d && stop == Some(Failed(e))
            case Ok(combined) =>
              var swept := ApplyKeyState(d.ks, CatalogOf(combined));
              && next == d.(ks := next.ks, conflicts := next.conflicts)
              && (copy.version == d.pin.version && d.conflicts == {} ==> next.ks == swept && next.conflicts == {} && stop == None)
              && (copy.version != d.pin.version || d.conflicts != {} ==>
                    var (at, failed) := MergeIn(sort, m, d.(ks := swept), SweepVault(CatalogOf(combined), copy.vault.projects));
                    && next.ks == at.ks
                    && (failed.Some? ==> stop == Some(Failed(failed.value)) && next.conflicts == d.conflicts)
                    && (failed.None? ==> next.conflicts == at.conflicts && stop == if at.conflicts == {} then None else Some(Clash))))
  {
    hide MergeIn, Collect, ApplyKeyState, SweepVault;
  }

  /**
   Composing: the keyrings are swept by the inventory and take it in. A refused write or a conflict ends it, the
   conflicts on record. Otherwise the device is settled if the server holds the inventory already, and if not, what
   it will upload over that version is pending, with the next generation.
   */
  lemma Composed(sort: Sorter, m: Mode, d: Device, remote: Option<Copy>)
    requires Sorts(sort)
    ensures var (next, outcome) := Compose(sort, m, d, remote);
      var current := if remote.Some? then Some(remote.value.vault) else None;
      match Collect(d.base, d.pending, current, d.ks, None)
      case Err(e) => next == d && outcome == Failed(e)
      case Ok(inventory) =>
        var swept := d.(ks := ApplyKeyState(d.ks, CatalogOf(inventory)));
        var (at, failed) := MergeIn(sort, m, swept, inventory.projects);
        var same := current.Some? && inventory.projects == current.value.projects && inventory.catalog == current.value.catalog;
        && (failed.Some? ==> outcome == Failed(failed.value) && next == d.(ks := at.ks))
        && (failed.None? && at.conflicts != {} ==> outcome == Clash && next == d.(ks := at.ks, conflicts := at.conflicts))
        && (failed.None? && at.conflicts == {} && same ==>
              outcome == Settled && next == Acknowledge(d.(ks := at.ks), remote.value))
        && (failed.None? && at.conflicts == {} && !same ==>
              && outcome.Ready? && outcome.put.ifMatch == (if remote.Some? then remote.value.version else 0)
              && outcome.put.vault == inventory.(generation := outcome.put.vault.generation)
              && outcome.put.vault.generation == NextGeneration(d.pin, current)
              && next == d.(ks := at.ks, pending := Some(PendingCopy(d.policy, outcome.put.vault, d.pending, at.ks))))
  {
    hide MergeIn, Collect, ApplyKeyState, PendingCopy, Acknowledge, NextGeneration;
  }

  /** The keyrings after a sweep: each keeps what the catalog leaves of it, filed if that is not all of it. */
  lemma KeyringsSwept(ks: Projects, c: Catalog, p: string)
    ensures ApplyKeyState(ks, c).Keys == ks.Keys
    ensures p in ks ==> ApplyKeyState(ks, c)[p] == if Survivors(c, p, ks[p]) == ks[p] then ks[p] else FileKeys(Survivors(c, p, ks[p]))
  {
  }

  /** Merging takes each project once, against the base's entries, in the order of names, from no conflicts. */
  lemma MergedIn(sort: Sorter, m: Mode, d: Device, projects: Projects)
    requires Sorts(sort)
    ensures Orders(sort(projects.Keys), projects.Keys)
    ensures MergeIn(sort, m, d, projects) ==
      MergeAll(m, d.policy, Progress(d.ks, {}), projects, if d.base.Some? then d.base.value.projects else map[], sort(projects.Keys))
  {
  }

  /** One attempt: without a vault only composing, with one pulling first, unless that stops it. */
  lemma Attempted(sort: Sorter, m: Mode, d: Device, copy: Copy)
    requires Sorts(sort)
    ensures Attempt(sort, m, d, None) == Compose(sort, m, d, None)
    ensures var (pulled, stop) := Pull(sort, m, d, copy);
      Attempt(sort, m, d, Some(copy)) == if stop.Some? then (pulled, stop.value) else Compose(sort, m, pulled, Some(copy))
  {
    hide Pull, Compose;
  }

  /** A sync brings back what is pending first, and attempts nothing when that stops it. */
  lemma Synced(sort: Sorter, m: Mode, d: Device, net: seq<Exchange>)
    requires Sorts(sort)
    ensures var (ready, stop) := Recover(sort, m, d);
      Sync(sort, m, d, net) == if stop.Some? then (ready, GaveUp(stop.value)) else Attempts(sort, m, ready, net)
  {
    hide Recover, Attempts;
  }

  /**
   Attempts go on while the vault has changed on the server meanwhile, as long as there are any left. A settled one or
   a stored upload ends them well, and the upload is acknowledged as the version it was stored as.
   */
  lemma AttemptsGoOn(sort: Sorter, m: Mode, d: Device, net: seq<Exchange>)
    requires Sorts(sort)
    ensures net == [] ==> Attempts(sort, m, d, net) == (d, GaveUp(Failed(KEPT_CHANGING)))
    ensures net != [] ==>
      var (next, outcome) := Attempt(sort, m, d, net[0].remote);
      && (outcome.Settled? ==> Attempts(sort, m, d, net) == (next, Done))
      && (outcome.Failed? || outcome.Clash? ==> Attempts(sort, m, d, net) == (next, GaveUp(outcome)))
      && (outcome.Ready? && net[0].reply.Stored? ==>
            Attempts(sort, m, d, net) == (Acknowledge(next, Copy(net[0].reply.version, outcome.put.vault)), Done))
      && (outcome.Ready? && net[0].reply.Changed? ==> Attempts(sort, m, d, net) == Attempts(sort, m, next, net[1..]))
      && (outcome.Ready? && net[0].reply.Broken? ==> Attempts(sort, m, d, net) == (next, GaveUp(Failed(net[0].reply.error))))
  {
    hide Attempt, Acknowledge;
  }
}
