/** What each event of the system comes to: which device it changes, what it sends, and what the server stores. */
module SystemEffects {
  import opened Wrappers
  import opened KeyVault
  import opened KeyMerge
  import opened Account
  import opened VaultSystem

  /**
   An upload that was sent is stored exactly when it names the version that is the current one then. An answered device
   has acknowledged the vault, but keeps its pending revision unless the upload was a sync's own; nothing else changes.
   */
  lemma Landed(sort: Sorter, w: World, id: string, put: Upload, clears: bool, answered: bool)
    requires Sorts(sort) && id in w.devices
    ensures var next := Step(sort, w, PutVault(id, put, clears, answered));
      && next.flights == w.flights && next.devices.Keys == w.devices.Keys && (forall i | i in w.devices && i != id :: next.devices[i] == w.devices[i])
      && (!(Flight(id, put, clears) in w.flights && put.ifMatch == |w.history|) ==> next == w)
      && (Flight(id, put, clears) in w.flights && put.ifMatch == |w.history| ==>
            && next.history == w.history + [put.vault]
            && var was, now := w.devices[id], next.devices[id];
              && (!answered ==> now == was)
              && (answered ==>
                    && now.base == Some(BaseCopy(was.policy, put.vault)) && now.pin == Pin(|w.history| + 1, put.vault.generation)
                    && now.pending == (if clears then None else was.pending) && now.conflicts == {}
                    && now.ks == was.ks && now.policy == was.policy))
  {
    hide BaseCopy;
  }

  /** A device that acts changes itself only, and what it sends is added to what is under way. */
  lemma Acted(sort: Sorter, w: World, e: VaultSystem.Event)
    requires Sorts(sort) && !e.Join? && !e.PutVault? && e.id in w.devices
    ensures var next, (d, sent) := Step(sort, w, e), Act(sort, w, w.devices[e.id], e);
      && next.history == w.history && next.devices == w.devices[e.id := d]
      && (forall f :: f in next.flights <==> f in w.flights || sent == Some(f))
  {
    hide Act;
  }

  /** An attempt sends what it made ready, as its own; a rotation and a first upload leave what is pending. */
  lemma Sent(sort: Sorter, w: World, d: Device, id: string, shown: nat, m: Mode)
    requires Sorts(sort)
    ensures var copy := if 0 < shown <= |w.history| then Some(Copy(shown, w.history[shown - 1])) else None;
      var (next, outcome) := Attempt(sort, m, d, copy);
      Act(sort, w, d, StartAttempt(id, shown, m)) == (next, if outcome.Ready? then Some(Flight(id, outcome.put, true)) else None)
    ensures !(0 < shown <= |w.history|) ==> Act(sort, w, d, StartRotation(id, shown)) == (d, None)
    ensures 0 < shown <= |w.history| ==>
      var (next, outcome) := Rotate(d, Copy(shown, w.history[shown - 1]));
      Act(sort, w, d, StartRotation(id, shown)) == (next, if outcome.Ready? then Some(Flight(id, outcome.put, false)) else None)
    ensures Act(sort, w, d, StartAccount(id)) == (d, if FirstUpload(d).Ready? then Some(Flight(id, FirstUpload(d).put, false)) else None)
  {
    hide Attempt, Rotate, FirstUpload;
  }

  /** Keyrings may become anything, and either file may be lost; nothing is sent. */
  lemma Suffered(sort: Sorter, w: World, d: Device, id: string, ks: Projects, base: bool, pending: bool)
    requires Sorts(sort)
    ensures Act(sort, w, d, Edit(id, ks)) == (d.(ks := ks), None)
    ensures var (next, sent) := Act(sort, w, d, LoseFiles(id, base, pending));
      && sent == None && next == d.(base := next.base, pending := next.pending)
      && next.base == (if base then None else d.base) && next.pending == (if pending then None else d.pending)
  {
  }

  /** The other commands are the device's, against the version shown; none sends anything. */
  lemma Commanded(sort: Sorter, w: World, d: Device, id: string, shown: nat, key: KeyRecord, flag: bool, at: int, project: string, mode: CacheMode, m: Mode)
    requires Sorts(sort)
    ensures Act(sort, w, d, StageChanges(id)) == (Stage(d), None)
    ensures Act(sort, w, d, GuardChange(id, key, flag)) == (ChangeGuard(d, key, flag), None)
    ensures Act(sort, w, d, RecoverPending(id, m)) == (Recover(sort, m, d).0, None)
    ensures Act(sort, w, d, KeyChange(id, shown, key, flag, at)) ==
      (if 0 < shown <= |w.history| then ChangeKey(d, w.history[shown - 1], key, flag, at) else d, None)
    ensures Act(sort, w, d, CacheChange(id, shown, project, mode)) ==
      (if 0 < shown <= |w.history| then CacheProject(sort, d, w.history[shown - 1], project, mode) else d, None)
  {
    hide Stage, ChangeGuard, ChangeKey, CacheProject, Recover;
  }
}
