/** The sync as the program runs it: the device's state is updated step by step, and attempts are retried. */
module AccountSync {
  import opened Wrappers
  import opened KeyVault
  import opened CatalogJoin
  import opened Inventory
  import opened KeyMerge
  import A = Account
  import System = VaultSystem

  class Account {
    const store: Store
    var base: Option<Vault>
    var pending: Option<Vault>
    var policy: map<string, CacheMode>
    var pin: A.Pin
    var conflicts: set<(string, Name)>

    ghost function Device(): A.Device
      reads this, store
    {
      A.Device(store.ks, base, pending, policy, pin, conflicts)
    }

    constructor (store: Store)
      ensures this.store == store && Device() == A.Device(store.ks, None, None, map[], A.Pin(0, 0), {})
    {
      this.store := store;
      base, pending, policy, pin, conflicts := None, None, map[], A.Pin(0, 0), {};
    }

    /** Rewrites each keyring the catalog takes something from. */
    method ApplyKeyState(c: Catalog)
      requires AliasRecordsProper(c)
      modifies store
      ensures store.ks == A.ApplyKeyState(old(store.ks), c)
    {
      hide Survivors, FileKeys;
      var todo := store.ks.Keys;
      while todo != {}
        invariant store.ks.Keys == old(store.ks).Keys && todo <= store.ks.Keys
        invariant forall p | p in todo :: store.ks[p] == old(store.ks)[p]
        invariant forall p | p in store.ks && p !in todo :: store.ks[p] == A.SweptKeyring(c, p, old(store.ks)[p])
      {
        var p :| p in todo;
        var ring := new Keyring(store.ks[p]);
        ring.ApplyDeleted(c, p);
        if ring.entries != store.ks[p] {
          store.ks := Reconcile(store.ks, p, ring.entries);
        }
        todo := todo - {p};
      }
    }

    /** Keeps a vault as the acknowledged base, without the evicted projects. */
    method SaveBase(v: Vault)
      modifies this`base
      ensures base == Some(A.BaseCopy(policy, v))
    {
      var kept := v.projects;
      var todo := policy.Keys;
      while todo != {}
        invariant todo <= policy.Keys
        invariant kept == map p | p in v.projects && !(p !in todo && IsEvicted(policy, p)) :: v.projects[p]
      {
        var p :| p in todo;
        if policy[p] == Evicted { kept := kept - {p}; }
        todo := todo - {p};
      }
      assert kept == A.BaseCopy(policy, v).projects;
      base := Some(v.(projects := kept));
    }

    /** Keeps a vault as the pending revision; an evicted project keeps what it still owes the server. */
    method WritePending(v: Vault)
      modifies this`pending
      ensures pending == Some(A.PendingCopy(policy, v, old(pending), store.ks))
    {
      hide A.UncachedKeys;
      var kept := v.projects;
      var todo := policy.Keys;
      while todo != {}
        invariant todo <= policy.Keys && pending == old(pending)
        invariant forall p :: p in kept <==>
          p in v.projects && (p in todo || !IsEvicted(policy, p) || A.UncachedKeys(v, pending, store.ks, p) != map[])
        invariant forall p | p in kept ::
          kept[p] == if p !in todo && IsEvicted(policy, p) then A.UncachedKeys(v, pending, store.ks, p) else v.projects[p]
      {
        var p :| p in todo;
        if policy[p] == Evicted {
          kept := kept - {p};
          var owed := A.UncachedKeys(v, pending, store.ks, p);
          NothingOwed(v, pending, store.ks, p);
          if owed != map[] { kept := kept[p := owed]; }
        }
        todo := todo - {p};
      }
      assert kept == A.PendingCopy(policy, v, pending, store.ks).projects;
      pending := Some(v.(projects := kept));
    }

    /** Merges projects into the keyrings, in the order of their names. */
    method MergeIn(sort: A.Sorter, m: Mode, projects: Projects) returns (clashes: set<(string, Name)>, stop: Option<string>)
      requires A.Sorts(sort)
      modifies store
      ensures A.MergeIn(sort, m, old(Device()), projects) == (Progress(store.ks, clashes), stop)
    {
      assert A.Orders(sort(projects.Keys), projects.Keys);
      stop, clashes := store.MergeVault(m, policy, projects, A.ProjectsIn(base), sort(projects.Keys));
    }

    /** The server's vault into the keyrings. */
    method Pull(sort: A.Sorter, m: Mode, copy: A.Copy) returns (stop: Option<A.Outcome>)
      requires A.Sorts(sort) && A.DeviceOk({}, Device()) && VaultOk({}, copy.vault)
      modifies this`conflicts, store
      ensures (Device(), stop) == A.Pull(sort, m, old(Device()), copy)
    {
      hide Collect, VaultOk, ProjectsOk, A.ApplyKeyState, A.MergeIn, SweepVault;
      var fetched := A.OpenRemote(pin, copy.vault);
      if fetched.Err? { return Some(A.Failed(fetched.error)); }
      var combined := CollectInventory(base, pending, Some(copy.vault), store.ks, None);
      if combined.Err? { return Some(A.Failed(combined.error)); }
      CollectedProper(base, pending, Some(copy.vault), store.ks);
      var catalog := CatalogOf(combined.value);
      ApplyKeyState(catalog);
      if copy.version == pin.version && conflicts == {} { return None; }
      var clashes, failed := MergeIn(sort, m, SweepVault(catalog, copy.vault.projects));
      if failed.Some? { return Some(A.Failed(failed.value)); }
      conflicts := clashes;
      return if clashes != {} then Some(A.Clash) else None;
    }

    /** The inventory into the keyrings, and the upload of it unless the server holds it already. */
    method Compose(sort: A.Sorter, m: Mode, remote: Option<A.Copy>) returns (outcome: A.Outcome)
      requires A.Sorts(sort) && A.DeviceOk({}, Device()) && (remote.Some? ==> VaultOk({}, remote.value.vault))
      modifies this, store
      ensures (Device(), outcome) == A.Compose(sort, m, old(Device()), remote)
    {
      hide Collect, VaultOk, ProjectsOk, A.ApplyKeyState, A.MergeIn, A.BaseCopy, A.PendingCopy;
      var current := if remote.Some? then Some(remote.value.vault) else None;
      var collected := CollectInventory(base, pending, current, store.ks, None);
      if collected.Err? { return A.Failed(collected.error); }
      var inventory := collected.value;
      CollectedProper(base, pending, current, store.ks);
      ApplyKeyState(CatalogOf(inventory));
      var clashes, failed := MergeIn(sort, m, inventory.projects);
      if failed.Some? { return A.Failed(failed.value); }
      if clashes != {} {
        conflicts := clashes;
        return A.Clash;
      }
      if A.SameInventory(inventory, current) {
        Acknowledge(remote.value);
        return A.Settled;
      }
      var put := inventory.(generation := A.NextGeneration(pin, current));
      WritePending(put);
      return A.Ready(A.Upload(if remote.Some? then remote.value.version else 0, put));
    }

    /** The server holds this version, and this device has applied it. */
    method Acknowledge(copy: A.Copy)
      modifies this
      ensures Device() == A.Acknowledge(old(Device()), copy)
    {
      SaveBase(copy.vault);
      pin, conflicts := A.Pin(copy.version, copy.vault.generation), {};
      pending := None;
    }

    /** One attempt, up to its upload. */
    method SyncOnce(sort: A.Sorter, m: Mode, remote: Option<A.Copy>) returns (outcome: A.Outcome)
      requires A.Sorts(sort) && A.DeviceOk({}, Device()) && (remote.Some? ==> VaultOk({}, remote.value.vault))
      modifies this, store
      ensures (Device(), outcome) == A.Attempt(sort, m, old(Device()), remote)
    {
      hide A.Pull, A.Compose, A.DeviceOk, VaultOk;
      if remote.Some? {
        System.PullSound({}, sort, m, Device(), remote.value);
        var stop := Pull(sort, m, remote.value);
        if stop.Some? { return stop.value; }
      }
      outcome := Compose(sort, m, remote);
    }

    /** Captures local changes before any network I/O. */
    method StagePending()
      requires A.DeviceOk({}, Device())
      modifies this`pending
      ensures Device() == A.Stage(old(Device()))
    {
      hide Collect, A.PendingCopy;
      var inventory := CollectInventory(base, pending, None, store.ks, None);
      if inventory.Err? { return; }
      if A.SameInventory(inventory.value, base) {
        pending := None;
      } else {
        WritePending(inventory.value);
      }
    }

    /** Whether a vault holds an entry about a key. */
    method FindKey(v: Vault, key: KeyRecord) returns (found: bool)
      ensures found == A.Holds(v, key)
    {
      var entries := EntriesOf(v.projects, key.project);
      var todo := entries.Keys;
      found := false;
      while todo != {}
        invariant todo <= entries.Keys
        invariant found == exists n | n in entries && n !in todo :: PublicEntry(n, entries[n]) == Some(key.pub)
      {
        var n :| n in todo;
        if PublicEntry(n, entries[n]) == Some(key.pub) { found := true; }
        todo := todo - {n};
      }
    }

    /** Tombstones or retires a key of the vault just read: staged first, then taken out of the keyrings. */
    method ChangeKey(v: Vault, key: KeyRecord, deleted: bool, at: int)
      requires VaultOk({}, v)
      modifies this`pending, store
      ensures Device() == A.ChangeKey(old(Device()), v, key, deleted, at)
    {
      hide SweepVault, A.PendingCopy, A.ApplyKeyState, A.Holds, ProjectsOk;
      if A.OpenRemote(pin, v).Err? { return; }
      var found := FindKey(v, key);
      if !found { return; }
      var draft := new Draft();
      draft.projects, draft.catalog := v.projects, CatalogOf(v);
      if deleted {
        draft.catalog := draft.catalog.(deleted := draft.catalog.deleted[key := at]);
      } else {
        draft.catalog := draft.catalog.(retired := draft.catalog.retired[key := at]);
      }
      draft.SweepAll();
      WritePending(Vault(draft.projects, Some(draft.catalog), v.generation));
      ApplyKeyState(draft.catalog);
    }

    /** A sync: a durable pending revision comes back first, then up to four attempts. */
    method Sync(sort: A.Sorter, m: Mode, net: seq<A.Exchange>) returns (verdict: A.Verdict)
      requires A.Sorts(sort) && A.DeviceOk({}, Device())
      requires forall i | 0 <= i < |net| && net[i].remote.Some? :: VaultOk({}, net[i].remote.value.vault)
      requires |net| == 4
      modifies this, store
      ensures (Device(), verdict) == A.Sync(sort, m, old(Device()), net)
    {
      hide A.Attempt, A.DeviceOk, VaultOk, A.MergeIn, A.Attempts;
      if pending.Some? {
        System.RecoverOk({}, sort, m, Device());
        var clashes, failed := MergeIn(sort, m, pending.value.projects);
        if failed.Some? { return A.GaveUp(A.Failed(failed.value)); }
        if clashes != {} { return A.GaveUp(A.Clash); }
      }
      ghost var ready := Device();
      assert net[0..] == net;
      for attempt := 0 to 4
        invariant A.DeviceOk({}, Device())
        invariant A.Attempts(sort, m, ready, net) == A.Attempts(sort, m, Device(), net[attempt..])
      {
        System.AttemptSound({}, sort, m, Device(), net[attempt].remote);
        A.AttemptsStep(sort, m, Device(), net[attempt..]);
        assert net[attempt..][1..] == net[attempt + 1..];
        var outcome := SyncOnce(sort, m, net[attempt].remote);
        match outcome
        case Settled => return A.Done;
        case Ready(put) =>
          match net[attempt].reply {
            case Stored(version) =>
              Acknowledge(A.Copy(version, put.vault));
              return A.Done;
            case Changed =>
            case Broken(e) => return A.GaveUp(A.Failed(e));
          }
        case _ => return A.GaveUp(outcome);
      }
      A.NoAttempts(sort, m, Device());
      return A.GaveUp(A.Failed(A.KEPT_CHANGING));
    }
  }

  lemma CollectedProper(base: Option<Vault>, pending: Option<Vault>, remote: Option<Vault>, local: Projects)
    requires OptionalOk({}, base) && OptionalOk({}, pending) && OptionalOk({}, remote)
    requires Collect(base, pending, remote, local, None).Ok?
    ensures AliasRecordsProper(CatalogOf(Collect(base, pending, remote, local, None).value))
  {
    hide Collect;
    CollectOk({}, base, pending, remote, local, None);
  }

  lemma NothingOwed(v: Vault, previous: Option<Vault>, ks: Projects, p: string)
    ensures p !in v.projects ==> A.UncachedKeys(v, previous, ks, p) == map[]
  {
  }
}
