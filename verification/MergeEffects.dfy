/** What writing and merging keyrings comes to, entry by entry: what is filed, what is refused, and what a project becomes. */
module MergeEffects {
  import opened Wrappers
  import opened KeyVault
  import opened KeyMerge

  // ----- writing a keyring -----

  /**
   Filing adds, for each key that an ESEC_PRIVATE_KEY name holds and that has no record and no guarded form here, its
   record, and nothing else.
   */
  lemma FilesExactly(entries: Entries, n: Name)
    ensures n in entries ==> n in FileKeys(entries) && FileKeys(entries)[n] == entries[n]
    ensures n !in entries ==> (n in FileKeys(entries) <==>
      && n.PubEntry?
      && (GuardEntry(n.pub) in entries ==> entries[GuardEntry(n.pub)] == Plain(""))
      && exists a | a in entries :: a.KeyAlias? && (a.rest == "" || a.rest[0] == '_') && entries[a] == Private(n.pub))
    ensures n !in entries && n in FileKeys(entries) ==> FileKeys(entries)[n] == Private(n.pub)
  {
    if n !in entries && n.PubEntry? && Get(entries, GuardEntry(n.pub)) == Plain("") {
      if a :| a in entries && a.KeyAlias? && (a.rest == "" || a.rest[0] == '_') && entries[a] == Private(n.pub) {
        assert NamesKey(a) && PubEntry(entries[a].pub) in ToFile(entries);
      }
    }
  }

  /**
   An ordinary write files the keyring's keys and leaves every other project. A keyring that is here must be
   replaced on purpose, and then every record of a key, every guarded key and the guard's recipient must come out as
   they were, and the guard's identity must not go.
   */
  lemma WritesExactly(ks: Projects, project: string, entries: Entries, force: bool)
    ensures Write(ks, project, entries, force).Ok? <==> project in ks ==>
      && force
      && (forall n | n in ks[project] && (n.PubEntry? || n.GuardEntry?) :: Get(FileKeys(entries), n) == ks[project][n])
      && (Get(ks[project], GuardRecipient) != Plain("") ==> Get(FileKeys(entries), GuardRecipient) == Get(ks[project], GuardRecipient))
      && (Get(ks[project], GuardIdentity) != Plain("") ==> Get(FileKeys(entries), GuardIdentity) != Plain(""))
    ensures Write(ks, project, entries, force).Ok? ==>
      var now := Write(ks, project, entries, force).value;
      now.Keys == ks.Keys + {project} && now[project] == FileKeys(entries) && forall p | p in ks && p != project :: now[p] == ks[p]
  {
    hide FileKeys;
  }

  /** A deliberate deletion is not held to that. */
  lemma ReconcilesExactly(ks: Projects, project: string, entries: Entries)
    ensures var now := Reconcile(ks, project, entries);
      now.Keys == ks.Keys + {project} && now[project] == FileKeys(entries) && forall p | p in ks && p != project :: now[p] == ks[p]
  {
    hide FileKeys;
  }

  // ----- one project -----

  /** The names a vault may write into a keyring end in 1 to 128 capitals, digits and underscores. */
  lemma SuffixByText(s: string)
    ensures SuffixOk(s) <==>
      0 < |s| < 129 && forall i | 0 <= i < |s| :: s[i] == '_' || ('A' <= s[i] && s[i] <= 'Z') || ('0' <= s[i] && s[i] <= '9')
  {
  }

  /** An evicted project's keyring is not touched; what it holds otherwise than the server, which changed it, is reported. */
  lemma EvictedMerge(m: Mode, policy: map<string, CacheMode>, at: Progress, p: string, remote: Entries, base: Entries)
    requires p in policy && policy[p] == Evicted
    ensures var r := MergeProject(m, policy, at, p, remote, base);
      && r.Ok? && r.value.ks == at.ks
      && forall q, n :: (q, n) in r.value.conflicts <==>
        || (q, n) in at.conflicts
        || (q == p && p in at.ks && n in at.ks[p] && n in remote && remote[n] != at.ks[p][n] && !(n in base && remote[n] == base[n])
            && !(n !in base && remote[n] == Plain("")))
  {
    var r := MergeProject(m, policy, at, p, remote, base).value;
    forall q, n ensures (q, n) in Named(p, UncachedConflicts(EntriesOf(at.ks, p), remote, base)) <==>
      q == p && n in UncachedConflicts(EntriesOf(at.ks, p), remote, base) {
    }
  }

  /** Otherwise a name that no keyring may hold refuses the whole project. */
  lemma BadNameRefused(m: Mode, policy: map<string, CacheMode>, at: Progress, p: string, remote: Entries, base: Entries)
    requires !(p in policy && policy[p] == Evicted) && exists n | n in remote :: !EntryNameOk(n)
    ensures MergeProject(m, policy, at, p, remote, base).Err?
  {
  }

  /**
   A project that is not here takes every entry but the clear copies of keys the vault holds guarded, files its keys,
   and cannot conflict.
   */
  lemma NewProject(m: Mode, policy: map<string, CacheMode>, at: Progress, p: string, remote: Entries, base: Entries)
    requires !(p in policy && policy[p] == Evicted) && (forall n | n in remote :: EntryNameOk(n)) && p !in at.ks
    ensures var r := MergeProject(m, policy, at, p, remote, base);
      && r.Ok? && r.value.conflicts == at.conflicts
      && r.value.ks.Keys == at.ks.Keys + {p} && (forall q | q in at.ks :: r.value.ks[q] == at.ks[q])
      && (forall n | n in remote && !(remote[n].Private? && Get(remote, GuardEntry(remote[n].pub)) != Plain("")) ::
            n in r.value.ks[p] && r.value.ks[p][n] == remote[n])
      && (forall n | n in r.value.ks[p] :: (n in remote && r.value.ks[p][n] == remote[n])
            || (n.PubEntry? && r.value.ks[p][n] == Private(n.pub)))
      && forall n | n in r.value.ks[p] && n in remote && remote[n].Private? && Get(remote, GuardEntry(remote[n].pub)) != Plain("") :: n.PubEntry?
  {
    hide EntryNameOk;
    var kept := Fresh(remote);
    forall n ensures n in kept ==> n in FileKeys(kept) && FileKeys(kept)[n] == kept[n] {
      FilesExactly(kept, n);
    }
    forall n | n in FileKeys(kept) && n !in kept ensures n.PubEntry? && FileKeys(kept)[n] == Private(n.pub) {
      FilesExactly(kept, n);
    }
  }

  /**
   A project that is here reports the names in conflict, and is rewritten only if the table takes something; a write
   the store refuses fails the merge. No other project changes.
   */
  lemma ProjectHere(m: Mode, policy: map<string, CacheMode>, at: Progress, p: string, remote: Entries, base: Entries)
    requires !(p in policy && policy[p] == Evicted) && (forall n | n in remote :: EntryNameOk(n)) && p in at.ks
    ensures var r, merged := MergeProject(m, policy, at, p, remote, base), Merged(m, p, at.ks[p], remote, base);
      var takes := Get(merged, GuardIdentity) != Get(at.ks[p], GuardIdentity) || exists n | n in merged :: n !in at.ks[p] || merged[n] != at.ks[p][n];
      && (r.Ok? ==> forall q, n :: (q, n) in r.value.conflicts <==>
            (q, n) in at.conflicts || (q == p && n in Conflicts(m, p, at.ks[p], remote, base)))
      && (r.Ok? ==> r.value.ks == at.ks || r.value.ks == at.ks[p := FileKeys(merged)])
      && (takes ==> (r.Ok? <==> Kept(at.ks[p], FileKeys(merged))) && (r.Ok? ==> r.value.ks == at.ks[p := FileKeys(merged)]))
      && (!Changes(m, p, at.ks[p], remote, base) ==> r.Ok? && r.value.ks == at.ks)
  {
    hide EntryNameOk, Decide, DecideGuard, FileKeys, Kept, Conflicts;
    var local := at.ks[p];
    var merged := Merged(m, p, local, remote, base);
    if !Changes(m, p, local, remote, base) {
      assert Taken(m, p, local, remote, base) == {};
      assert merged == local;
    }
    var conflicts := Conflicts(m, p, local, remote, base);
    forall q, n ensures (q, n) in Named(p, conflicts) <==> q == p && n in conflicts {
    }
  }

  // ----- the projects in turn -----

  /** Each project in turn, until one fails; what was merged before it stays, and what comes after it is not looked at. */
  lemma InTurn(m: Mode, policy: map<string, CacheMode>, at: Progress, remote: Projects, base: Projects, order: seq<string>, p: string)
    requires (forall q | q in order :: q in remote) && p in remote
    ensures MergeAll(m, policy, at, remote, base, []) == (at, None)
    ensures var (before, failed) := MergeAll(m, policy, at, remote, base, order);
      var (after, stopped) := MergeAll(m, policy, at, remote, base, order + [p]);
      && (failed.Some? ==> after == before && stopped == failed)
      && (failed.None? ==>
            var r := MergeProject(m, policy, before, p, remote[p], if p in base then base[p] else map[]);
            && (r.Ok? ==> after == r.value && stopped == None)
            && (r.Err? ==> after == before && stopped == Some(r.error)))
  {
    hide MergeProject;
    assert (order + [p])[..|order|] == order;
  }
}
