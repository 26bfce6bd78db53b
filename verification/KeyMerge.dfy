/**
 The three-way merge of a vault into the local keyrings, and the store that keeps them: filed keys are
 only ever added, and nothing local is deleted.
 */
module KeyMerge {
  import opened Wrappers
  import opened KeyVault

  // ----- the store -----

  /** Files every named private key under its public key, unless the keyring holds its guarded form. */
  function FileKeys(entries: Entries): Entries {
    entries + map n | n in ToFile(entries) :: Private(n.pub)
  }

  /** A name that holds a key as ESEC_PRIVATE_KEY or ESEC_PRIVATE_KEY_<env>. */
  predicate NamesKey(n: Name) {
    n.KeyAlias? && (n.rest == "" || n.rest[0] == '_')
  }

  function ToFile(entries: Entries): set<Name> {
    set n | n in entries && NamesKey(n) && entries[n].Private? && !GuardedHere(entries, entries[n])
      && PubEntry(entries[n].pub) !in entries :: PubEntry(entries[n].pub)
  }

  /** Filed and guarded keys stay unchanged, and so does the guard once it is set. */
  predicate Kept(was: Entries, now: Entries) {
    forall n | n in was :: EntryKept(n, was[n], now)
  }

  predicate EntryKept(n: Name, v: Value, now: Entries) {
    match n
    case PubEntry(_) => Get(now, n) == v
    case GuardEntry(_) => Get(now, n) == v
    case GuardRecipient => v != NOTHING ==> Get(now, n) == v
    case GuardIdentity => v != NOTHING ==> Get(now, n) != NOTHING
    case _ => true
  }

  /** An ordinary write of a project's keyring; without force it must be new. */
  function Write(ks: Projects, project: string, entries: Entries, force: bool): Result<Projects> {
    var filed := FileKeys(entries);
    if project in ks && !force then Err("keyring already exists")
    else if project in ks && !Kept(ks[project], filed) then Err("keys are only ever added")
    else Ok(ks[project := filed])
  }

  /** An explicit, authenticated deletion: the one write that may drop keys. */
  function Reconcile(ks: Projects, project: string, entries: Entries): Projects {
    ks[project := FileKeys(entries)]
  }

  // ----- which entry wins -----

  /** The questions a merge may ask, and how it is answered; unattended, they are conflicts. */
  datatype Mode = Unattended | Asking(takeEntry: (string, Name) -> bool, takeHolders: string -> bool)

  datatype Choice = Keep | Take | Conflict

  /** The merge table for one ordinary name of the server's entries. */
  function Decide(m: Mode, p: string, local: Entries, remote: Entries, base: Entries, n: Name): Choice
    requires n in remote
  {
    var rv := remote[n];
    if n !in local then
      if GuardedHere(local, rv) || GuardedHere(remote, rv) then Keep else Take
    else if local[n] == rv then Keep
    else if n in base && local[n] == base[n] then Take
    else if n in base && rv == base[n] then Keep
    else match m
         case Unattended => Conflict
         case Asking(take, _) => if take(p, n) then Take else Keep
  }

  /** The table for the guard's own entries, as one unit. */
  function DecideGuard(m: Mode, p: string, local: Entries, remote: Entries, base: Entries): Choice {
    var id, rcpt, holders := GuardIdentity, GuardRecipient, GuardHolders;
    if Get(remote, id) == NOTHING then Keep
    else if Get(local, id) == NOTHING then Take
    else if Get(local, rcpt) != Get(remote, rcpt) then Conflict
    else if Get(local, id) == Get(remote, id) && Get(local, holders) == Get(remote, holders) then Keep
    else if Get(local, id) == Get(base, id) && Get(local, holders) == Get(base, holders) then Take
    else if Get(remote, id) == Get(base, id) && Get(remote, holders) == Get(base, holders) then Keep
    else match m
         case Unattended => Conflict
         case Asking(_, take) => if take(p) then Take else Keep
  }

  const GUARD_UNIT: set<Name> := {GuardIdentity, GuardRecipient, GuardHolders}

  function TakeGuard(local: Entries, remote: Entries): Entries {
    local[GuardIdentity := Get(remote, GuardIdentity)][GuardRecipient := Get(remote, GuardRecipient)][GuardHolders := Get(remote, GuardHolders)]
  }

  function Taken(m: Mode, p: string, local: Entries, remote: Entries, base: Entries): set<Name> {
    set n | n in remote && !n.IsGuardUnit() && Decide(m, p, local, remote, base, n) == Take
  }

  /** Names in conflict; a guard conflict is reported under the guard's identity. */
  function Conflicts(m: Mode, p: string, local: Entries, remote: Entries, base: Entries): set<Name> {
    (set n | n in remote && !n.IsGuardUnit() && Decide(m, p, local, remote, base, n) == Conflict)
    + (if DecideGuard(m, p, local, remote, base) == Conflict then {GuardIdentity} else {})
  }

  /** The pointwise three-way rule: every choice judged against the keyring as it was. */
  function Merged(m: Mode, p: string, local: Entries, remote: Entries, base: Entries): Entries {
    var l := if DecideGuard(m, p, local, remote, base) == Take then TakeGuard(local, remote) else local;
    l + map n | n in Taken(m, p, local, remote, base) :: remote[n]
  }

  predicate Changes(m: Mode, p: string, local: Entries, remote: Entries, base: Entries) {
    DecideGuard(m, p, local, remote, base) == Take || Taken(m, p, local, remote, base) != {}
  }

  /** A keyring that is not here yet takes everything but the clear copies of keys guarded elsewhere. */
  function Fresh(remote: Entries): Entries {
    map n | n in remote && !GuardedHere(remote, remote[n]) :: remote[n]
  }

  /** With automatic caching off: a local entry that differs from the vault's, unless the vault's is the base's. */
  function UncachedConflicts(local: Entries, remote: Entries, base: Entries): set<Name> {
    set n | n in local && n in remote && remote[n] != local[n] && remote[n] != Get(base, n)
  }

  predicate EntryNameChar(c: char) { 'A' <= c <= 'Z' || '0' <= c <= '9' || c == '_' }

  predicate SuffixOk(s: string) {
    1 <= |s| <= 128 && forall i | 0 <= i < |s| :: EntryNameChar(s[i])
  }

  /** The names a vault may write into a keyring. */
  predicate EntryNameOk(n: Name) {
    match n
    case KeyAlias(rest) => rest == "" || (rest[0] == '_' && SuffixOk(rest[1..]))
    case GuardEnv(rest) => SuffixOk("ENV_" + rest)
    case GuardOther(rest) => SuffixOk(rest)
    case Foreign(_) => false
    case _ => true
  }

  datatype CacheMode = Offline | Evicted

  predicate IsEvicted(policy: map<string, CacheMode>, p: string) {
    p in policy && policy[p] == Evicted
  }

  /** The keyrings and the conflicts so far. */
  datatype Progress = Progress(ks: Projects, conflicts: set<(string, Name)>)

  function Named(p: string, ns: set<Name>): set<(string, Name)> {
    set n | n in ns :: (p, n)
  }

  /** One project of the vault into the keyrings. */
  function MergeProject(m: Mode, policy: map<string, CacheMode>, at: Progress, p: string, remote: Entries, base: Entries): Result<Progress> {
    if IsEvicted(policy, p) then
      Ok(at.(conflicts := at.conflicts + Named(p, UncachedConflicts(EntriesOf(at.ks, p), remote, base))))
    else if exists n | n in remote :: !EntryNameOk(n) then Err("not a keyring entry name")
    else if p !in at.ks then
      match Write(at.ks, p, Fresh(remote), false)
      case Err(e) => Err(e)
      case Ok(ks) => Ok(at.(ks := ks))
    else
      var local := at.ks[p];
      var conflicts := at.conflicts + Named(p, Conflicts(m, p, local, remote, base));
      if !Changes(m, p, local, remote, base) then Ok(at.(conflicts := conflicts))
      else match Write(at.ks, p, Merged(m, p, local, remote, base), true)
           case Err(e) => Err(e)
           case Ok(ks) => Ok(Progress(ks, conflicts))
  }

  /** The vault's projects in turn. Projects written before an error stay written. */
  function MergeAll(m: Mode, policy: map<string, CacheMode>, at: Progress, remote: Projects, base: Projects, order: seq<string>): (Progress, Option<string>)
    requires forall p | p in order :: p in remote
  {
    if order == [] then (at, None) else
    var (before, failed) := MergeAll(m, policy, at, remote, base, order[..|order| - 1]);
    if failed.Some? then (before, failed) else
    var p := order[|order| - 1];
    match MergeProject(m, policy, before, p, remote[p], EntriesOf(base, p))
    case Err(e) => (before, Some(e))
    case Ok(next) => (next, None)
  }

  // ----- what the table promises -----

  /** A side changed a name since the base, or no base says. */
  predicate Changed(side: Entries, base: Entries, n: Name)
    requires n in side
  {
    n !in base || side[n] != base[n]
  }

  /**
   Unattended, on an ordinary name held by both sides: a server-only change is taken, a local-only change is
   kept, and exactly the names changed on both sides to different values are reported and left alone.
   */
  lemma ThreeWay(p: string, local: Entries, remote: Entries, base: Entries, n: Name)
    requires n in local && n in remote && !n.IsGuardUnit()
    ensures n in Merged(Unattended, p, local, remote, base)
    ensures !Changed(local, base, n) ==> Merged(Unattended, p, local, remote, base)[n] == remote[n]
    ensures Changed(local, base, n) ==> Merged(Unattended, p, local, remote, base)[n] == local[n]
    ensures n in Conflicts(Unattended, p, local, remote, base) <==>
      Changed(local, base, n) && Changed(remote, base, n) && local[n] != remote[n]
  {
  }

  /** Asked, the person decides just the names that would be reported, and none of them is. */
  lemma AskedNames(take: (string, Name) -> bool, takeHolders: string -> bool, p: string, local: Entries, remote: Entries, base: Entries, n: Name)
    requires !n.IsGuardUnit()
    ensures var m := Asking(take, takeHolders);
      var merged, unattended := Merged(m, p, local, remote, base), Merged(Unattended, p, local, remote, base);
      && n !in Conflicts(m, p, local, remote, base)
      && (n in local && n in remote && Changed(local, base, n) && Changed(remote, base, n) ==>
            Get(merged, n) == if take(p, n) then remote[n] else local[n])
      && (!(n in local && n in remote && Changed(local, base, n) && Changed(remote, base, n)) ==> Get(merged, n) == Get(unattended, n))
  {
    hide DecideGuard, Merged;
    MergedAt(Asking(take, takeHolders), p, local, remote, base, n);
    MergedAt(Unattended, p, local, remote, base, n);
  }

  /** And of the guard, whether theirs comes where both sides changed it under one recipient. Another recipient stays a conflict. */
  lemma AskedGuard(take: (string, Name) -> bool, takeHolders: string -> bool, p: string, local: Entries, remote: Entries, base: Entries)
    ensures var m := Asking(take, takeHolders);
      var merged, unattended := Merged(m, p, local, remote, base), Merged(Unattended, p, local, remote, base);
      && (GuardIdentity in Conflicts(m, p, local, remote, base) <==>
            && Get(local, GuardIdentity) != NOTHING && Get(remote, GuardIdentity) != NOTHING
            && Get(local, GuardRecipient) != Get(remote, GuardRecipient))
      && if GuardIdentity in Conflicts(Unattended, p, local, remote, base) && GuardIdentity !in Conflicts(m, p, local, remote, base)
         then SameGuard(merged, if takeHolders(p) then remote else local) else SameGuard(merged, unattended)
  {
    hide Decide, Merged;
    UnitAfter(Asking(take, takeHolders), p, local, remote, base);
    UnitAfter(Unattended, p, local, remote, base);
  }

  /** Ordinary names on one side only: a local one stays; the server's comes unless its key is guarded on either side. */
  lemma OneSided(m: Mode, p: string, local: Entries, remote: Entries, base: Entries, n: Name)
    requires (n in local) != (n in remote) && !n.IsGuardUnit()
    ensures n in local ==> n in Merged(m, p, local, remote, base) && Merged(m, p, local, remote, base)[n] == local[n]
    ensures n in remote ==>
      (n in Merged(m, p, local, remote, base) <==> !GuardedHere(local, remote[n]) && !GuardedHere(remote, remote[n]))
    ensures n in Merged(m, p, local, remote, base) && n in remote ==> Merged(m, p, local, remote, base)[n] == remote[n]
    ensures n !in Conflicts(m, p, local, remote, base)
  {
  }

  /** No local name disappears, and the guard's three entries come wholly from one side. */
  lemma MergeKeeps(m: Mode, p: string, local: Entries, remote: Entries, base: Entries)
    ensures local.Keys <= Merged(m, p, local, remote, base).Keys
    ensures (forall n | n in GUARD_UNIT :: Get(Merged(m, p, local, remote, base), n) == Get(local, n))
         || (forall n | n in GUARD_UNIT :: Get(Merged(m, p, local, remote, base), n) == Get(remote, n))
  {
  }

  /**
   The guard's three entries, by what each side holds of them, unattended. No guard there: this one stays. None here:
   theirs comes. Another recipient: this one stays, and it is reported. Under one recipient: a change made only there
   comes, a change made only here stays, and of two different changes this one stays and it is reported.
   */
  lemma GuardThreeWay(p: string, local: Entries, remote: Entries, base: Entries)
    ensures var merged, reported := Merged(Unattended, p, local, remote, base), GuardIdentity in Conflicts(Unattended, p, local, remote, base);
      && (Get(remote, GuardIdentity) == NOTHING ==> SameGuard(merged, local) && !reported)
      && (Get(remote, GuardIdentity) != NOTHING && Get(local, GuardIdentity) == NOTHING ==> SameGuard(merged, remote) && !reported)
      && (Get(remote, GuardIdentity) != NOTHING && Get(local, GuardIdentity) != NOTHING ==>
            && (Get(local, GuardRecipient) != Get(remote, GuardRecipient) ==> SameGuard(merged, local) && reported)
            && (Get(local, GuardRecipient) == Get(remote, GuardRecipient) ==>
                  && (SameSeal(local, base) ==> SameGuard(merged, remote) && !reported)
                  && (SameSeal(remote, base) ==> SameGuard(merged, local) && !reported)
                  && (!SameSeal(local, base) && !SameSeal(remote, base) ==>
                        SameGuard(merged, local) && (reported <==> !SameSeal(local, remote)))))
  {
    hide Decide;
    UnitAfter(Unattended, p, local, remote, base);
    if Get(local, GuardRecipient) == Get(remote, GuardRecipient) && SameSeal(local, base) && SameSeal(remote, base) {
      assert SameGuard(local, remote);
    }
  }

  /** The same three entries, where a missing one reads as empty. */
  predicate SameGuard(a: Entries, b: Entries) {
    && Get(a, GuardIdentity) == Get(b, GuardIdentity) && Get(a, GuardRecipient) == Get(b, GuardRecipient)
    && Get(a, GuardHolders) == Get(b, GuardHolders)
  }

  /** The same identity, sealed for the same holders. */
  predicate SameSeal(a: Entries, b: Entries) {
    Get(a, GuardIdentity) == Get(b, GuardIdentity) && Get(a, GuardHolders) == Get(b, GuardHolders)
  }

  /** Without conflicts it does not matter which side merges: on names both hold, the outcome is the same. */
  lemma MergeSymmetric(p: string, a: Entries, b: Entries, base: Entries, n: Name)
    requires n in a && n in b && !n.IsGuardUnit()
    requires n !in Conflicts(Unattended, p, a, b, base)
    ensures n !in Conflicts(Unattended, p, b, a, base)
    ensures Merged(Unattended, p, a, b, base)[n] == Merged(Unattended, p, b, a, base)[n]
  {
    ThreeWay(p, a, b, base, n);
    ThreeWay(p, b, a, base, n);
  }

  /** Filed keys are right, and a guarded entry holds a sealed key: not empty, and not a private key itself. */
  ghost predicate Regular(entries: Entries) {
    && (forall n | n in entries && n.PubEntry? :: entries[n] == Private(n.pub))
    && (forall n | n in entries && n.GuardEntry? :: entries[n] != NOTHING && entries[n].Plain?)
  }

  /** Merging regular keyrings leaves a regular one. */
  lemma MergedRegular(m: Mode, p: string, local: Entries, remote: Entries, base: Entries)
    requires Regular(local) && Regular(remote)
    ensures Regular(Merged(m, p, local, remote, base)) && Regular(FileKeys(Merged(m, p, local, remote, base)))
  {
  }

  /** A guarded key of either side is guarded in the outcome. */
  lemma GuardsCarry(m: Mode, p: string, local: Entries, remote: Entries, base: Entries, v: Value)
    requires Regular(local) && Regular(remote)
    requires GuardedHere(local, v) || GuardedHere(remote, v)
    ensures GuardedHere(Merged(m, p, local, remote, base), v)
    ensures GuardedHere(FileKeys(Merged(m, p, local, remote, base)), v)
  {
    hide Merged, FileKeys, Regular;
    GuardMerged(m, p, local, remote, base, v.pub);
    FilingKeeps(Merged(m, p, local, remote, base), GuardEntry(v.pub));
  }

  lemma GuardMerged(m: Mode, p: string, local: Entries, remote: Entries, base: Entries, pub: Pub)
    requires Regular(local) && Regular(remote)
    requires Get(local, GuardEntry(pub)) != NOTHING || Get(remote, GuardEntry(pub)) != NOTHING
    ensures Get(Merged(m, p, local, remote, base), GuardEntry(pub)) != NOTHING
  {
    hide DecideGuard;
    var g := GuardEntry(pub);
    assert g in remote ==> remote[g] != NOTHING;
    assert g in local ==> local[g] != NOTHING;
    if g in remote && g !in local {
      assert remote[g].Plain?;
      assert Decide(m, p, local, remote, base, g) == Take;
    }
  }

  lemma FilingKeeps(entries: Entries, n: Name)
    requires n in entries
    ensures n in FileKeys(entries) && FileKeys(entries)[n] == entries[n]
  {
  }

  /** What the table leaves under one ordinary name. */
  function Left(m: Mode, p: string, local: Entries, remote: Entries, base: Entries, n: Name): Value {
    if n in remote && !n.IsGuardUnit() && Decide(m, p, local, remote, base, n) == Take then remote[n] else Get(local, n)
  }

  /** The write that follows files this key: some named entry is left with it, and no guarded form of it is. */
  predicate GetsFiled(m: Mode, p: string, local: Entries, remote: Entries, base: Entries, pub: Pub) {
    && Left(m, p, local, remote, base, GuardEntry(pub)) == NOTHING
    && exists a | a in local.Keys + remote.Keys :: NamesKey(a) && Left(m, p, local, remote, base, a) == Private(pub)
  }

  /**
   A key's record, not here, that the vault holds with another key's private half: it is kept out because that
   key is guarded, the write files the record's own key, and over that the table would not keep what is here.
   */
  predicate Reopens(m: Mode, p: string, local: Entries, remote: Entries, base: Entries, n: Name)
    requires n in remote
  {
    && n.PubEntry? && n !in local
    && (GuardedHere(local, remote[n]) || GuardedHere(remote, remote[n]))
    && GetsFiled(m, p, local, remote, base, n.pub)
    && Decide(m, p, local[n := Private(n.pub)], remote, base, n) != Keep
  }

  /** The merge leaves nothing to do: merging again, with the same answers, takes nothing and reports the same conflicts. */
  ghost predicate NothingLeft(m: Mode, p: string, local: Entries, remote: Entries, base: Entries) {
    var again := FileKeys(Merged(m, p, local, remote, base));
    !Changes(m, p, again, remote, base)
    && Conflicts(m, p, again, remote, base) == Conflicts(m, p, local, remote, base)
  }

  /** The write of a merge is accepted exactly when it takes over no filed or guarded key, and no other guard. */
  lemma WriteAcceptedExactly(m: Mode, p: string, local: Entries, remote: Entries, base: Entries)
    ensures Kept(local, FileKeys(Merged(m, p, local, remote, base))) <==>
      && (forall n | n in local && n in remote && (n.PubEntry? || n.GuardEntry?) :: Decide(m, p, local, remote, base, n) != Take)
      && (DecideGuard(m, p, local, remote, base) == Take && Get(local, GuardRecipient) != NOTHING ==>
            Get(local, GuardRecipient) == Get(remote, GuardRecipient))
  {
    hide Decide, DecideGuard, FileKeys, Merged;
    var merged := Merged(m, p, local, remote, base);
    MergeKeeps(m, p, local, remote, base);
    forall n | n in local ensures n in FileKeys(merged) && FileKeys(merged)[n] == merged[n] {
      assert n in merged.Keys;
      FilingKeeps(merged, n);
    }
    forall n | n in local && (n.PubEntry? || n.GuardEntry?)
      ensures EntryKept(n, local[n], FileKeys(merged)) <==> !(n in remote && Decide(m, p, local, remote, base, n) == Take)
    {
      KeptOrTaken(m, p, local, remote, base, n);
    }
    UnitAfter(m, p, local, remote, base);
  }

  lemma KeptOrTaken(m: Mode, p: string, local: Entries, remote: Entries, base: Entries, n: Name)
    requires n in local && !n.IsGuardUnit()
    ensures n in Merged(m, p, local, remote, base)
    ensures Merged(m, p, local, remote, base)[n] == local[n] <==> !(n in remote && Decide(m, p, local, remote, base, n) == Take)
  {
    hide DecideGuard;
  }

  lemma UnitAfter(m: Mode, p: string, local: Entries, remote: Entries, base: Entries)
    ensures var merged := Merged(m, p, local, remote, base);
      && (forall n: Name | n.IsGuardUnit() ::
            Get(merged, n) == if DecideGuard(m, p, local, remote, base) == Take then Get(remote, n) else Get(local, n))
      && (DecideGuard(m, p, local, remote, base) == Take ==> Get(remote, GuardIdentity) != NOTHING)
  {
    hide Decide;
  }

  /**
   Once its write is accepted, a merge leaves nothing to do if and only if no misfiled record of the vault
   reopens. In particular it leaves nothing to do when the vault files every key under its own name.
   */
  lemma MergeIdempotent(m: Mode, p: string, local: Entries, remote: Entries, base: Entries)
    requires Kept(local, FileKeys(Merged(m, p, local, remote, base)))
    ensures NothingLeft(m, p, local, remote, base) <==> forall n | n in remote :: !Reopens(m, p, local, remote, base, n)
    ensures (forall n | n in remote && n.PubEntry? :: remote[n] == Private(n.pub)) ==> NothingLeft(m, p, local, remote, base)
  {
    hide Merged, Kept, Decide, DecideGuard, FileKeys, Reopens;
    var again := FileKeys(Merged(m, p, local, remote, base));
    GuardSettled(m, p, local, remote, base);
    forall n | n in remote ensures Reopens(m, p, local, remote, base, n) ==> n.PubEntry? && remote[n] != Private(n.pub) {
      if Reopens(m, p, local, remote, base, n) { ReopensMisfiled(m, p, local, remote, base, n); }
    }
    forall n | n in remote && !n.IsGuardUnit() ensures EntrySettledAt(m, p, local, remote, base, n) {
      EntrySettled(m, p, local, remote, base, n);
    }
    if n :| n in remote && Reopens(m, p, local, remote, base, n) {
      assert EntrySettledAt(m, p, local, remote, base, n);
      assert n in Taken(m, p, again, remote, base) || n in Conflicts(m, p, again, remote, base);
      assert n !in Conflicts(m, p, local, remote, base);
    }
  }

  lemma ReopensMisfiled(m: Mode, p: string, local: Entries, remote: Entries, base: Entries, n: Name)
    requires n in remote && Reopens(m, p, local, remote, base, n)
    ensures n.PubEntry? && remote[n] != Private(n.pub)
  {
    hide GetsFiled;
  }

  const MISFILED: Entries :=
    map[PubEntry("a") := Private("b"), GuardEntry("b") := Plain("sealed"), KeyAlias("_DEV") := Private("a")]

  /**
   So merging the same vault again does not always change nothing: into an empty keyring, a vault that files key b
   under a's record and holds b guarded. The first merge is written, and the second reports a conflict.
   */
  lemma MergeAgainConflicts(p: string)
    ensures var merged := FileKeys(Merged(Unattended, p, map[], MISFILED, map[]));
      && Kept(map[], merged) && !NothingLeft(Unattended, p, map[], MISFILED, map[])
      && Conflicts(Unattended, p, map[], MISFILED, map[]) == {} && PubEntry("a") in Conflicts(Unattended, p, merged, MISFILED, map[])
  {
    var none: Entries := map[];
    assert Left(Unattended, p, none, MISFILED, none, KeyAlias("_DEV")) == Private("a");
    assert KeyAlias("_DEV") in none.Keys + MISFILED.Keys;
    assert Reopens(Unattended, p, none, MISFILED, none, PubEntry("a"));
    MergeIdempotent(Unattended, p, none, MISFILED, none);
    EntrySettled(Unattended, p, none, MISFILED, none, PubEntry("a"));
    assert Conflicts(Unattended, p, none, MISFILED, none) == {};
  }

  lemma OnlyRecordsAreFiled(merged: Entries, n: Name)
    requires n !in merged && n in FileKeys(merged)
    ensures n.PubEntry? && FileKeys(merged)[n] == Private(n.pub)
  {
  }

  lemma GuardSettled(m: Mode, p: string, local: Entries, remote: Entries, base: Entries)
    ensures var again := FileKeys(Merged(m, p, local, remote, base));
      && DecideGuard(m, p, again, remote, base) != Take
      && (DecideGuard(m, p, again, remote, base) == Conflict <==> DecideGuard(m, p, local, remote, base) == Conflict)
  {
    hide DecideGuard;
    var again := FileKeys(Merged(m, p, local, remote, base));
    var took := DecideGuard(m, p, local, remote, base) == Take;
    forall n: Name | n in GUARD_UNIT ensures Get(again, n) == if took then Get(remote, n) else Get(local, n) {
      MergedGuard(m, p, local, remote, base, n);
    }
    SameUnit(m, p, again, if took then remote else local, remote, base);
    if took { TakenUnit(m, p, remote, base); }
  }

  lemma MergedGuard(m: Mode, p: string, local: Entries, remote: Entries, base: Entries, n: Name)
    requires n.IsGuardUnit()
    ensures Get(FileKeys(Merged(m, p, local, remote, base)), n) ==
      if DecideGuard(m, p, local, remote, base) == Take then Get(remote, n) else Get(local, n)
  {
    hide DecideGuard, Decide;
  }

  /** The guard's table reads only the guard's own entries. */
  lemma SameUnit(m: Mode, p: string, a: Entries, b: Entries, remote: Entries, base: Entries)
    requires forall n: Name | n in GUARD_UNIT :: Get(a, n) == Get(b, n)
    ensures DecideGuard(m, p, a, remote, base) == DecideGuard(m, p, b, remote, base)
  {
    assert Get(a, GuardIdentity) == Get(b, GuardIdentity) && Get(a, GuardRecipient) == Get(b, GuardRecipient)
        && Get(a, GuardHolders) == Get(b, GuardHolders);
  }

  lemma TakenUnit(m: Mode, p: string, remote: Entries, base: Entries)
    ensures DecideGuard(m, p, remote, remote, base) == Keep
  {
  }

  /** Judged again, a name is never taken and conflicts exactly when it did, unless it reopens. */
  ghost predicate EntrySettledAt(m: Mode, p: string, local: Entries, remote: Entries, base: Entries, n: Name)
    requires n in remote
  {
    var again := FileKeys(Merged(m, p, local, remote, base));
    if Reopens(m, p, local, remote, base, n) then
      Decide(m, p, again, remote, base, n) != Keep && Decide(m, p, local, remote, base, n) == Keep
    else
      && Decide(m, p, again, remote, base, n) != Take
      && (Decide(m, p, again, remote, base, n) == Conflict <==> Decide(m, p, local, remote, base, n) == Conflict)
  }

  lemma EntrySettled(m: Mode, p: string, local: Entries, remote: Entries, base: Entries, n: Name)
    requires Kept(local, FileKeys(Merged(m, p, local, remote, base)))
    requires n in remote && !n.IsGuardUnit()
    ensures EntrySettledAt(m, p, local, remote, base, n)
  {
    hide Kept, GetsFiled, DecideGuard, Merged, FileKeys;
    var merged := Merged(m, p, local, remote, base);
    var again := FileKeys(merged);
    MergedAt(m, p, local, remote, base, n);
    if n in merged {
      FilingKeeps(merged, n);
    } else {
      StillGuarded(m, p, local, remote, base, n);
      FiledExactly(m, p, local, remote, base, n);
      if n in again { OnlyRecordsAreFiled(merged, n); }
    }
  }

  lemma MergedAt(m: Mode, p: string, local: Entries, remote: Entries, base: Entries, n: Name)
    requires !n.IsGuardUnit()
    ensures n in Merged(m, p, local, remote, base) <==> n in local || (n in remote && Decide(m, p, local, remote, base, n) == Take)
    ensures Get(Merged(m, p, local, remote, base), n) == Left(m, p, local, remote, base, n)
  {
    hide DecideGuard, Decide;
  }

  /** Which absent names the write files. */
  lemma FiledExactly(m: Mode, p: string, local: Entries, remote: Entries, base: Entries, n: Name)
    requires n !in Merged(m, p, local, remote, base)
    ensures n in FileKeys(Merged(m, p, local, remote, base)) <==> n.PubEntry? && GetsFiled(m, p, local, remote, base, n.pub)
  {
    hide Merged, Left;
    var merged := Merged(m, p, local, remote, base);
    if n in FileKeys(merged) {
      var a :| a in merged && NamesKey(a) && merged[a].Private? && !GuardedHere(merged, merged[a]) && PubEntry(merged[a].pub) == n;
      MergedAt(m, p, local, remote, base, a);
      MergedAt(m, p, local, remote, base, GuardEntry(n.pub));
      assert a in local.Keys + remote.Keys;
    }
    if n.PubEntry? && GetsFiled(m, p, local, remote, base, n.pub) {
      var a :| a in local.Keys + remote.Keys && NamesKey(a) && Left(m, p, local, remote, base, a) == Private(n.pub);
      MergedAt(m, p, local, remote, base, a);
      MergedAt(m, p, local, remote, base, GuardEntry(n.pub));
      assert a in merged && merged[a] == Private(n.pub);
      assert PubEntry(merged[a].pub) in ToFile(merged);
    }
  }

  /** What was kept out as guarded is guarded after the write. */
  lemma StillGuarded(m: Mode, p: string, local: Entries, remote: Entries, base: Entries, n: Name)
    requires Kept(local, FileKeys(Merged(m, p, local, remote, base)))
    requires n in remote && !n.IsGuardUnit() && n !in Merged(m, p, local, remote, base)
    ensures n !in local && Decide(m, p, local, remote, base, n) == Keep
    ensures GuardedHere(local, remote[n]) || GuardedHere(remote, remote[n])
    ensures GuardedHere(FileKeys(Merged(m, p, local, remote, base)), remote[n]) || GuardedHere(remote, remote[n])
  {
    hide FileKeys, DecideGuard;
    if GuardedHere(local, remote[n]) {
      var g := GuardEntry(remote[n].pub);
      assert EntryKept(g, local[g], FileKeys(Merged(m, p, local, remote, base)));
    }
  }

  // ----- the merge as the program runs it -----

  /** A nonempty guarded entry here that the merge takes over with an empty one: the write that follows refuses it. */
  ghost predicate Blanks(m: Mode, p: string, local: Entries, remote: Entries, base: Entries, g: Name) {
    && g in local && g in remote && g.GuardEntry? && local[g] != NOTHING && remote[g] == NOTHING
    && Decide(m, p, local, remote, base, g) == Take
  }

  class Store {
    var ks: Projects

    constructor ()
      ensures ks == map[]
    {
      ks := map[];
    }

    method WriteKeys(project: string, entries: Entries, force: bool) returns (r: Result<()>)
      modifies this
      ensures match Write(old(ks), project, entries, force)
              case Ok(n) => r.Ok? && ks == n
              case Err(e) => r == Err(e) && ks == old(ks)
    {
      var filed := FileAll(entries);
      if project in ks && !force { return Err("keyring already exists"); }
      if project in ks && !Kept(ks[project], filed) { return Err("keys are only ever added"); }
      ks := ks[project := filed];
      return Ok(());
    }

    /**
     One project of the vault into this store: names are settled one at a time in the map being merged,
     and the result is written when anything changed.
     */
    method MergeInto(m: Mode, policy: map<string, CacheMode>, p: string, remote: Entries, base: Entries)
      returns (r: Result<()>, conflicts: set<Name>)
      modifies this
      ensures match MergeProject(m, policy, Progress(old(ks), {}), p, remote, base)
              case Ok(n) => r.Ok? && ks == n.ks && Named(p, conflicts) == n.conflicts
              case Err(e) => r == Err(e) && ks == old(ks)
    {
      hide Kept, FileKeys, DecideGuard, Decide, Merged;
      conflicts := {};
      if IsEvicted(policy, p) {
        conflicts := UncachedConflicts(EntriesOf(ks, p), remote, base);
        return Ok(()), conflicts;
      }
      if exists n | n in remote :: !EntryNameOk(n) { return Err("not a keyring entry name"), conflicts; }
      if p !in ks {
        r := WriteKeys(p, Fresh(remote), false);
        return;
      }
      ghost var before := ks[p];
      var local, changed, clashes := MergeEntries(m, p, ks[p], remote, base);
      conflicts := clashes;
      if changed {
        r := WriteKeys(p, local, true);
        if g :| Blanks(m, p, before, remote, base, g) {
          BlankRefused(before, g, local);
          BlankRefused(before, g, Merged(m, p, before, remote, base));
        }
      } else {
        r := Ok(());
      }
    }

    /** The vault's projects in turn, up to the first that fails; what was written before stays. */
    method MergeVault(m: Mode, policy: map<string, CacheMode>, remote: Projects, base: Projects, order: seq<string>)
      returns (stop: Option<string>, conflicts: set<(string, Name)>)
      requires forall p | p in order :: p in remote
      modifies this
      ensures MergeAll(m, policy, Progress(old(ks), {}), remote, base, order) == (Progress(ks, conflicts), stop)
    {
      hide MergeProject;
      ghost var from := Progress(ks, {});
      conflicts := {};
      for i := 0 to |order|
        invariant MergeAll(m, policy, from, remote, base, order[..i]) == (Progress(ks, conflicts), None)
      {
        assert order[..i + 1][..i] == order[..i];
        MergeReports(m, policy, Progress(ks, conflicts), order[i], remote[order[i]], EntriesOf(base, order[i]));
        var r, clashes := MergeInto(m, policy, order[i], remote[order[i]], EntriesOf(base, order[i]));
        if r.Err? {
          MergeStops(m, policy, from, remote, base, order, i + 1);
          return Some(r.error), conflicts;
        }
        conflicts := conflicts + Named(order[i], clashes);
      }
      assert order[..|order|] == order;
      return None, conflicts;
    }
  }

  lemma MergeReports(m: Mode, policy: map<string, CacheMode>, at: Progress, p: string, remote: Entries, base: Entries)
    ensures var alone := MergeProject(m, policy, Progress(at.ks, {}), p, remote, base);
      match MergeProject(m, policy, at, p, remote, base)
      case Ok(n) => alone == Ok(n.(conflicts := alone.value.conflicts)) && n.conflicts == at.conflicts + alone.value.conflicts
      case Err(e) => alone == Err(e)
  {
    hide Write, Merged, Changes, Conflicts, Fresh, UncachedConflicts, EntryNameOk;
  }

  lemma {:induction false} MergeStops(m: Mode, policy: map<string, CacheMode>, at: Progress, remote: Projects, base: Projects, order: seq<string>, n: nat)
    requires forall p | p in order :: p in remote
    requires n <= |order| && MergeAll(m, policy, at, remote, base, order[..n]).1.Some?
    ensures MergeAll(m, policy, at, remote, base, order) == MergeAll(m, policy, at, remote, base, order[..n])
    decreases |order|
  {
    hide MergeProject;
    if n == |order| {
      assert order[..n] == order;
    } else {
      assert order[..|order| - 1][..n] == order[..n];
      MergeStops(m, policy, at, remote, base, order[..|order| - 1], n);
    }
  }

  /** Adds the public-key entry of every named key that lacks one. */
  method FileAll(entries: Entries) returns (r: Entries)
    ensures r == FileKeys(entries)
  {
    r := entries;
    var todo := entries.Keys;
    while todo != {}
      invariant todo <= entries.Keys
      invariant forall n :: n in r <==> n in entries || (n in ToFile(entries) && exists a | a in entries && a !in todo :: Files(entries, a, n))
      invariant forall n | n in r :: r[n] == if n in entries then entries[n] else if n.PubEntry? then Private(n.pub) else NOTHING
    {
      var a :| a in todo;
      todo := todo - {a};
      assert forall n: Name | n.GuardEntry? :: n in r <==> n in entries;
      if NamesKey(a) && entries[a].Private? && !GuardedHere(r, entries[a]) && PubEntry(entries[a].pub) !in r {
        assert Files(entries, a, PubEntry(entries[a].pub));
        r := r[PubEntry(entries[a].pub) := entries[a]];
      }
    }
    assert forall n | n in ToFile(entries) :: exists a | a in entries :: Files(entries, a, n);
  }

  predicate Files(entries: Entries, a: Name, n: Name)
    requires a in entries
  {
    NamesKey(a) && entries[a].Private? && n == PubEntry(entries[a].pub) && !GuardedHere(entries, entries[a])
  }

  ghost predicate SomeBlank(m: Mode, p: string, here: Entries, remote: Entries, base: Entries) {
    exists g :: Blanks(m, p, here, remote, base, g)
  }

  /** The map being merged: visited names are settled as the table says, all others are as they were. */
  ghost predicate Settled(m: Mode, p: string, here: Entries, start: Entries, remote: Entries, base: Entries, todo: set<Name>, local: Entries) {
    forall n :: SettledAt(m, p, here, start, remote, base, todo, local, n)
  }

  ghost predicate SettledAt(m: Mode, p: string, here: Entries, start: Entries, remote: Entries, base: Entries, todo: set<Name>, local: Entries, n: Name) {
    if n !in remote || n.IsGuardUnit() || n in todo then
      (n in local <==> n in start) && (n in start ==> local[n] == start[n])
    else if Decide(m, p, here, remote, base, n) == Take then
      n in local && local[n] == remote[n]
    else if n in here then
      n in local && local[n] == here[n]
    else
      n in local ==> local[n] == remote[n] && SomeBlank(m, p, here, remote, base)
  }

  ghost predicate StartsFrom(here: Entries, start: Entries) {
    forall n: Name | !n.IsGuardUnit() :: (n in start <==> n in here) && (n in here ==> start[n] == here[n])
  }

  /**
   Judging a name against the map as it is by then gives the same choice as judging it against the keyring
   as it was, unless a guarded entry has been blanked in between.
   */
  lemma DecideSettled(m: Mode, p: string, here: Entries, start: Entries, remote: Entries, base: Entries, todo: set<Name>, local: Entries, n: Name)
    requires StartsFrom(here, start) && Settled(m, p, here, start, remote, base, todo, local)
    requires n in todo && n in remote && !n.IsGuardUnit()
    ensures var now, was := Decide(m, p, local, remote, base, n), Decide(m, p, here, remote, base, n);
      now == was
      || (now == Take && was == Keep && n !in here && exists g | g in Taken(m, p, here, remote, base) && g !in todo :: Blanks(m, p, here, remote, base, g))
  {
    assert SettledAt(m, p, here, start, remote, base, todo, local, n);
    if n !in here && remote[n].Private? {
      var g := GuardEntry(remote[n].pub);
      assert SettledAt(m, p, here, start, remote, base, todo, local, g);
      if Decide(m, p, local, remote, base, n) != Decide(m, p, here, remote, base, n) {
        assert Blanks(m, p, here, remote, base, g);
        assert g in Taken(m, p, here, remote, base);
      }
    }
  }

  lemma StillSettled(m: Mode, p: string, here: Entries, start: Entries, remote: Entries, base: Entries, todo: set<Name>, local: Entries, n: Name, next: Entries)
    requires StartsFrom(here, start) && Settled(m, p, here, start, remote, base, todo, local)
    requires n in todo && n in remote && !n.IsGuardUnit()
    requires next == if Decide(m, p, local, remote, base, n) == Take then local[n := remote[n]] else local
    ensures Settled(m, p, here, start, remote, base, todo - {n}, next)
  {
    hide Decide, Blanks;
    DecideSettled(m, p, here, start, remote, base, todo, local, n);
    forall k ensures SettledAt(m, p, here, start, remote, base, todo - {n}, next, k) {
      assert SettledAt(m, p, here, start, remote, base, todo, local, k);
    }
  }

  /** Taking a blank over a guarded entry is refused by the write, whichever way the rest was settled. */
  lemma BlankRefused(here: Entries, g: Name, local: Entries)
    requires g.GuardEntry? && g in here && here[g] != NOTHING && Get(local, g) == NOTHING
    ensures !Kept(here, FileKeys(local))
  {
    assert !EntryKept(g, here[g], FileKeys(local));
  }

  lemma AllSettled(m: Mode, p: string, here: Entries, start: Entries, remote: Entries, base: Entries, local: Entries)
    requires start == if DecideGuard(m, p, here, remote, base) == Take then TakeGuard(here, remote) else here
    requires Settled(m, p, here, start, remote, base, {}, local)
    ensures !SomeBlank(m, p, here, remote, base) ==> local == Merged(m, p, here, remote, base)
    ensures forall g | Blanks(m, p, here, remote, base, g) :: Get(local, g) == NOTHING && Get(Merged(m, p, here, remote, base), g) == NOTHING
  {
    hide DecideGuard, Decide;
    var merged := Merged(m, p, here, remote, base);
    if !SomeBlank(m, p, here, remote, base) {
      forall n ensures n in local <==> n in merged
        ensures n in local ==> local[n] == merged[n]
      {
        assert SettledAt(m, p, here, start, remote, base, {}, local, n);
      }
    }
    forall g | Blanks(m, p, here, remote, base, g) ensures Get(local, g) == NOTHING && Get(merged, g) == NOTHING {
      assert SettledAt(m, p, here, start, remote, base, {}, local, g);
      assert g in Taken(m, p, here, remote, base);
    }
  }

  lemma Tabled(m: Mode, p: string, here: Entries, remote: Entries, base: Entries)
    ensures forall n | n in remote && !n.IsGuardUnit() ::
      && (n in Taken(m, p, here, remote, base) <==> Decide(m, p, here, remote, base, n) == Take)
      && (n in Conflicts(m, p, here, remote, base) <==> Decide(m, p, here, remote, base, n) == Conflict)
    ensures forall n | n in Taken(m, p, here, remote, base) :: n in remote && !n.IsGuardUnit()
    ensures forall n | n in Conflicts(m, p, here, remote, base) :: n == GuardIdentity || (n in remote && !n.IsGuardUnit())
    ensures GuardIdentity in Conflicts(m, p, here, remote, base) <==> DecideGuard(m, p, here, remote, base) == Conflict
  {
    hide DecideGuard, Decide;
  }

  lemma SettledAtFirst(m: Mode, p: string, here: Entries, start: Entries, remote: Entries, base: Entries)
    requires start == if DecideGuard(m, p, here, remote, base) == Take then TakeGuard(here, remote) else here
    ensures StartsFrom(here, start)
    ensures Settled(m, p, here, start, remote, base, (set n | n in remote && !n.IsGuardUnit()), start)
  {
    hide DecideGuard, Decide;
  }

  /** Settles each ordinary name of the server's entries in turn, judged against the map as it is by then. */
  method MergeEntries(m: Mode, p: string, here: Entries, remote: Entries, base: Entries)
    returns (local: Entries, changed: bool, conflicts: set<Name>)
    ensures changed == Changes(m, p, here, remote, base) && conflicts == Conflicts(m, p, here, remote, base)
    ensures !SomeBlank(m, p, here, remote, base) ==> local == Merged(m, p, here, remote, base)
    ensures forall g | Blanks(m, p, here, remote, base, g) :: Get(local, g) == NOTHING && Get(Merged(m, p, here, remote, base), g) == NOTHING
  {
    hide DecideGuard, Decide, Merged, SomeBlank, Settled, Blanks, Taken, Conflicts;
    var guard := DecideGuard(m, p, here, remote, base);
    local, changed, conflicts := here, false, {};
    if guard == Take {
      local, changed := TakeGuard(local, remote), true;
    } else if guard == Conflict {
      conflicts := {GuardIdentity};
    }
    ghost var start := local;
    Tabled(m, p, here, remote, base);
    SettledAtFirst(m, p, here, start, remote, base);
    var todo := set n | n in remote && !n.IsGuardUnit();
    while todo != {}
      invariant todo <= set n | n in remote && !n.IsGuardUnit()
      invariant Settled(m, p, here, start, remote, base, todo, local)
      invariant changed == (guard == Take || exists n | n in Taken(m, p, here, remote, base) :: n !in todo)
      invariant conflicts == (set n | n in Conflicts(m, p, here, remote, base) && (n.IsGuardUnit() || n !in todo))
    {
      var n :| n in todo;
      DecideSettled(m, p, here, start, remote, base, todo, local, n);
      var now := Decide(m, p, local, remote, base, n);
      ghost var was := local;
      if now == Take {
        local, changed := local[n := remote[n]], true;
      } else if now == Conflict {
        conflicts := conflicts + {n};
      }
      StillSettled(m, p, here, start, remote, base, todo, was, n, local);
      assert n in remote && !n.IsGuardUnit();
      todo := todo - {n};
    }
    AllSettled(m, p, here, start, remote, base, local);
  }
}
