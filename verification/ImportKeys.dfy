/** Taking in the keys a project grants: which replace the key this device holds, and which are left alone. */
module ImportKeys {
  import opened Wrappers
  import opened KeyVault
  import opened Inventory
  import opened KeyMerge
  import opened EnvNames
  import opened Ordering
  import Names

  /** An environment of a project: its public key, and the ones it had before. */
  datatype Env = Env(pub: Pub, retired: seq<Pub>)

  /** Per environment of the project, the public keys this device got from it or gave to it. */
  type Held = map<string, seq<Pub>>

  function HeldAs(held: Held, env: string): seq<Pub> {
    if env in held then held[env] else []
  }

  /** No public key is listed twice. */
  predicate Once(pubs: seq<Pub>) {
    forall i, j | 0 <= i < j < |pubs| :: pubs[i] != pubs[j]
  }

  /** Records that this device holds pub as env, once. */
  function Hold(held: Held, env: string, pub: Pub): Held {
    if pub in HeldAs(held, env) then held else held[env := HeldAs(held, env) + [pub]]
  }

  /**
   The project: its environments, and whether the person agrees to replace an environment's key when asked.
   Unattended, nobody agrees.
   */
  datatype Project = Project(envs: map<string, Env>, agrees: string -> bool)

  ghost predicate ValidNames(t: Project) {
    forall env | env in t.envs :: ValidEnv(env)
  }

  /** An environment's entry may be repointed, or is the record of its own key: never the record of another. */
  predicate OwnSlot(t: Project, env: string) {
    env in t.envs && (Slot(env).KeyAlias? || Slot(env) == PubEntry(t.envs[env].pub))
  }

  ghost predicate OwnSlots(t: Project, keys: map<string, Value>) {
    forall env | env in keys :: OwnSlot(t, env)
  }

  /** Each granted key was checked against the public key the project's chain names. */
  ghost predicate Granted(t: Project, keys: map<string, Value>) {
    forall env | env in keys :: env in t.envs && keys[env] == Private(t.envs[env].pub)
  }

  datatype Draft = Draft(entries: Entries, held: Held, changed: bool, imported: set<string>, conflicts: set<string>)

  /** The key this device holds is an earlier key of the environment that it got from or gave to the project. */
  predicate Superseded(t: Project, held: Held, env: string, cur: Value)
    requires env in t.envs
  {
    cur.Private? && cur.pub in t.envs[env].retired && cur.pub in HeldAs(held, env)
  }

  /** Files one key under its public key. */
  function Filed(entries: Entries, v: Value): Entries {
    if v.Private? then entries[PubEntry(v.pub) := v] else entries
  }

  function ImportOne(t: Project, d: Draft, env: string, key: Value): Draft
    requires env in t.envs
  {
    var pub, slot := t.envs[env].pub, Slot(env);
    if GuardedHere(d.entries, key) then d.(held := Hold(d.held, env, pub))
    else if slot in d.entries && d.entries[slot] == key then
      File(d, env, pub, key)
    else if slot in d.entries then
      if !Superseded(t, d.held, env, d.entries[slot]) && !t.agrees(env) then d.(conflicts := d.conflicts + {env})
      else File(Draft(Filed(d.entries, d.entries[slot])[slot := key], d.held, true, d.imported + {env}, d.conflicts), env, pub, key)
    else File(Draft(d.entries[slot := key], d.held, true, d.imported + {env}, d.conflicts), env, pub, key)
  }

  /** The granted key under its public key, and on record as held. */
  function File(d: Draft, env: string, pub: Pub, key: Value): Draft {
    var filed := Get(d.entries, PubEntry(pub)) == key && PubEntry(pub) in d.entries;
    Draft(if filed then d.entries else d.entries[PubEntry(pub) := key], Hold(d.held, env, pub), d.changed || !filed, d.imported, d.conflicts)
  }

  function ImportAll(t: Project, d: Draft, keys: map<string, Value>, order: seq<string>): Draft
    requires Granted(t, keys) && forall env | env in order :: env in keys
  {
    if order == [] then d else
    var env := order[|order| - 1];
    ImportOne(t, ImportAll(t, d, keys, order[..|order| - 1]), env, keys[env])
  }

  function StartFrom(entries: Entries, held: Held): Draft {
    Draft(entries, held, false, {}, {})
  }

  // ----- no key is lost -----

  /** Every private key the keyring held is still there: under its name, or under its public key. */
  ghost predicate NoKeyLost(was: Entries, now: Entries) {
    forall m | m in was && was[m].Private? :: StillThere(now, m, was[m])
  }

  predicate StillThere(now: Entries, m: Name, v: Value)
    requires v.Private?
  {
    Get(now, m) == v || Get(now, PubEntry(v.pub)) == v
  }

  lemma OneKeepsKeys(t: Project, d: Draft, env: string, key: Value, was: Entries)
    requires OwnSlot(t, env) && key == Private(t.envs[env].pub)
    requires FiledRight(was) && FiledRight(d.entries) && NoKeyLost(was, d.entries) && Kept(was, d.entries)
    ensures FiledRight(ImportOne(t, d, env, key).entries) && NoKeyLost(was, ImportOne(t, d, env, key).entries)
    ensures Kept(was, ImportOne(t, d, env, key).entries)
  {
    hide ImportOne;
    var next := ImportOne(t, d, env, key).entries;
    forall n ensures Moves(t, env, d.entries, next, n) {
      OneMoves(t, d, env, key, n);
    }
    forall n | n in next && n.PubEntry? ensures next[n] == Private(n.pub) {
      assert Moves(t, env, d.entries, next, n);
    }
    forall m | m in was && was[m].Private? ensures StillThere(next, m, was[m]) {
      assert StillThere(d.entries, m, was[m]);
      assert Moves(t, env, d.entries, next, m) && Moves(t, env, d.entries, next, PubEntry(was[m].pub));
    }
    forall n | n in was ensures EntryKept(n, was[n], next) {
      assert EntryKept(n, was[n], d.entries) && Moves(t, env, d.entries, next, n);
    }
  }

  /** What importing one key may do to a name: file the right key under it, or repoint the environment's, whose old key is then filed. */
  ghost predicate Moves(t: Project, env: string, was: Entries, now: Entries, n: Name) {
    || (Get(now, n) == Get(was, n) && (n in now <==> n in was))
    || (n.PubEntry? && Get(now, n) == Private(n.pub))
    || (n.KeyAlias? && n in now && (n in was && was[n].Private? ==> Get(now, PubEntry(was[n].pub)) == was[n]))
  }

  lemma OneMoves(t: Project, d: Draft, env: string, key: Value, n: Name)
    requires env in t.envs && key == Private(t.envs[env].pub) && OwnSlot(t, env)
    ensures Moves(t, env, d.entries, ImportOne(t, d, env, key).entries, n)
  {
    hide Superseded, GuardedHere;
  }

  lemma {:induction false} AllKeepKeys(t: Project, d: Draft, keys: map<string, Value>, order: seq<string>)
    requires Granted(t, keys) && OwnSlots(t, keys) && forall env | env in order :: env in keys
    requires FiledRight(d.entries)
    ensures var next := ImportAll(t, d, keys, order).entries;
      FiledRight(next) && NoKeyLost(d.entries, next) && Kept(d.entries, next)
  {
    hide ImportOne, FiledRight, NoKeyLost, Kept;
    if order == [] {
      NothingLost(d.entries);
    } else {
      var front, env := order[..|order| - 1], order[|order| - 1];
      AllKeepKeys(t, d, keys, front);
      OneKeepsKeys(t, ImportAll(t, d, keys, front), env, keys[env], d.entries);
    }
  }

  lemma NothingLost(entries: Entries)
    ensures NoKeyLost(entries, entries) && Kept(entries, entries)
  {
  }

  // ----- what is replaced -----

  /** Replaced without asking: an earlier key of the environment, and on record as held before the import. */
  predicate Replaceable(t: Project, held: Held, env: string, v: Value)
  {
    env in t.envs && (Superseded(t, held, env, v) || t.agrees(env))
  }

  /** Every name still has its value, names a replaceable key's environment, or is the record of a key. */
  ghost predicate OnlyReplaceable(t: Project, held: Held, done: seq<string>, was: Entries, now: Entries) {
    forall m | m in was && !m.PubEntry? :: Get(now, m) == was[m] || exists env | env in done :: Slot(env) == m && Replaceable(t, held, env, was[m])
  }

  /** What is on record as held for environments still to come is what it was. */
  lemma HeldSoFar(t: Project, d: Draft, env: string, key: Value, other: string)
    requires env in t.envs && other != env
    ensures HeldAs(ImportOne(t, d, env, key).held, other) == HeldAs(d.held, other)
  {
  }

  lemma {:induction false} AllReplaceable(t: Project, d: Draft, keys: map<string, Value>, order: seq<string>)
    requires Granted(t, keys) && forall env | env in order :: env in keys
    requires forall i, j | 0 <= i < j < |order| :: order[i] != order[j]
    ensures var next := ImportAll(t, d, keys, order);
      && OnlyReplaceable(t, d.held, order, d.entries, next.entries)
      && (forall m | m in d.entries :: m in next.entries)
      && forall env | env !in order :: HeldAs(next.held, env) == HeldAs(d.held, env)
  {
    hide ImportOne, Replaceable;
    if order != [] {
      var front, env := order[..|order| - 1], order[|order| - 1];
      assert order == front + [env];
      AllReplaceable(t, d, keys, front);
      var before := ImportAll(t, d, keys, front);
      forall other | other !in order ensures HeldAs(ImportAll(t, d, keys, order).held, other) == HeldAs(d.held, other) {
        HeldSoFar(t, before, env, keys[env], other);
      }
      forall m | m in d.entries ensures m in ImportAll(t, d, keys, order).entries {
        OneReplaces(t, before, env, keys[env], m, d.held);
      }
      forall m | m in d.entries && !m.PubEntry?
        ensures Get(ImportAll(t, d, keys, order).entries, m) == d.entries[m]
          || exists e | e in order :: Slot(e) == m && Replaceable(t, d.held, e, d.entries[m])
      {
        OneReplaces(t, before, env, keys[env], m, d.held);
        if e :| e in front && Slot(e) == m && Replaceable(t, d.held, e, d.entries[m]) {
          assert e in order;
        } else {
          assert env in order;
        }
      }
    }
  }

  lemma OneReplaces(t: Project, d: Draft, env: string, key: Value, m: Name, held: Held)
    requires env in t.envs && HeldAs(d.held, env) == HeldAs(held, env)
    ensures var next := ImportOne(t, d, env, key).entries;
      m.PubEntry? || Get(next, m) == Get(d.entries, m) || m !in d.entries || (Slot(env) == m && Replaceable(t, held, env, d.entries[m]))
    ensures m in d.entries ==> m in ImportOne(t, d, env, key).entries
  {
  }

  // ----- what each granted key comes to -----

  /** A key the person must be asked about: another one is here, and it is not a superseded one. */
  predicate Refused(t: Project, held: Held, entries: Entries, env: string, key: Value)
    requires env in t.envs
  {
    && !GuardedHere(entries, key) && Slot(env) in entries && entries[Slot(env)] != key
    && !Superseded(t, held, env, entries[Slot(env)]) && !t.agrees(env)
  }

  /**
   Where the import stands with one environment: not reached yet, guarded here, left alone, or taken in. The record
   of its key is sure to hold it when no other environment's entry is that record, as quiet says.
   */
  ghost predicate Settled(t: Project, start: Draft, d: Draft, env: string, key: Value, reached: bool, quiet: bool)
    requires env in t.envs
  {
    var slot, pub := Slot(env), t.envs[env].pub;
    if !reached || Refused(t, start.held, start.entries, env, key) then
      && (slot.PubEntry? || SameAt(start.entries, d.entries, slot)) && HeldAs(d.held, env) == HeldAs(start.held, env)
      && (env in d.conflicts <==> reached || env in start.conflicts)
    else
      && (env in d.conflicts <==> env in start.conflicts) && pub in HeldAs(d.held, env)
      && (GuardedHere(start.entries, key)
          || (Get(d.entries, slot) == key && (quiet ==> Get(d.entries, PubEntry(pub)) == key)))
  }

  predicate SameAt(a: Entries, b: Entries, n: Name) {
    (n in a <==> n in b) && (n in a ==> a[n] == b[n])
  }

  /** If a name is a key's record and here, it holds that key. */
  predicate RecordRight(entries: Entries, n: Name) {
    n.PubEntry? && n in entries ==> entries[n] == Private(n.pub)
  }

  /** No other environment of the import has this one's record as its entry, unless for the same key. */
  predicate Quiet(t: Project, order: seq<string>, env: string)
    requires env in t.envs && forall e | e in order :: e in t.envs
  {
    forall e | e in order && e != env && Slot(e) == PubEntry(t.envs[env].pub) :: t.envs[e].pub == t.envs[env].pub
  }

  /** Importing one key settles it. */
  lemma SettleThis(t: Project, start: Draft, d: Draft, env: string, key: Value, quiet: bool)
    requires OwnSlot(t, env) && key == Private(t.envs[env].pub)
    requires RecordRight(start.entries, Slot(env)) && RecordRight(d.entries, Slot(env))
    requires Settled(t, start, d, env, key, false, quiet) && env !in start.conflicts
    requires GuardedHere(d.entries, key) == GuardedHere(start.entries, key)
    ensures Settled(t, start, ImportOne(t, d, env, key), env, key, true, quiet)
    ensures RecordRight(ImportOne(t, d, env, key).entries, Slot(env))
  {
    hide GuardedHere, Slot;
  }

  /** Importing one key disturbs no other environment. */
  lemma SettleOther(t: Project, start: Draft, d: Draft, env: string, key: Value, other: string, otherKey: Value, reached: bool, quiet: bool)
    requires env in t.envs && OwnSlot(t, other) && env != other && Slot(env) != Slot(other)
    requires key == Private(t.envs[env].pub) && otherKey == Private(t.envs[other].pub)
    requires quiet ==> Slot(env) != PubEntry(t.envs[other].pub) || t.envs[env].pub == t.envs[other].pub
    requires Settled(t, start, d, other, otherKey, reached, quiet) && RecordRight(d.entries, Slot(other))
    ensures Settled(t, start, ImportOne(t, d, env, key), other, otherKey, reached, quiet)
    ensures RecordRight(ImportOne(t, d, env, key).entries, Slot(other))
  {
    hide GuardedHere, Refused, Superseded, Slot;
    var next := ImportOne(t, d, env, key);
    HeldSoFar(t, d, env, key, other);
    assert Slot(other).PubEntry? || SameAt(d.entries, next.entries, Slot(other));
    if Slot(env) != PubEntry(t.envs[other].pub) || t.envs[env].pub == t.envs[other].pub { RightStays(t, d, env, key, t.envs[other].pub); }
    SlotStays(t, d, env, key, other);
    assert other in next.conflicts <==> other in d.conflicts;
  }

  /** What is filed stays filed, unless another key's environment has that record as its entry. */
  lemma RightStays(t: Project, d: Draft, env: string, key: Value, pub: Pub)
    requires env in t.envs && key == Private(t.envs[env].pub) && (Slot(env) != PubEntry(pub) || t.envs[env].pub == pub)
    ensures Get(d.entries, PubEntry(pub)) == Private(pub) ==> Get(ImportOne(t, d, env, key).entries, PubEntry(pub)) == Private(pub)
  {
    hide GuardedHere, Superseded, Slot;
  }

  lemma SlotStays(t: Project, d: Draft, env: string, key: Value, other: string)
    requires env in t.envs && key == Private(t.envs[env].pub) && OwnSlot(t, other) && Slot(env) != Slot(other)
    requires RecordRight(d.entries, Slot(other))
    ensures RecordRight(ImportOne(t, d, env, key).entries, Slot(other))
    ensures Get(d.entries, Slot(other)) == Private(t.envs[other].pub) ==> Get(ImportOne(t, d, env, key).entries, Slot(other)) == Private(t.envs[other].pub)
  {
    hide GuardedHere, Superseded, Slot;
  }

  lemma GuardsStay(t: Project, d: Draft, env: string, key: Value)
    requires env in t.envs
    ensures forall n: Name | n.GuardEntry? :: SameAt(d.entries, ImportOne(t, d, env, key).entries, n)
  {
    hide GuardedHere, Superseded, Slot;
  }

  lemma {:induction false} SettleAll(t: Project, start: Draft, keys: map<string, Value>, order: seq<string>, env: string, quiet: bool)
    requires Granted(t, keys) && ValidNames(t) && start.conflicts == {}
    requires (forall e | e in order :: e in keys) && env in keys && OwnSlot(t, env) && RecordRight(start.entries, Slot(env))
    requires forall i, j | 0 <= i < j < |order| :: order[i] != order[j]
    requires quiet ==> Quiet(t, order, env)
    ensures Settled(t, start, ImportAll(t, start, keys, order), env, keys[env], env in order, quiet)
    ensures RecordRight(ImportAll(t, start, keys, order).entries, Slot(env))
    ensures forall n: Name | n.GuardEntry? :: SameAt(start.entries, ImportAll(t, start, keys, order).entries, n)
  {
    hide ImportOne, Refused, Settled, Slot, RecordRight, ValidEnv;
    if order == [] {
      NotReached(t, start, env, keys[env], quiet);
    } else {
      var front, last := order[..|order| - 1], order[|order| - 1];
      assert order == front + [last];
      SettleAll(t, start, keys, front, env, quiet);
      var before := ImportAll(t, start, keys, front);
      GuardsStay(t, before, last, keys[last]);
      if last == env {
        assert SameAt(start.entries, before.entries, GuardEntry(keys[env].pub));
        SettleThis(t, start, before, env, keys[env], quiet);
      } else {
        assert last in order && ValidEnv(last) && ValidEnv(env);
        if Slot(last) == Slot(env) { SlotInjective(last, env); }
        SettleOther(t, start, before, last, keys[last], env, keys[env], env in front, quiet);
      }
    }
  }

  lemma NotReached(t: Project, start: Draft, env: string, key: Value, quiet: bool)
    requires env in t.envs
    ensures Settled(t, start, start, env, key, false, quiet)
    ensures forall n: Name | n.GuardEntry? :: SameAt(start.entries, start.entries, n)
  {
    hide Slot;
  }

  /** An environment is among those taken in exactly when importing it changed its entry. */
  lemma ImportedExactly(t: Project, d: Draft, env: string, key: Value)
    requires env in t.envs && key == Private(t.envs[env].pub)
    ensures var next := ImportOne(t, d, env, key);
      && next.imported == d.imported + (if !GuardedHere(d.entries, key) && !Refused(t, d.held, d.entries, env, key)
                                            && !(Slot(env) in d.entries && d.entries[Slot(env)] == key) then {env} else {})
      && next.conflicts == d.conflicts + (if Refused(t, d.held, d.entries, env, key) then {env} else {})
      && (next.changed <==> d.changed || next.entries != d.entries)
      && next.held == (if Refused(t, d.held, d.entries, env, key) then d.held else Hold(d.held, env, t.envs[env].pub))
  {
    hide GuardedHere, Superseded, Slot;
  }

  // ----- the import, written to the store -----

  datatype Outcome = Imported(ks: Projects, held: Held, imported: set<string>, conflicts: set<string>)

  function ImportInto(t: Project, ks: Projects, p: string, keys: map<string, Value>, held: Held, order: seq<string>): Result<Outcome>
    requires Granted(t, keys) && forall env | env in order :: env in keys
  {
    var d := ImportAll(t, StartFrom(EntriesOf(ks, p), held), keys, order);
    if !d.changed then Ok(Imported(ks, d.held, d.imported, d.conflicts)) else
    match Write(ks, p, d.entries, true)
    case Err(e) => Err(e)
    case Ok(next) => Ok(Imported(next, d.held, d.imported, d.conflicts))
  }

  lemma FilingAdds(was: Entries, entries: Entries)
    requires FiledRight(was) && NoKeyLost(was, entries) && Kept(was, entries)
    ensures NoKeyLost(was, FileKeys(entries)) && Kept(was, FileKeys(entries))
    ensures forall m | m in entries :: m in FileKeys(entries) && FileKeys(entries)[m] == entries[m]
  {
    assert forall m | m in entries :: m in FileKeys(entries) && FileKeys(entries)[m] == entries[m];
    forall m | m in was && was[m].Private? ensures StillThere(FileKeys(entries), m, was[m]) {
      assert StillThere(entries, m, was[m]);
    }
    forall n | n in was ensures EntryKept(n, was[n], FileKeys(entries)) {
      assert EntryKept(n, was[n], entries);
    }
  }

  lemma UnchangedDraft(t: Project, d: Draft, keys: map<string, Value>, order: seq<string>)
    requires Granted(t, keys) && forall env | env in order :: env in keys
    ensures !ImportAll(t, d, keys, order).changed ==> ImportAll(t, d, keys, order).entries == d.entries && !d.changed
  {
    if order != [] { UnchangedDraft(t, d, keys, order[..|order| - 1]); }
  }

  /**
   When every environment's entry is an alias or its own key's record, the import into any well-formed keyring
   succeeds and leaves it well formed, and every private key it held is still there, under the name it had or
   under its public key.
   */
  lemma OwnSlotsImport(t: Project, ks: Projects, p: string, keys: map<string, Value>, held: Held, order: seq<string>)
    requires Granted(t, keys) && OwnSlots(t, keys) && forall env | env in order :: env in keys
    requires FiledRight(EntriesOf(ks, p))
    ensures var r := ImportInto(t, ks, p, keys, held, order);
      r.Ok? && NoKeyLost(EntriesOf(ks, p), EntriesOf(r.value.ks, p)) && FiledRight(EntriesOf(r.value.ks, p))
  {
    hide ImportOne, NoKeyLost, Kept, FileKeys, Slot;
    var entries := EntriesOf(ks, p);
    var d := ImportAll(t, StartFrom(entries, held), keys, order);
    AllKeepKeys(t, StartFrom(entries, held), keys, order);
    FilingAdds(entries, d.entries);
    FiledStaysRight(d.entries);
    UnchangedDraft(t, StartFrom(entries, held), keys, order);
    NothingLost(entries);
  }

  lemma FiledStaysRight(entries: Entries)
    requires FiledRight(entries)
    ensures FiledRight(FileKeys(entries))
  {
  }

  /** What a written import leaves: the draft's entries, and records of named keys besides. */
  lemma Written(t: Project, ks: Projects, p: string, keys: map<string, Value>, held: Held, order: seq<string>, m: Name)
    requires Granted(t, keys) && forall env | env in order :: env in keys
    requires ImportInto(t, ks, p, keys, held, order).Ok?
    ensures var d := ImportAll(t, StartFrom(EntriesOf(ks, p), held), keys, order);
      var now := EntriesOf(ImportInto(t, ks, p, keys, held, order).value.ks, p);
      && (m in d.entries ==> m in now && now[m] == d.entries[m])
      && (m in EntriesOf(ks, p) ==> EntryKept(m, EntriesOf(ks, p)[m], now))
  {
    hide ImportOne, FileKeys;
    var start := StartFrom(EntriesOf(ks, p), held);
    var d := ImportAll(t, start, keys, order);
    UnchangedDraft(t, start, keys, order);
    if d.changed {
      if m in d.entries { FilingKeeps(d.entries, m); }
      if m in EntriesOf(ks, p) { KeptAt(ks[p], FileKeys(d.entries), m); }
    }
  }

  /**
   Unattended, the value of a name is replaced only if it is the key of an environment being granted, that
   key was both retired in the project and on record as held before the import, and the name is that
   environment's. Records of keys are never replaced.
   */
  lemma ReplacedOnlyIfHeld(t: Project, ks: Projects, p: string, keys: map<string, Value>, held: Held, order: seq<string>, m: Name)
    requires Granted(t, keys) && forall env | env in order :: env in keys
    requires forall i, j | 0 <= i < j < |order| :: order[i] != order[j]
    requires (forall env {:trigger t.agrees(env)} :: !t.agrees(env)) && m in EntriesOf(ks, p)
    requires ImportInto(t, ks, p, keys, held, order).Ok?
    ensures var now := EntriesOf(ImportInto(t, ks, p, keys, held, order).value.ks, p);
      || Get(now, m) == EntriesOf(ks, p)[m]
      || (!m.PubEntry? && exists env | env in order :: Slot(env) == m && Superseded(t, held, env, EntriesOf(ks, p)[m]))
  {
    hide ImportOne, Superseded, Slot, ImportInto, ImportAll;
    AllReplaceable(t, StartFrom(EntriesOf(ks, p), held), keys, order);
    Written(t, ks, p, keys, held, order, m);
  }

  lemma KeptAt(a: Entries, b: Entries, n: Name)
    requires Kept(a, b) && n in a
    ensures EntryKept(n, a[n], b)
  {
  }

  lemma RefusedIsHere(t: Project, held: Held, entries: Entries, env: string, key: Value)
    requires OwnSlot(t, env) && key == Private(t.envs[env].pub) && RecordRight(entries, Slot(env)) && Refused(t, held, entries, env, key)
    ensures Slot(env) in entries && !Slot(env).PubEntry?
  {
    hide Slot;
  }

  /**
   What each granted key comes to, whatever the other environments are called: it is reported as a conflict exactly
   when another key is here that was not both retired and held and the person did not agree; then nothing about the
   environment changes. Otherwise it is on record as held, and in the keyring under its name unless it is guarded
   here, and under its public key too unless another environment has that record as its entry.
   */
  lemma ConflictsExact(t: Project, ks: Projects, p: string, keys: map<string, Value>, held: Held, order: seq<string>, env: string)
    requires Granted(t, keys) && ValidNames(t) && forall e | e in order :: e in keys
    requires forall i, j | 0 <= i < j < |order| :: order[i] != order[j]
    requires env in order && OwnSlot(t, env) && RecordRight(EntriesOf(ks, p), Slot(env))
    requires ImportInto(t, ks, p, keys, held, order).Ok?
    ensures var r := ImportInto(t, ks, p, keys, held, order).value;
      var slot, pub, key, entries := Slot(env), t.envs[env].pub, keys[env], EntriesOf(r.ks, p);
      && (env in r.conflicts <==> Refused(t, held, EntriesOf(ks, p), env, key))
      && (env in r.conflicts ==> Get(entries, slot) == Get(EntriesOf(ks, p), slot) && HeldAs(r.held, env) == HeldAs(held, env))
      && (env !in r.conflicts ==> pub in HeldAs(r.held, env))
      && (env !in r.conflicts && !GuardedHere(EntriesOf(ks, p), key) ==>
            Get(entries, slot) == key && (Quiet(t, order, env) ==> Get(entries, PubEntry(pub)) == key))
  {
    hide ImportOne, ImportAll, Refused, GuardedHere, Superseded, Slot, Quiet;
    SettleAll(t, StartFrom(EntriesOf(ks, p), held), keys, order, env, Quiet(t, order, env));
    if Refused(t, held, EntriesOf(ks, p), env, keys[env]) { RefusedIsHere(t, held, EntriesOf(ks, p), env, keys[env]); }
    Written(t, ks, p, keys, held, order, Slot(env));
    Written(t, ks, p, keys, held, order, PubEntry(t.envs[env].pub));
  }

  // ----- environments named like a public key -----

  /** The import would go on to write the granted key over the record of another. */
  predicate Overwrites(t: Project, held: Held, entries: Entries, env: string)
    requires env in t.envs
  {
    var key := Private(t.envs[env].pub);
    && Slot(env).PubEntry? && Slot(env).pub != t.envs[env].pub
    && !GuardedHere(entries, key) && !Refused(t, held, entries, env, key)
  }

  function GrantOf(t: Project, env: string): map<string, Value>
    requires env in t.envs
  {
    map[env := Private(t.envs[env].pub)]
  }

  /**
   Granting one environment: the import is refused exactly when it would replace the record of another key that
   is here, and leaves that record holding the wrong key exactly when the record is not here. In every other
   case it succeeds and the keyring stays well formed.
   */
  lemma GrantExactly(t: Project, ks: Projects, p: string, held: Held, env: string)
    requires env in t.envs && FiledRight(EntriesOf(ks, p))
    ensures var r := ImportInto(t, ks, p, GrantOf(t, env), held, [env]);
      && (r.Err? <==> Overwrites(t, held, EntriesOf(ks, p), env) && Slot(env) in EntriesOf(ks, p))
      && (r.Ok? ==> (FiledRight(EntriesOf(r.value.ks, p)) <==> !Overwrites(t, held, EntriesOf(ks, p), env)))
  {
    hide FileKeys, GuardedHere, Superseded;
    var keys, entries := GrantOf(t, env), EntriesOf(ks, p);
    var start := StartFrom(entries, held);
    assert [env][..0] == [];
    assert ImportAll(t, start, keys, [env]) == ImportOne(t, start, env, keys[env]);
    if OwnSlot(t, env) {
      OwnSlotsImport(t, ks, p, keys, held, [env]);
    } else if Overwrites(t, held, entries, env) {
      OverwriteShows(t, ks, p, held, env);
    } else {
      assert ImportOne(t, start, env, keys[env]).entries == entries && !ImportOne(t, start, env, keys[env]).changed;
    }
  }

  lemma OverwriteShows(t: Project, ks: Projects, p: string, held: Held, env: string)
    requires env in t.envs && FiledRight(EntriesOf(ks, p)) && Overwrites(t, held, EntriesOf(ks, p), env)
    ensures var d := ImportOne(t, StartFrom(EntriesOf(ks, p), held), env, Private(t.envs[env].pub));
      var r := Write(ks, p, d.entries, true);
      && d.changed && (r.Err? <==> Slot(env) in EntriesOf(ks, p))
      && (r.Ok? ==> !FiledRight(EntriesOf(r.value, p)))
  {
    hide GuardedHere, Superseded, FileKeys;
    var entries, slot, key := EntriesOf(ks, p), Slot(env), Private(t.envs[env].pub);
    var d := ImportOne(t, StartFrom(entries, held), env, key);
    assert slot in d.entries && d.entries[slot] == key;
    FilingKeepsNames(d.entries);
    if slot in entries {
      assert !EntryKept(slot, entries[slot], FileKeys(d.entries));
    } else {
      forall n | n in entries ensures EntryKept(n, entries[n], FileKeys(d.entries)) {
        assert n != slot && (n == PubEntry(key.pub) || d.entries[n] == entries[n]);
      }
    }
  }

  lemma FilingKeepsNames(entries: Entries)
    ensures forall m | m in entries :: m in FileKeys(entries) && FileKeys(entries)[m] == entries[m]
  {
  }

  ghost predicate Fine(t: Project, ks: Projects, p: string, keys: map<string, Value>, held: Held, order: seq<string>) {
    Granted(t, keys) && (forall env | env in order :: env in keys) && FiledRight(EntriesOf(ks, p)) ==>
      var r := ImportInto(t, ks, p, keys, held, order);
      r.Ok? && FiledRight(EntriesOf(r.value.ks, p))
  }

  /**
   Every grant of a project can be imported into every well-formed keyring and leaves it well formed, if and only
   if no environment's entry is the record of another key.
   */
  lemma ImportsFineExactly(t: Project)
    ensures (forall ks, p, keys, held, order :: Fine(t, ks, p, keys, held, order)) <==> forall env | env in t.envs :: OwnSlot(t, env)
  {
    hide ImportInto, FiledRight;
    if forall env | env in t.envs :: OwnSlot(t, env) {
      forall ks, p, keys, held, order ensures Fine(t, ks, p, keys, held, order) {
        if Granted(t, keys) && (forall env | env in order :: env in keys) && FiledRight(EntriesOf(ks, p)) {
          OwnSlotsImport(t, ks, p, keys, held, order);
        }
      }
    } else {
      var env :| env in t.envs && !OwnSlot(t, env);
      NothingFiled();
      GrantExactly(t, map[], "", map[], env);
      assert Overwrites(t, map[], map[], env);
      assert !Fine(t, map[], "", GrantOf(t, env), map[], [env]);
    }
  }

  lemma NothingFiled()
    ensures FiledRight(map[])
  {
  }

  /** Whatever the environments are called, an import that is written leaves every filed key as it was. */
  lemma FiledKeysStay(t: Project, ks: Projects, p: string, keys: map<string, Value>, held: Held, order: seq<string>, pub: Pub)
    requires Granted(t, keys) && forall env | env in order :: env in keys
    requires PubEntry(pub) in EntriesOf(ks, p) && ImportInto(t, ks, p, keys, held, order).Ok?
    ensures var entries := EntriesOf(ImportInto(t, ks, p, keys, held, order).value.ks, p);
      Get(entries, PubEntry(pub)) == EntriesOf(ks, p)[PubEntry(pub)]
  {
    hide ImportOne, ImportInto, ImportAll;
    Written(t, ks, p, keys, held, order, PubEntry(pub));
  }

  // ----- exactly when a key can be lost -----

  /** A key is filed under its public key, or held in its guarded form. */
  predicate Safe(entries: Entries, pub: Pub) {
    Get(entries, PubEntry(pub)) == Private(pub) || Get(entries, GuardEntry(pub)) != NOTHING
  }

  /** Whatever the environments are called: a key that is filed or guarded is so after every import that is written. */
  lemma SafeKeysStay(t: Project, ks: Projects, p: string, keys: map<string, Value>, held: Held, order: seq<string>)
    requires Granted(t, keys) && forall env | env in order :: env in keys
    requires ImportInto(t, ks, p, keys, held, order).Ok?
    ensures forall pub | Safe(EntriesOf(ks, p), pub) :: Safe(EntriesOf(ImportInto(t, ks, p, keys, held, order).value.ks, p), pub)
  {
    hide ImportInto;
    forall pub | Safe(EntriesOf(ks, p), pub) ensures Safe(EntriesOf(ImportInto(t, ks, p, keys, held, order).value.ks, p), pub) {
      Written(t, ks, p, keys, held, order, PubEntry(pub));
      Written(t, ks, p, keys, held, order, GuardEntry(pub));
    }
  }

  /** An environment whose entry may be taken from a key that is not its own: the person agrees, or it is an earlier one. */
  predicate GivesUp(t: Project, env: string, pub: Pub) {
    env in t.envs && t.envs[env].pub != pub && (t.agrees(env) || pub in t.envs[env].retired)
  }

  /** One environment gives up the key, which is then only on record, and a later one has that record as its entry and gives it up too. */
  predicate Endangers(t: Project, a: string, b: string, pub: Pub) {
    Before(a, b) && Slot(a).KeyAlias? && Slot(b) == PubEntry(pub) && GivesUp(t, a, pub) && GivesUp(t, b, pub)
  }

  ghost predicate Endangered(t: Project, pub: Pub) {
    exists a, b :: Endangers(t, a, b, pub)
  }

  /** Where a key under some name stands: there still, or given up by that name's environment and filed. */
  predicate Follows(t: Project, done: seq<string>, entries: Entries, m: Name, pub: Pub) {
    || Get(entries, m) == Private(pub)
    || (Get(entries, PubEntry(pub)) == Private(pub) && exists a | a in done :: Slot(a) == m && GivesUp(t, a, pub))
  }

  lemma NameStays(t: Project, d: Draft, env: string, key: Value, m: Name, pub: Pub)
    requires env in t.envs && key == Private(t.envs[env].pub) && !m.PubEntry? && Get(d.entries, m) == Private(pub)
    ensures var next := ImportOne(t, d, env, key).entries;
      Get(next, m) == Private(pub) || (Slot(env) == m && GivesUp(t, env, pub) && Get(next, PubEntry(pub)) == Private(pub))
  {
    hide GuardedHere, Slot;
  }

  lemma RecordStays(t: Project, d: Draft, env: string, key: Value, pub: Pub)
    requires env in t.envs && key == Private(t.envs[env].pub) && Get(d.entries, PubEntry(pub)) == Private(pub)
    ensures Get(ImportOne(t, d, env, key).entries, PubEntry(pub)) == Private(pub) || (Slot(env) == PubEntry(pub) && GivesUp(t, env, pub))
  {
    hide GuardedHere, Slot;
  }

  lemma OneFollows(t: Project, done: seq<string>, d: Draft, env: string, key: Value, m: Name, pub: Pub)
    requires env in t.envs && key == Private(t.envs[env].pub) && !m.PubEntry? && Follows(t, done, d.entries, m, pub)
    requires forall a | a in done :: Before(a, env)
    requires !Endangered(t, pub)
    ensures Follows(t, done + [env], ImportOne(t, d, env, key).entries, m, pub)
  {
    hide ImportOne, GivesUp, Slot, Before;
    assert env in done + [env];
    if Get(d.entries, m) == Private(pub) {
      NameStays(t, d, env, key, m, pub);
    } else {
      RecordStays(t, d, env, key, pub);
      var a :| a in done && Slot(a) == m && GivesUp(t, a, pub);
      assert a in done + [env];
      SlotKinds(a);
      assert !Endangers(t, a, env, pub);
    }
  }

  lemma SlotKinds(env: string)
    ensures Slot(env).KeyAlias? || Slot(env).PubEntry?
  {
  }

  lemma {:induction false} AllFollow(t: Project, d: Draft, keys: map<string, Value>, order: seq<string>, m: Name, pub: Pub)
    requires Granted(t, keys) && (forall env | env in order :: env in keys) && Sorted(order)
    requires !m.PubEntry? && Get(d.entries, m) == Private(pub) && !Endangered(t, pub)
    ensures Follows(t, order, ImportAll(t, d, keys, order).entries, m, pub)
  {
    hide ImportOne, Follows, Slot, Before, Endangered;
    if order == [] {
      assert Follows(t, [], d.entries, m, pub) by { StillHere(t, d.entries, m, pub); }
    } else {
      var front, env := order[..|order| - 1], order[|order| - 1];
      assert order == front + [env];
      AllFollow(t, d, keys, front, m, pub);
      OneFollows(t, front, ImportAll(t, d, keys, front), env, keys[env], m, pub);
    }
  }

  lemma StillHere(t: Project, entries: Entries, m: Name, pub: Pub)
    requires Get(entries, m) == Private(pub)
    ensures Follows(t, [], entries, m, pub)
  {
  }

  /** A written import, environments in the order of their names, leaves this key under this name or its public key. */
  ghost predicate Spares(t: Project, ks: Projects, p: string, keys: map<string, Value>, held: Held, order: seq<string>, m: Name, pub: Pub) {
    Granted(t, keys) && (forall env | env in order :: env in keys) && Sorted(order) && Get(EntriesOf(ks, p), m) == Private(pub) ==>
      var r := ImportInto(t, ks, p, keys, held, order);
      r.Ok? ==> StillThere(EntriesOf(r.value.ks, p), m, Private(pub))
  }

  /** No key is lost but one that two environments give up in turn, the second of them named like it. */
  lemma ImportLosesNoKey(t: Project, ks: Projects, p: string, keys: map<string, Value>, held: Held, order: seq<string>, m: Name, pub: Pub)
    requires !Endangered(t, pub)
    ensures Spares(t, ks, p, keys, held, order, m, pub)
  {
    hide ImportInto, ImportAll, Endangered, Sorted, Slot, Kept, FileKeys;
    if Granted(t, keys) && (forall env | env in order :: env in keys) && Sorted(order) && Get(EntriesOf(ks, p), m) == Private(pub)
       && ImportInto(t, ks, p, keys, held, order).Ok? {
      Written(t, ks, p, keys, held, order, m);
      Written(t, ks, p, keys, held, order, PubEntry(pub));
      if !m.PubEntry? {
        AllFollow(t, StartFrom(EntriesOf(ks, p), held), keys, order, m, pub);
      }
    }
  }

  /** The import that loses such a key: it was only under the first environment's name, and both keys are granted. */
  lemma ImportLosesKey(t: Project, p: string, a: string, b: string, pub: Pub)
    requires Endangers(t, a, b, pub)
    ensures var keys, held := map[a := Private(t.envs[a].pub), b := Private(t.envs[b].pub)], map[a := [pub], b := [pub]];
      var was: Entries := map[Slot(a) := Private(pub)];
      && Granted(t, keys) && Sorted([a, b]) && FiledRight(was)
      && var r := ImportInto(t, map[p := was], p, keys, held, [a, b]);
        r.Ok? && forall n :: Get(EntriesOf(r.value.ks, p), n) != Private(pub)
  {
    hide Slot, Before, FileKeys, ImportOne;
    var ka, kb := Private(t.envs[a].pub), Private(t.envs[b].pub);
    var keys, held := map[a := ka, b := kb], map[a := [pub], b := [pub]];
    var was: Entries := map[Slot(a) := Private(pub)];
    var start := StartFrom(was, held);
    assert [a, b][..1] == [a] && [a][..0] == [];
    FirstGivesUp(t, a, b, pub);
    var one := ImportOne(t, start, a, ka);
    assert ImportAll(t, start, keys, [a]) == one;
    SecondGivesUp(t, one, b, pub);
    var two := ImportOne(t, one, b, kb);
    assert ImportAll(t, start, keys, [a, b]) == two;
    NothingLeftOf(two.entries, pub);
  }

  lemma FirstGivesUp(t: Project, a: string, b: string, pub: Pub)
    requires Slot(a).KeyAlias? && GivesUp(t, a, pub)
    ensures var was: Entries := map[Slot(a) := Private(pub)];
      var one := ImportOne(t, StartFrom(was, map[a := [pub], b := [pub]]), a, Private(t.envs[a].pub));
      && (forall n | n in one.entries :: !n.GuardEntry?) && one.changed && one.entries.Keys == {Slot(a), PubEntry(pub), PubEntry(t.envs[a].pub)}
      && Get(one.entries, PubEntry(pub)) == Private(pub) && (forall n | n in one.entries && n != PubEntry(pub) :: one.entries[n] != Private(pub))
      && (b != a ==> HeldAs(one.held, b) == [pub])
  {
    hide Slot;
  }

  lemma SecondGivesUp(t: Project, d: Draft, b: string, pub: Pub)
    requires Slot(b) == PubEntry(pub) && GivesUp(t, b, pub) && HeldAs(d.held, b) == [pub] && d.changed
    requires (forall n | n in d.entries :: !n.GuardEntry?) && Get(d.entries, PubEntry(pub)) == Private(pub)
    requires forall n | n in d.entries && n != PubEntry(pub) :: d.entries[n] != Private(pub)
    ensures var two := ImportOne(t, d, b, Private(t.envs[b].pub));
      two.changed && forall n | n in two.entries :: two.entries[n] != Private(pub)
  {
    hide Slot;
  }

  lemma NothingLeftOf(entries: Entries, pub: Pub)
    requires forall n | n in entries :: entries[n] != Private(pub)
    ensures forall n :: Get(FileKeys(entries), n) != Private(pub)
  {
  }

  /** So a key can be lost if and only if the project endangers it. */
  lemma LostExactly(t: Project, pub: Pub)
    ensures (forall ks, p, keys, held, order, m :: Spares(t, ks, p, keys, held, order, m, pub)) <==> !Endangered(t, pub)
  {
    hide Spares, Endangers;
    if Endangered(t, pub) {
      var a, b :| Endangers(t, a, b, pub);
      NotSpared(t, a, b, pub);
    } else {
      forall ks, p, keys, held, order, m ensures Spares(t, ks, p, keys, held, order, m, pub) {
        ImportLosesNoKey(t, ks, p, keys, held, order, m, pub);
      }
    }
  }

  lemma NotSpared(t: Project, a: string, b: string, pub: Pub)
    requires Endangers(t, a, b, pub)
    ensures exists ks, p, keys, held, order, m :: !Spares(t, ks, p, keys, held, order, m, pub)
  {
    hide ImportInto, Slot, Sorted;
    ImportLosesKey(t, "", a, b, pub);
    var keys, held := map[a := Private(t.envs[a].pub), b := Private(t.envs[b].pub)], map[a := [pub], b := [pub]];
    var was: Entries := map[Slot(a) := Private(pub)];
    assert !Spares(t, map["" := was], "", keys, held, [a, b], Slot(a), pub);
  }

  /** By name: an environment called like the key, and another, not called like a key, before it. */
  lemma EndangeredByName(t: Project, pub: Pub)
    requires ValidNames(t)
    ensures Endangered(t, pub) <==>
      Names.IsPub(pub) && GivesUp(t, pub, pub) && exists a | a in t.envs :: Before(a, pub) && !Names.IsPub(a) && GivesUp(t, a, pub)
  {
    hide Slot, Before, Names.IsPub;
    forall env | env in t.envs ensures (Slot(env) == PubEntry(pub) <==> Names.IsPub(env) && pub == env) && (Slot(env).PubEntry? <==> Names.IsPub(env)) {
      SlotByName(env, pub);
    }
    if Names.IsPub(pub) && GivesUp(t, pub, pub) {
      if a :| a in t.envs && Before(a, pub) && !Names.IsPub(a) && GivesUp(t, a, pub) {
        assert Endangers(t, a, pub, pub);
      }
    }
  }

  /** And an environment's entry is the record of another key exactly when it is called like a public key other than its own. */
  lemma OwnSlotByName(t: Project, env: string)
    requires env in t.envs && ValidEnv(env)
    ensures OwnSlot(t, env) <==> Names.IsPub(env) ==> t.envs[env].pub == env
  {
    hide Slot;
    SlotByName(env, t.envs[env].pub);
  }

  // ----- the import as the program runs it -----

  /** The keys a device holds, by environment of one project, appended to as imports go. */
  class Pins {
    var held: Held

    constructor (held: Held)
      ensures this.held == held
    {
      this.held := held;
    }

    method Record(env: string, pub: Pub)
      modifies this
      ensures held == Hold(old(held), env, pub)
      ensures pub in HeldAs(held, env) && forall k | k in HeldAs(held, env) :: k == pub || k in HeldAs(old(held), env)
      ensures HeldAs(old(held), env) <= HeldAs(held, env)
      ensures Once(HeldAs(old(held), env)) ==> Once(HeldAs(held, env))
      ensures forall other | other != env :: HeldAs(held, other) == HeldAs(old(held), other)
    {
      var known := HeldAs(held, env);
      if pub !in known { held := held[env := known + [pub]]; }
    }

    /** Merges granted keys into the project's keyring in the order of their names, and writes it if anything changed. */
    method Import(store: Store, t: Project, p: string, keys: map<string, Value>, order: seq<string>)
      returns (r: Result<()>, imported: set<string>, conflicts: set<string>)
      requires Granted(t, keys) && forall env | env in order :: env in keys
      modifies this, store
      ensures match ImportInto(t, old(store.ks), p, keys, old(held), order)
              case Ok(i) => r.Ok? && (Imported(store.ks, held, imported, conflicts) == i)
              case Err(e) => r == Err(e) && store.ks == old(store.ks)
    {
      hide Superseded, GuardedHere, Slot, Write;
      var entries := EntriesOf(store.ks, p);
      ghost var start := StartFrom(entries, held);
      var changed := false;
      imported, conflicts := {}, {};
      for i := 0 to |order|
        invariant ImportAll(t, start, keys, order[..i]) == Draft(entries, held, changed, imported, conflicts)
        invariant store.ks == old(store.ks)
      {
        var env := order[i];
        assert order[..i + 1][..i] == order[..i];
        assert env in keys;
        var priv, pub, slot := keys[env], t.envs[env].pub, Slot(env);
        if GuardedHere(entries, priv) {
          Record(env, pub);
          continue;
        }
        if slot in entries && entries[slot] != priv {
          var cur := entries[slot];
          if !Superseded(t, held, env, cur) && !t.agrees(env) {
            conflicts := conflicts + {env};
            continue;
          }
          entries := Filed(entries, cur);
        }
        if slot !in entries || entries[slot] != priv {
          entries := entries[slot := priv];
          changed, imported := true, imported + {env};
        }
        if PubEntry(pub) !in entries || entries[PubEntry(pub)] != priv {
          entries := entries[PubEntry(pub) := priv];
          changed := true;
        }
        Record(env, pub);
      }
      assert order[..|order|] == order;
      r := Ok(());
      if changed { r := store.WriteKeys(p, entries, true); }
    }
  }
}
