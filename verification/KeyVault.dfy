/**
 Keyrings, the account vault and its catalog of deliberate changes, and the sweep that takes
 tombstoned, retired, guarded and removed entries out of a keyring.
 */
module KeyVault {
  import opened Wrappers

  /** A public key as the hex text of its bytes, in lower case. */
  type Pub = string

  /**
   A keyring entry's name, parsed. KeyAlias is every other name that starts with ESEC_PRIVATE_KEY, by
   what follows; GuardOther is an ESEC_GUARD_ name that is neither a guarded key nor the guard's own.
   */
  datatype Name =
    | PubEntry(pub: Pub)
    | KeyAlias(rest: string)
    | GuardEntry(pub: Pub)
    | GuardEnv(rest: string)
    | GuardIdentity | GuardRecipient | GuardHolders
    | GuardOther(rest: string)
    | ActiveKey | ActiveEnvironment
    | Foreign(text: string)
  {
    /** Starts with ESEC_PRIVATE_KEY. */
    predicate IsKey() { PubEntry? || KeyAlias? }

    /** A name that may be repointed, as opposed to the record of a key. */
    predicate IsAlias() { KeyAlias? || GuardEnv? || ActiveKey? || ActiveEnvironment? }

    /** One of the guard's own three entries, merged together. */
    predicate IsGuardUnit() { GuardIdentity? || GuardRecipient? || GuardHolders? }
  }

  /**
   A stored value: a private key, whose text is the canonical hex of the private half of pub, or any
   other text. A missing entry reads as NOTHING.
   */
  datatype Value = Private(pub: Pub) | Plain(text: string)

  const NOTHING := Plain("")

  type Entries = map<Name, Value>

  type Projects = map<string, Entries>

  datatype KeyRecord = KeyRecord(project: string, pub: Pub)

  /** An alias event is about a name holding one particular value. */
  datatype AliasRecord = AliasRecord(project: string, name: Name, value: Value)

  /** A versioned event: an alias edit (flag: removed) or a guard change (flag: guarded). */
  datatype Event = Event(version: nat, flag: bool)

  const NO_EVENT := Event(0, false)

  datatype Artifact = Artifact(
    project: string, checkout: string, path: string, kind: string, digest: string, blobId: string, key: string, size: nat, at: int)

  datatype Capture = Capture(
    sequence: nat, project: string, checkout: string, device: string, caption: string, files: map<string, string>, at: int)

  datatype Catalog = Catalog(
    aliases: map<AliasRecord, Event>,
    guards: map<KeyRecord, Event>,
    deleted: map<KeyRecord, int>,
    retired: map<KeyRecord, int>,
    captures: map<string, Capture>,
    artifacts: map<string, Artifact>)

  const EMPTY_CATALOG := Catalog(map[], map[], map[], map[], map[], map[])

  /** Older vaults have no catalog. */
  datatype Vault = Vault(projects: Projects, catalog: Option<Catalog>, generation: nat)

  function EntriesOf(ps: Projects, project: string): Entries {
    if project in ps then ps[project] else map[]
  }

  function Get(entries: Entries, n: Name): Value {
    if n in entries then entries[n] else NOTHING
  }

  function EventAt<K>(m: map<K, Event>, k: K): Event {
    if k in m then m[k] else NO_EVENT
  }

  function LowerChar(c: char): char {
    if 'A' <= c <= 'Z' then c - 'A' + 'a' else c
  }

  function Lower(s: string): string {
    seq(|s|, i requires 0 <= i < |s| => LowerChar(s[i]))
  }

  /** value is a private key this keyring holds in its guarded form. */
  predicate GuardedHere(entries: Entries, v: Value) {
    v.Private? && Get(entries, GuardEntry(v.pub)) != NOTHING
  }

  /** The public key an entry is about, if any. */
  function PublicEntry(n: Name, v: Value): Option<Pub> {
    match n
    case GuardEntry(pub) => Some(pub)
    case GuardEnv(_) => if v.Plain? && |v.text| == 64 then Some(Lower(v.text)) else None
    case _ => if v.Private? then Some(v.pub) else None
  }

  // ----- which entries a catalog condemns -----

  /** Condemned by the catalog, whatever else the keyring holds. */
  predicate DoomedAlone(c: Catalog, project: string, n: Name, v: Value) {
    || EventAt(c.aliases, AliasRecord(project, n, v)).flag
    || (var pub := PublicEntry(n, v);
        pub.Some? &&
        var k := KeyRecord(project, pub.value);
        || (EventAt(c.guards, k).flag && n.IsKey())
        || k in c.deleted
        || (k in c.retired && !n.PubEntry? && !n.GuardEntry?))
  }

  /** Condemned while the keyring reads as `entries`: also a clear key whose guarded form is there. */
  predicate Doomed(c: Catalog, project: string, entries: Entries, n: Name, v: Value) {
    DoomedAlone(c, project, n, v) || (n.IsKey() && GuardedHere(entries, v))
  }

  /** What is left when every entry is judged against the keyring as it was. */
  function Survivors(c: Catalog, project: string, entries: Entries): Entries {
    map n | n in entries && !Doomed(c, project, entries, n, entries[n]) :: entries[n]
  }

  /**
   A clear key spared by the catalog, guarded only through an entry that the catalog condemns: the one
   case where the order of the sweep shows.
   */
  predicate Contested(c: Catalog, project: string, entries: Entries, n: Name) {
    && n in entries && n.IsKey() && GuardedHere(entries, entries[n])
    && !DoomedAlone(c, project, n, entries[n])
    && var g := GuardEntry(entries[n].pub);
       DoomedAlone(c, project, g, entries[g])
  }

  ghost predicate Uncontested(c: Catalog, project: string, entries: Entries) {
    forall n :: n in entries ==> !Contested(c, project, entries, n)
  }

  /** Alias events are only ever about alias names. */
  ghost predicate AliasRecordsProper(c: Catalog) {
    forall r | r in c.aliases :: r.name.IsAlias()
  }

  lemma ProperIsUncontested(c: Catalog, project: string, entries: Entries)
    requires AliasRecordsProper(c)
    ensures Uncontested(c, project, entries)
  {
    forall n | n in entries ensures !Contested(c, project, entries, n) {
      if n.IsKey() && GuardedHere(entries, entries[n]) {
        var g := GuardEntry(entries[n].pub);
        assert AliasRecord(project, g, entries[g]) !in c.aliases;
      }
    }
  }

  // ----- the sweep: entries are visited in some order and deleted from the map being read -----

  function Visit(c: Catalog, project: string, entries: Entries, n: Name): Entries {
    if n in entries && Doomed(c, project, entries, n, entries[n]) then entries - {n} else entries
  }

  function Sweep(c: Catalog, project: string, entries: Entries, order: seq<Name>): Entries {
    if order == [] then entries else Visit(c, project, Sweep(c, project, entries, order[..|order| - 1]), order[|order| - 1])
  }

  /** Each entry once, in some order. */
  ghost predicate Enumerates(order: seq<Name>, keys: set<Name>) {
    && (forall i, j | 0 <= i < j < |order| :: order[i] != order[j])
    && (forall n :: n in order <==> n in keys)
  }

  /** Unless contested, a visited entry is gone exactly when the whole keyring condemns it. */
  lemma {:induction false} SweepSoFar(c: Catalog, project: string, entries: Entries, order: seq<Name>)
    requires Uncontested(c, project, entries)
    requires forall n | n in order :: n in entries
    ensures Sweep(c, project, entries, order) ==
      map n | n in entries && !(n in order && Doomed(c, project, entries, n, entries[n])) :: entries[n]
  {
    if order != [] {
      var front, last := order[..|order| - 1], order[|order| - 1];
      assert order == front + [last];
      SweepSoFar(c, project, entries, front);
      var now := Sweep(c, project, entries, front);
      if last in now && last.IsKey() && GuardedHere(entries, entries[last]) {
        assert !Contested(c, project, entries, last);
      }
    }
  }

  /** With alias events only about alias names, every order of the sweep leaves the same entries. */
  lemma SweepOrderIndependent(c: Catalog, project: string, entries: Entries, order: seq<Name>)
    requires AliasRecordsProper(c) && Enumerates(order, entries.Keys)
    ensures Sweep(c, project, entries, order) == Survivors(c, project, entries)
  {
    ProperIsUncontested(c, project, entries);
    SweepSoFar(c, project, entries, order);
  }

  /** Exactly then: the outcome depends on the order if and only if some entry is contested. */
  lemma SweepOrderMatters(c: Catalog, project: string, entries: Entries)
    ensures (forall a, b | Enumerates(a, entries.Keys) && Enumerates(b, entries.Keys) ::
        Sweep(c, project, entries, a) == Sweep(c, project, entries, b))
      <==> Uncontested(c, project, entries)
  {
    hide Sweep, Contested;
    if Uncontested(c, project, entries) {
      forall a, b | Enumerates(a, entries.Keys) && Enumerates(b, entries.Keys)
        ensures Sweep(c, project, entries, a) == Sweep(c, project, entries, b)
      {
        SweepSoFar(c, project, entries, a);
        SweepSoFar(c, project, entries, b);
      }
    } else {
      var n :| n in entries && Contested(c, project, entries, n);
      var keyFirst, guardFirst := ContestedOrders(c, project, entries, n);
    }
  }

  lemma ContestedOrders(c: Catalog, project: string, entries: Entries, n: Name) returns (keyFirst: seq<Name>, guardFirst: seq<Name>)
    requires Contested(c, project, entries, n)
    ensures Enumerates(keyFirst, entries.Keys) && Enumerates(guardFirst, entries.Keys)
    ensures Sweep(c, project, entries, keyFirst) != Sweep(c, project, entries, guardFirst)
  {
    hide Contested, Sweep;
    ContestedPair(c, project, entries, n);
    var g := GuardEntry(entries[n].pub);
    var rest := SomeOrder(entries.Keys - {n, g});
    keyFirst, guardFirst := [n, g] + rest, [g, n] + rest;
    assert keyFirst[..1] == [n] && guardFirst[..2] == [g, n] && guardFirst[2..] == rest;
    FirstVisits(c, project, entries, n);
    GoneStaysGone(c, project, entries, keyFirst, 1, n);
    UnvisitedStays(c, project, entries, guardFirst, 2, n);
  }

  lemma ContestedPair(c: Catalog, project: string, entries: Entries, n: Name)
    requires Contested(c, project, entries, n)
    ensures n in entries && entries[n].Private? && GuardEntry(entries[n].pub) in entries && n != GuardEntry(entries[n].pub)
  {
  }

  /** Visited first, the contested key goes; after the entry that guards it, it stays. */
  lemma FirstVisits(c: Catalog, project: string, entries: Entries, n: Name)
    requires Contested(c, project, entries, n)
    ensures n !in Sweep(c, project, entries, [n])
    ensures n in Sweep(c, project, entries, [GuardEntry(entries[n].pub), n])
  {
    hide DoomedAlone;
    var g := GuardEntry(entries[n].pub);
    assert [n][..0] == [] && [g, n][..1] == [g] && [g][..0] == [];
    assert Sweep(c, project, entries, [n]) == Visit(c, project, entries, n);
    assert Sweep(c, project, entries, [g]) == Visit(c, project, entries, g) == entries - {g};
    assert Sweep(c, project, entries, [g, n]) == Visit(c, project, entries - {g}, n);
  }

  lemma {:induction false} SomeOrder(keys: set<Name>) returns (order: seq<Name>)
    ensures Enumerates(order, keys)
  {
    if n :| n in keys {
      var rest := SomeOrder(keys - {n});
      order := [n] + rest;
    } else {
      order := [];
    }
  }

  lemma {:induction false} GoneStaysGone(c: Catalog, project: string, entries: Entries, order: seq<Name>, i: nat, n: Name)
    requires i <= |order| && n !in Sweep(c, project, entries, order[..i])
    ensures n !in Sweep(c, project, entries, order)
    decreases |order|
  {
    if i == |order| {
      assert order[..i] == order;
    } else {
      assert order[..|order| - 1][..i] == order[..i];
      GoneStaysGone(c, project, entries, order[..|order| - 1], i, n);
    }
  }

  lemma {:induction false} UnvisitedStays(c: Catalog, project: string, entries: Entries, order: seq<Name>, i: nat, n: Name)
    requires i <= |order| && n in Sweep(c, project, entries, order[..i]) && n !in order[i..]
    ensures n in Sweep(c, project, entries, order)
    decreases |order|
  {
    if i == |order| {
      assert order[..i] == order;
    } else {
      var front := order[..|order| - 1];
      assert front[..i] == order[..i];
      assert order[i..] == front[i..] + [order[|order| - 1]];
      UnvisitedStays(c, project, entries, front, i, n);
    }
  }

  // ----- what the sweep takes, by names and values -----

  lemma LowersExactly(s: string, i: nat)
    requires i < |s|
    ensures |Lower(s)| == |s|
    ensures Lower(s)[i] == if s[i] < 'A' || s[i] > 'Z' then s[i] else ((s[i] as int) + 32) as char
  {
  }

  /** Nothing here is about this key: not its guarded form, no copy of it, and no environment's guard names it. */
  ghost predicate Gone(entries: Entries, pub: Pub) {
    && GuardEntry(pub) !in entries
    && (forall n | n in entries && !n.GuardEntry? && !n.GuardEnv? :: entries[n] != Private(pub))
    && (forall n | n in entries && n.GuardEnv? && entries[n].Plain? && |entries[n].text| == 64 :: Lower(entries[n].text) != pub)
  }

  lemma GoneIs(entries: Entries, pub: Pub)
    ensures Gone(entries, pub) <==> forall n | n in entries :: PublicEntry(n, entries[n]) != Some(pub)
  {
    if Gone(entries, pub) {
      forall n | n in entries ensures PublicEntry(n, entries[n]) != Some(pub) {
        match n
        case GuardEntry(_) =>
        case GuardEnv(_) =>
        case _ =>
      }
    } else if GuardEntry(pub) in entries {
      assert PublicEntry(GuardEntry(pub), entries[GuardEntry(pub)]) == Some(pub);
    } else if n :| n in entries && !n.GuardEntry? && !n.GuardEnv? && entries[n] == Private(pub) {
      assert PublicEntry(n, entries[n]) == Some(pub);
    }
  }

  /** Of a tombstoned key nothing is left. */
  lemma TombstonedGone(c: Catalog, project: string, entries: Entries, pub: Pub)
    requires KeyRecord(project, pub) in c.deleted
    ensures Gone(Survivors(c, project, entries), pub)
  {
    GoneIs(Survivors(c, project, entries), pub);
  }

  /** Which entries are left: those holding a private key, guarded entries, an environment's guard, and all others. */
  lemma LeftExactly(c: Catalog, project: string, entries: Entries, n: Name)
    requires n in entries
    ensures var v, stays := entries[n], n in Survivors(c, project, entries);
      var removed := AliasRecord(project, n, v) in c.aliases && c.aliases[AliasRecord(project, n, v)].flag;
      && (stays ==> Survivors(c, project, entries)[n] == v)
      && (n.GuardEntry? ==> (stays <==> !removed && KeyRecord(project, n.pub) !in c.deleted))
      && (n.GuardEnv? ==> (stays <==>
            && !removed
            && !(v.Plain? && |v.text| == 64
                 && (KeyRecord(project, Lower(v.text)) in c.deleted || KeyRecord(project, Lower(v.text)) in c.retired))))
      && (!n.GuardEntry? && !n.GuardEnv? && v.Plain? ==> (stays <==> !removed))
      && (!n.GuardEntry? && !n.GuardEnv? && v.Private? ==> (stays <==>
            var key := KeyRecord(project, v.pub);
            && !removed && key !in c.deleted
            && (key in c.retired ==> n.PubEntry?)
            && (n.PubEntry? || n.KeyAlias? ==>
                  !(key in c.guards && c.guards[key].flag) && (GuardEntry(v.pub) in entries ==> entries[GuardEntry(v.pub)] == Plain("")))))
  {
  }

  /** A retired key keeps its record and its guarded form, and loses every other name. */
  lemma RetiredKeepsRecords(c: Catalog, project: string, entries: Entries, pub: Pub)
    requires AliasRecordsProper(c) && KeyRecord(project, pub) in c.retired && KeyRecord(project, pub) !in c.deleted
    ensures var now := Survivors(c, project, entries);
      && (forall n | n in now && !n.PubEntry? && !n.GuardEntry? && !n.GuardEnv? :: now[n] != Private(pub))
      && (forall n | n in now && n.GuardEnv? && now[n].Plain? && |now[n].text| == 64 :: Lower(now[n].text) != pub)
      && (GuardEntry(pub) in entries ==> GuardEntry(pub) in now)
      && ((PubEntry(pub) in entries && entries[PubEntry(pub)] == Private(pub)
           && !EventAt(c.guards, KeyRecord(project, pub)).flag && Get(entries, GuardEntry(pub)) == NOTHING) ==> PubEntry(pub) in now)
  {
    forall n | n in entries && (n == PubEntry(pub) || n == GuardEntry(pub)) ensures AliasRecord(project, n, entries[n]) !in c.aliases {
    }
  }

  /** Of a key marked guarded no clear name is left. */
  lemma GuardedLosesClear(c: Catalog, project: string, entries: Entries, pub: Pub)
    requires EventAt(c.guards, KeyRecord(project, pub)).flag || Get(entries, GuardEntry(pub)) != NOTHING
    ensures var now := Survivors(c, project, entries);
      forall n | n in now && (n.PubEntry? || n.KeyAlias?) :: now[n] != Private(pub)
  {
  }

  /** Sweeping again finds nothing more, whether or not anything is contested. */
  lemma SurvivorsIdempotent(c: Catalog, project: string, entries: Entries)
    ensures Survivors(c, project, Survivors(c, project, entries)) == Survivors(c, project, entries)
  {
  }

  /** The sweep as the program runs it: a map is read and deleted from while its entries are visited. */
  class Keyring {
    var entries: Entries

    constructor (entries: Entries)
      ensures this.entries == entries
    {
      this.entries := entries;
    }

    method ApplyDeleted(c: Catalog, project: string)
      modifies this
      ensures exists order :: Enumerates(order, old(entries).Keys) && entries == Sweep(c, project, old(entries), order)
      ensures AliasRecordsProper(c) ==> entries == Survivors(c, project, old(entries))
    {
      var todo := entries.Keys;
      ghost var order := [];
      while todo != {}
        invariant todo <= old(entries).Keys
        invariant Enumerates(order, old(entries).Keys - todo)
        invariant entries == Sweep(c, project, old(entries), order)
        invariant forall n | n in todo :: n in entries
        invariant forall n | n in entries :: n in old(entries) && entries[n] == old(entries)[n]
      {
        var n :| n in todo;
        order := order + [n];
        assert order[..|order| - 1] == order[..|order|][..|order| - 1];
        if Doomed(c, project, entries, n, entries[n]) {
          entries := entries - {n};
        }
        todo := todo - {n};
      }
      if AliasRecordsProper(c) {
        SweepOrderIndependent(c, project, old(entries), order);
      }
    }
  }
}
