/** What each step of a device's file objects comes to: what is known, what is on disk, what is sent, and what is cleared. */
module UploadsEffects {
  import opened Wrappers
  import opened Uploads

  /** Both maps hold the same wherever both hold something. */
  predicate Compatible(a: Refs, b: Refs) {
    forall rev | rev in a && rev in b :: a[rev] == b[rev]
  }

  // ----- what is known and what is on disk -----

  /**
   What a device knows of the archive: what its base, its pending revision and the vault it reads have, if they agree
   on every revision, and otherwise nothing is collected.
   */
  lemma KnowsExactly(d: Device, remote: Option<Refs>)
    ensures var b, p, r: Refs := RefsOf(d.base), RefsOf(d.pending), RefsOf(remote);
      && (Merged(d, remote).Ok? <==> Compatible(b, p) && Compatible(b, r) && Compatible(p, r))
      && (Merged(d, remote).Ok? ==> var known := Merged(d, remote).value;
            && known.Keys == b.Keys + p.Keys + r.Keys
            && Compatible(known, b) && Compatible(known, p) && Compatible(known, r))
  {
    var b, p, r: Refs := RefsOf(d.base), RefsOf(d.pending), RefsOf(remote);
    if Compatible(b, p) && Compatible(b, r) && Compatible(p, r) {
      forall rev | rev in b + p && rev in r ensures (b + p)[rev] == r[rev] {
        if rev in p { assert p[rev] == r[rev]; }
      }
    } else if Agree(b, p) && Agree(b + p, r) {
      forall rev | rev in b && rev in r ensures b[rev] == r[rev] {
        assert (b + p)[rev] == r[rev];
      }
      forall rev | rev in p && rev in r ensures p[rev] == r[rev] {
        assert (b + p)[rev] == r[rev];
      }
    }
  }

  /** Collecting adds the revisions found that are not known, each with its object on disk, and keeps every other object. */
  lemma CollectsExactly(d: Device, remote: Option<Refs>, found: Refs)
    requires Merged(d, remote).Ok?
    ensures Collect(d, remote, found).Ok?
    ensures var known := Merged(d, remote).value;
      var (refs, next) := Collect(d, remote, found).value;
      && refs.Keys == known.Keys + found.Keys
      && (forall rev | rev in refs :: refs[rev] == if rev in known then known[rev] else found[rev])
      && next == d.(disk := next.disk)
      && (forall id :: id in next.disk <==> id in d.disk || exists rev | rev in found && rev !in known :: found[rev] == id)
  {
    var known := Merged(d, remote).value;
    var (refs, next) := Collect(d, remote, found).value;
    var added := NewRefs(known, found);
    forall id ensures id in next.disk <==> id in d.disk || exists rev | rev in found && rev !in known :: found[rev] == id {
      if id in added.Values {
        var rev :| rev in added && added[rev] == id;
        assert rev in found && rev !in known;
      }
      if rev :| rev in found && rev !in known && found[rev] == id {
        assert rev in added && added[rev] == id;
      }
    }
  }

  /** Pruning keeps exactly the objects that pending revisions outside the base refer to. */
  lemma PrunesExactly(disk: set<string>, pending: Option<Refs>, base: Option<Refs>, id: string)
    ensures id in Prune(disk, pending, base) <==>
      && id in disk && pending.Some?
      && exists rev | rev in pending.value :: pending.value[rev] == id && !(base.Some? && rev in base.value)
  {
    if pending.Some? && exists rev | rev in pending.value :: pending.value[rev] == id && !(base.Some? && rev in base.value) {
      var rev :| rev in pending.value && pending.value[rev] == id && !(base.Some? && rev in base.value);
      assert rev in RefsOf(pending) && rev !in RefsOf(base);
    }
    if id in Waiting(pending, base) {
      var rev :| rev in RefsOf(pending) && rev !in RefsOf(base) && RefsOf(pending)[rev] == id;
      assert rev in pending.value;
    }
  }

  /** With nothing pending nothing waits: clearing the pending revision empties the directory. */
  lemma ClearsExactly(d: Device)
    ensures ClearPending(d) == d.(pending := None, disk := {})
  {
    forall id ensures id !in Prune(d.disk, None, None) {
      PrunesExactly(d.disk, None, None, id);
    }
  }

  /** Staging keeps the inventory pending, with just the objects that wait, or clears what is pending when it is the base's. */
  lemma StagesExactly(d: Device, found: Refs, alike: bool)
    ensures var next := Stage(d, found, alike);
      && next.base == d.base && next.pin == d.pin && next.seen == d.seen
      && (Merged(d, None).Err? ==> next == d)
      && (Merged(d, None).Ok? ==>
            var (refs, collected) := Collect(d, None, found).value;
            if alike && d.base == Some(refs) then next.pending == None && next.disk == {}
            else next.pending == Some(refs) && next.disk == Prune(collected.disk, Some(refs), d.base))
  {
    hide Prune, Merged;
    if Merged(d, None).Ok? {
      CollectsExactly(d, None, found);
      ClearsExactly(Collect(d, None, found).value.1);
    }
  }

  // ----- what is sent -----

  /**
   Sending stages the inventory first. It meets a missing object when a revision outside the vault read has none on
   disk; otherwise the objects of those revisions are sent, and the vault is put over the version read once all of
   them have arrived.
   */
  lemma SendsExactly(w: World, d: Device, refs: Refs, shown: nat, clears: bool, reached: set<string>)
    ensures var push := Send(w, d, refs, shown, clears, reached);
      var version := if 0 < shown <= |w.history| then shown else 0;
      var held: Refs := if version > 0 then w.history[version - 1] else map[];
      && push.d == d.(pending := Some(refs), seen := push.d.seen) && push.d.seen >= d.seen && push.d.seen >= version
      && (push.d.seen == d.seen || push.d.seen == version)
      && (push.missing <==> exists rev | rev in refs && rev !in held :: refs[rev] !in d.disk)
      && (push.missing ==> push.flight == None && push.arrived == {})
      && (!push.missing ==>
            && (forall id :: id in push.arrived <==> id in reached && exists rev | rev in refs && rev !in held :: refs[rev] == id)
            && (push.flight.Some? <==> forall rev | rev in refs && rev !in held :: refs[rev] in reached)
            && (push.flight.Some? ==> push.flight.value == Flight(version, refs, clears)))
  {
    var version := if 0 < shown <= |w.history| then shown else 0;
    var held: Refs := if version > 0 then w.history[version - 1] else map[];
    var owed := Owed(refs, Fetched(w, shown));
    assert RefsOf(Fetched(w, shown)) == held;
    forall rev ensures rev in owed <==> rev in refs && rev !in held {
    }
    forall id ensures id in owed.Values <==> exists rev | rev in refs && rev !in held :: refs[rev] == id {
      if rev :| rev in refs && rev !in held && refs[rev] == id { assert rev in owed && owed[rev] == id; }
    }
    assert Uploadable(refs, Fetched(w, shown), d.disk) <==> forall rev | rev in refs && rev !in held :: refs[rev] in d.disk by {
      if Uploadable(refs, Fetched(w, shown), d.disk) {
        forall rev | rev in refs && rev !in held ensures refs[rev] in d.disk {
          assert rev in owed && owed[rev] == refs[rev];
        }
      }
    }
  }

  /**
   An attempt collects twice over an accepted version. When the server holds all of it already the device has
   applied that version and nothing is pending; otherwise it is sent as a sync's own.
   */
  lemma AttemptsExactly(w: World, d: Device, shown: nat, first: Refs, second: Refs, alike: bool, reached: set<string>)
    ensures var push := Attempt(w, d, shown, first, second, alike, reached);
      var remote := if 0 < shown <= |w.history| then Some(w.history[shown - 1]) else None;
      && (0 < shown <= |w.history| && shown < d.pin ==> push == Idle(d))
      && (!(0 < shown <= |w.history| && shown < d.pin) && Merged(d, remote).Err? ==> push == Idle(d))
      && (!(0 < shown <= |w.history| && shown < d.pin) && Merged(d, remote).Ok? ==>
            var one := Collect(d, remote, first).value.1;
            Collect(one, remote, second).Ok? &&
            var (refs, two) := Collect(one, remote, second).value;
            if alike && remote == Some(refs) then
              push == Idle(Device(remote, None, {}, shown, shown))
            else push == Send(w, two, refs, shown, true, reached))
  {
    hide Merged, Send;
    var remote := Fetched(w, shown);
    if Merged(d, remote).Ok? {
      CollectsExactly(d, remote, first);
      var one := Collect(d, remote, first).value.1;
      SameMerged(d, one, remote);
      CollectsExactly(one, remote, second);
      ClearsExactly(Collect(one, remote, second).value.1.(base := remote, pin := shown, seen := shown));
    }
  }

  /** A rotation needs a vault, collects once, and leaves what is pending. */
  lemma RotatesExactly(w: World, d: Device, shown: nat, found: Refs, reached: set<string>)
    ensures var push := Rotate(w, d, shown, found, reached);
      && (!(0 < shown <= |w.history| && shown >= d.pin) ==> push == Idle(d))
      && (0 < shown <= |w.history| && shown >= d.pin ==>
            match Collect(d, Some(w.history[shown - 1]), found)
            case Err(_) => push == Idle(d)
            case Ok((refs, next)) => push == Send(w, next, refs, shown, false, reached))
  {
    hide Collect, Send;
  }

  /** The remaining events: files lost, guard and key changes, and a project cached or evicted over a version read. */
  lemma ActsExactly(w: World, d: Device, id: string, shown: nat, found: Refs, base: bool, pending: bool)
    ensures Act(w, d, LoseFiles(id, base, pending)) == Idle(Device(if base then None else d.base, if pending then None else d.pending, d.disk, d.pin, d.seen))
    ensures Act(w, d, GuardChange(id, found)) == match Collect(d, None, found)
                                                 case Err(_) => Idle(d)
                                                 case Ok((refs, next)) => Idle(next.(pending := Some(refs)))
    ensures var seen := if 0 < shown <= |w.history| && shown >= d.pin then (if shown > d.seen then shown else d.seen) else d.seen;
      && Act(w, d, KeyChange(id, shown)) ==
          Idle(if 0 < shown <= |w.history| && shown >= d.pin then d.(pending := Some(w.history[shown - 1]), seen := seen) else d)
      && Act(w, d, CacheChange(id, shown)) ==
          Idle(if 0 < shown <= |w.history| && shown >= d.pin then d.(base := Some(w.history[shown - 1]), seen := seen) else d)
  {
    hide Collect;
  }

  // ----- what is stored -----

  /**
   A vault put is stored when it names the current version. Its device may learn nothing of it, or get as far as its
   base, or finish: then it has applied that version, and a sync's own put clears what was pending.
   */
  lemma StoredExactly(w: World, id: string, f: Flight, answer: Answer)
    requires id in w.devices
    ensures var next, was := Step(w, PutVault(id, f, answer)), w.devices[id];
      && next.objects == w.objects && next.flights == w.flights
      && (!((id, f) in w.flights && f.ifMatch == |w.history|) ==> next == w)
      && ((id, f) in w.flights && f.ifMatch == |w.history| ==>
            && next.history == w.history + [f.refs] && next.devices.Keys == w.devices.Keys
            && (forall i | i in w.devices && i != id :: next.devices[i] == w.devices[i])
            && next.devices[id] == match answer
                                   case Lost => was
                                   case SavedBase => was.(base := Some(f.refs), seen := |w.history| + 1)
                                   case Finished =>
                                     if f.clears then Device(Some(f.refs), None, {}, |w.history| + 1, |w.history| + 1)
                                     else was.(base := Some(f.refs), pin := |w.history| + 1, seen := |w.history| + 1))
  {
    ClearsExactly(w.devices[id].(base := Some(f.refs), pin := |w.history| + 1, seen := |w.history| + 1));
  }
}
