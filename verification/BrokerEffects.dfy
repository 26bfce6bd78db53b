/** What each step of the broker comes to: which parts of its state it changes, when, and to what. */
module BrokerEffects {
  import opened Wrappers
  import opened Broker

  // ----- the session -----

  /**
   Unlocking starts the next epoch, open for the given time with the given keys and no others, with a callback of
   its own due then. A timer that could still be stopped never fires.
   */
  lemma Unlocked(s: State, keys: Keys, ttl: nat, stopped: bool)
    ensures var was, now := s.session, Step(s, Event.Unlock(keys, ttl, stopped)).session;
      && now.epoch == was.epoch + 1 && !now.locked && now.now == was.now && now.expires == Some(was.now + ttl) && now.keys == keys
      && now.timer == Some(now.epoch) && now.epoch in now.callbacks && now.callbacks[now.epoch] == was.now + ttl
      && forall k | k != now.epoch :: (k in now.callbacks <==> k in was.callbacks && !(stopped && was.timer == Some(k)))
            && (k in now.callbacks ==> now.callbacks[k] == was.callbacks[k])
    ensures Step(s, Event.Unlock(keys, ttl, stopped)) == s.(session := Step(s, Event.Unlock(keys, ttl, stopped)).session)
  {
  }

  /** Locking starts the next epoch with no keys at all, and drops the timer likewise. */
  lemma Locked(s: State, stopped: bool, order: seq<string>)
    ensures var was, now := s.session, Step(s, Event.Lock(stopped, order)).session;
      && now.epoch == was.epoch + 1 && now.locked && now.now == was.now && now.expires == None && now.keys == map[]
      && forall k :: (k in now.callbacks <==> k in was.callbacks && !(stopped && was.timer == Some(k)))
            && (k in now.callbacks ==> now.callbacks[k] == was.callbacks[k])
    ensures Step(s, Event.Lock(stopped, order)).requests == s.requests
  {
    hide RejectAll;
  }

  /** A callback runs once, when it is due. Of the current epoch it drops the keys and locks; of an earlier one nothing. */
  lemma Expired(s: State, epoch: nat)
    ensures var was, now := s.session, Step(s, Expire(epoch)).session;
      && (!(epoch in was.callbacks && was.callbacks[epoch] <= was.now) ==> now == was)
      && (epoch in was.callbacks && was.callbacks[epoch] <= was.now ==>
            && now.callbacks == was.callbacks - {epoch} && now.epoch == was.epoch && now.now == was.now && now.timer == was.timer
            && (epoch == was.epoch ==> now.keys == map[] && now.locked && now.expires == None)
            && (epoch != was.epoch ==> now.keys == was.keys && now.locked == was.locked && now.expires == was.expires))
    ensures Step(s, Expire(epoch)) == s.(session := Step(s, Expire(epoch)).session)
  {
  }

  /** Time only goes forward, and nothing else happens by itself. */
  lemma Ticked(s: State, time: nat)
    ensures Step(s, Tick(time)) == s.(session := s.session.(now := if time > s.session.now then time else s.session.now))
  {
  }

  // ----- approvals -----

  /** A new request is pending on a channel never used; a request pending under that id is no longer reachable. */
  lemma Requested(s: State, id: string)
    ensures var was, now := s.approvals, Step(s, NewPending(id)).approvals;
      && id in now.pending && now.pending[id] == was.channels && now.channels == was.channels + 1
      && (forall i | i != id :: (i in now.pending <==> i in was.pending) && (i in was.pending ==> now.pending[i] == was.pending[i]))
      && now.sent == was.sent && now.buffer == was.buffer && now.approvers == was.approvers && now.waiters == was.waiters
    ensures Step(s, NewPending(id)) == s.(approvals := Step(s, NewPending(id)).approvals)
  {
  }

  /** One lock answers false on each pending channel that holds no answer, once, and drops every request it visits. */
  lemma {:induction false} RejectsExactly(s: Approvals, order: seq<string>)
    requires OnePlace(s)
    ensures var now := RejectAll(s, order);
      && now.pending == s.pending - (set id | id in order)
      && (forall c, b | (c, b) in now.sent :: (c, b) in s.sent || (!b && exists id | id in s.pending && id in order :: s.pending[id] == c))
      && (forall id | id in s.pending && id in order :: s.pending[id] in now.buffer && !now.buffer[s.pending[id]])
      && (forall c | c in s.buffer :: c in now.buffer && now.buffer[c] == s.buffer[c])
      && now.channels == s.channels && now.approvers == s.approvers && now.waiters == s.waiters
  {
    hide OnePlace, Reject;
    if order == [] {
      assert s.pending - (set id | id in order) == s.pending;
    } else {
      var front, last := order[..|order| - 1], order[|order| - 1];
      assert order == front + [last];
      RejectsExactly(s, front);
      RejectAllOnePlace(s, front);
      var before := RejectAll(s, front);
      assert s.pending - (set id | id in order) == before.pending - {last};
      if last in before.pending { Roomy(before, last); }
      RejectsOne(before, last);
    }
  }

  lemma RejectsOne(s: Approvals, id: string)
    requires id in s.pending ==> s.pending[id] !in s.buffer
    ensures var now := Reject(s, id);
      && now.pending == s.pending - {id} && now.channels == s.channels && now.approvers == s.approvers && now.waiters == s.waiters
      && (id !in s.pending ==> now == s)
      && (id in s.pending ==> now.buffer == s.buffer[s.pending[id] := false] && now.sent == s.sent + [(s.pending[id], false)])
  {
    if id !in s.pending { assert s.pending - {id} == s.pending; }
  }

  /** An approval takes the request out first; with its decision on record the approver will answer that channel. */
  lemma ApprovalBegun(s: State, a: nat, id: string, audited: bool)
    ensures var was, now := s.approvals, Step(s, BeginApprove(a, id, audited)).approvals;
      && (id !in was.pending || a in was.approvers ==> now == was)
      && (id in was.pending && a !in was.approvers ==>
            && now == was.(pending := now.pending, approvers := now.approvers)
            && id !in now.pending
            && (forall i | i != id :: (i in now.pending <==> i in was.pending) && (i in was.pending ==> now.pending[i] == was.pending[i]))
            && now.approvers == if audited then was.approvers[a := was.pending[id]] else was.approvers)
  {
  }

  /** The answer is true, goes to that channel once there is room, and the approver is done. */
  lemma ApprovalFinished(s: State, a: nat)
    ensures var was, now := s.approvals, Step(s, FinishApprove(a)).approvals;
      && (a !in was.approvers || was.approvers[a] in was.buffer ==> now == was)
      && (a in was.approvers && was.approvers[a] !in was.buffer ==>
            && now.buffer == was.buffer[was.approvers[a] := true] && now.sent == was.sent + [(was.approvers[a], true)]
            && now.approvers == was.approvers - {a} && now.pending == was.pending && now.channels == was.channels && now.waiters == was.waiters)
  {
  }

  /** A waiter waits on the channel its request has, takes its one answer, or gives up and withdraws the request. */
  lemma Waited(s: State, w: nat, id: string)
    ensures var was, now := s.approvals, Step(s, BeginWait(w, id)).approvals;
      now == if id in was.pending then was.(waiters := was.waiters[w := Waiter(was.pending[id], id)]) else was
    ensures var was, now := s.approvals, Step(s, Receive(w)).approvals;
      now == if w in was.waiters && was.waiters[w].channel in was.buffer
             then was.(buffer := was.buffer - {was.waiters[w].channel}, waiters := was.waiters - {w}) else was
    ensures var was, now := s.approvals, Step(s, GiveUp(w)).approvals;
      now == if w in was.waiters then was.(pending := was.pending - {was.waiters[w].id}, waiters := was.waiters - {w}) else was
  {
  }

  // ----- reads -----

  /** The epoch that counts: the broker's own, or its owner's. */
  function BoundEpoch(s: State): nat {
    match s.owner
    case Some(epoch) => epoch
    case None => s.session.epoch
  }

  /** A read begins with the epoch of that moment. */
  lemma ReadBegun(s: State, r: nat)
    ensures Step(s, Capture(r)) == s.(requests := s.requests[r := Captured(BoundEpoch(s))])
  {
    assert s.session.(keys := s.session.keys) == s.session;
  }

  /** It gets a key the broker holds while it is open; without one it is where it was, and may get one elsewhere. */
  lemma ReadFetched(s: State, r: nat, project: string, resolve: Resolver)
    ensures var was, next := ReadAt(s.requests, r), Step(s, FetchKey(r, project, resolve));
      var open := !s.session.locked && (s.session.expires.Some? ==> s.session.now < s.session.expires.value);
      && next == s.(requests := s.requests[r := ReadAt(next.requests, r)])
      && ReadAt(next.requests, r) ==
          if was.Captured? && open && project in s.session.keys && resolve(s.session.keys[project]).Some? then Keyed(was.epoch) else was
    ensures var was, next := ReadAt(s.requests, r), Step(s, OpenKey(r));
      next == s.(requests := s.requests[r := if was.Captured? then Keyed(was.epoch) else was])
  {
    assert s.session.(keys := s.session.keys) == s.session;
  }

  /** Unsealing begins only while the broker is open, and is denied otherwise; ended, it leaves the read its key. */
  lemma ReadUnsealed(s: State, r: nat, project: string, entry: string, value: string)
    ensures var was, next := ReadAt(s.requests, r), Step(s, BeginUnseal(r));
      var open := !s.session.locked && (s.session.expires.Some? ==> s.session.now < s.session.expires.value);
      next == s.(requests := s.requests[r := if !was.Captured? then was else if open then Unsealing(was.epoch) else Denied])
    ensures var was, next := ReadAt(s.requests, r), Step(s, EndUnseal(r, project, entry, value));
      && ReadAt(next.requests, r) == (if was.Unsealing? then Keyed(was.epoch) else was)
      && next == s.(session := next.session, requests := next.requests) && (forall q | q != r :: ReadAt(next.requests, q) == ReadAt(s.requests, q))
  {
    assert s.session.(keys := s.session.keys) == s.session;
  }

  /** The end: with a key in hand it is served, unless the epoch is checked and is another by now. */
  lemma ReadFinished(s: State, r: nat)
    ensures var was, next := ReadAt(s.requests, r), Step(s, Finish(r));
      next == s.(requests := s.requests[r :=
        if !was.Keyed? then was else if (s.consent || s.owner.Some?) && BoundEpoch(s) != was.epoch then Denied else Served])
  {
    assert s.session.(keys := s.session.keys) == s.session;
  }

  /** Only an owner's broker has an owner's epoch, which goes up by one with each of its changes. */
  lemma OwnerChanged(s: State)
    ensures Step(s, OwnerChange) == s.(owner := match s.owner case None => None case Some(epoch) => Some(epoch + 1))
  {
  }
}
