/**
 The broker's session under interleaving: every step below runs under the broker's locks, and any order of
 unlocks, locks, timer callbacks, approvals and reads is possible. Channels have room for one answer; a
 stopped timer's callback may still run if it had started.
 */
module Broker {
  import opened Wrappers

  /** Per project, the keyring entries held. */
  type Keys = map<string, map<string, string>>

  /** Which of a project's entries serves a request: by the environment's suffixes, then by the file's public key. */
  type Resolver = map<string, string> -> Option<string>

  /** Callbacks are the timer callbacks that may still run: the epoch each belongs to, and when it is due. */
  datatype Session = Session(
    now: nat, epoch: nat, locked: bool, expires: Option<nat>, keys: Keys, timer: Option<nat>, callbacks: map<nat, nat>)

  /** A request waiting for its approval: the channel it found, and the id it deletes when it gives up. */
  datatype Waiter = Waiter(channel: nat, id: string)

  /**
   Channels are numbered as they are made; buffer holds the answers not yet received, and sent every answer
   ever sent. Approvers have taken a channel out of pending and are about to answer it.
   */
  datatype Approvals = Approvals(
    pending: map<string, nat>, channels: nat, buffer: map<nat, bool>, sent: seq<(nat, bool)>,
    approvers: map<nat, nat>, waiters: map<nat, Waiter>)

  /** A read in progress: the epoch it captured, then a key in hand, or an unsealing that passed its lock check. */
  datatype Read = Captured(epoch: nat) | Keyed(epoch: nat) | Unsealing(epoch: nat) | Served | Denied

  /**
   consent says a consent is installed. owner is the epoch of another broker, when reads are bound to that one's
   lock instead of this one's: a forwarded broker's is the epoch of its owner.
   */
  datatype State = State(consent: bool, owner: Option<nat>, session: Session, approvals: Approvals, requests: map<nat, Read>)

  function Start(consent: bool, owner: Option<nat>, keys: Keys): State {
    State(consent, owner, Session(0, 0, false, None, keys, None, map[]), Approvals(map[], 0, map[], [], map[], map[]), map[])
  }

  datatype Event =
    | Tick(time: nat)
    | Unlock(keys: Keys, ttl: nat, stopped: bool)
    | Lock(stopped: bool, order: seq<string>)
    | Expire(epoch: nat)
    | NewPending(id: string)
    | BeginWait(w: nat, id: string)
    | Receive(w: nat)
    | GiveUp(w: nat)
    | BeginApprove(a: nat, id: string, audited: bool)
    | FinishApprove(a: nat)
    | Capture(r: nat)
    | FetchKey(r: nat, project: string, resolve: Resolver)
    | OpenKey(r: nat)
    | BeginUnseal(r: nat)
    | EndUnseal(r: nat, project: string, entry: string, value: string)
    | Finish(r: nat)
    | OwnerChange

  // ----- the session -----

  /** Whether the broker serves from its keys now. */
  predicate Open(s: Session) {
    !s.locked && (s.expires.None? || s.now < s.expires.value)
  }

  /** The key a request is served from what the broker holds. */
  function KeyFor(s: Session, project: string, resolve: Resolver): Option<string> {
    if Open(s) && project in s.keys then resolve(s.keys[project]) else None
  }

  /** Holds one more entry of a project. */
  function Hold(keys: Keys, project: string, entry: string, value: string): Keys {
    keys[project := (if project in keys then keys[project] else map[])[entry := value]]
  }

  function ClearKeys(s: Session): Session {
    s.(keys := map[], locked := true, expires := None)
  }

  /** Stops the timer: its callback will not run, unless it has started. */
  function StopTimer(s: Session, stopped: bool): Session {
    if s.timer.Some? && stopped then s.(callbacks := s.callbacks - {s.timer.value}) else s
  }

  function UnlockSession(s: Session, keys: Keys, ttl: nat, stopped: bool): Session {
    Session(s.now, s.epoch + 1, false, Some(s.now + ttl), keys, Some(s.epoch + 1),
            StopTimer(s, stopped).callbacks[s.epoch + 1 := s.now + ttl])
  }

  function LockSession(s: Session, stopped: bool): Session {
    ClearKeys(StopTimer(s, stopped).(epoch := s.epoch + 1))
  }

  /** A timer's callback clears the keys only while its own session lasts. */
  function ExpireSession(s: Session, epoch: nat): Session {
    if epoch !in s.callbacks || s.now < s.callbacks[epoch] then s else
    var done := s.(callbacks := s.callbacks - {epoch});
    if epoch == s.epoch then ClearKeys(done) else done
  }

  function SessionStep(s: Session, e: Event): Session {
    match e
    case Tick(time) => if time >= s.now then s.(now := time) else s
    case Unlock(keys, ttl, stopped) => UnlockSession(s, keys, ttl, stopped)
    case Lock(stopped, _) => LockSession(s, stopped)
    case Expire(epoch) => ExpireSession(s, epoch)
    case _ => s
  }

  // ----- approvals -----

  /** A send that does not wait: it is dropped if the channel already holds an answer. */
  function TrySend(s: Approvals, channel: nat, answer: bool): Approvals {
    if channel in s.buffer then s else s.(buffer := s.buffer[channel := answer], sent := s.sent + [(channel, answer)])
  }

  /** Answers false on one pending channel and drops it. */
  function Reject(s: Approvals, id: string): Approvals {
    if id !in s.pending then s else TrySend(s, s.pending[id], false).(pending := s.pending - {id})
  }

  function RejectAll(s: Approvals, order: seq<string>): Approvals {
    if order == [] then s else Reject(RejectAll(s, order[..|order| - 1]), order[|order| - 1])
  }

  /** Takes the channel out first, so no one else can answer it; without an audit record nothing is sent. */
  function BeginApproval(s: Approvals, a: nat, id: string, audited: bool): Approvals {
    if id !in s.pending || a in s.approvers then s else
    s.(pending := s.pending - {id}, approvers := if audited then s.approvers[a := s.pending[id]] else s.approvers)
  }

  /** The blocking send: it can only happen when the channel has room. */
  function FinishApproval(s: Approvals, a: nat): Approvals {
    if a !in s.approvers || s.approvers[a] in s.buffer then s
    else TrySend(s, s.approvers[a], true).(approvers := s.approvers - {a})
  }

  function ApprovalStep(s: Approvals, e: Event): Approvals {
    match e
    case Lock(_, order) => RejectAll(s, order)
    case NewPending(id) => s.(pending := s.pending[id := s.channels], channels := s.channels + 1)
    case BeginWait(w, id) => if id in s.pending then s.(waiters := s.waiters[w := Waiter(s.pending[id], id)]) else s
    case Receive(w) =>
      if w in s.waiters && s.waiters[w].channel in s.buffer
      then s.(buffer := s.buffer - {s.waiters[w].channel}, waiters := s.waiters - {w}) else s
    case GiveUp(w) =>
      if w in s.waiters then s.(pending := s.pending - {s.waiters[w].id}, waiters := s.waiters - {w}) else s
    case BeginApprove(a, id, audited) => BeginApproval(s, a, id, audited)
    case FinishApprove(a) => FinishApproval(s, a)
    case _ => s
  }

  // ----- reads -----

  function ReadAt(requests: map<nat, Read>, r: nat): Read {
    if r in requests then requests[r] else Denied
  }

  /** The epoch reads are bound to. */
  function ReadEpoch(s: State): nat {
    if s.owner.Some? then s.owner.value else s.session.epoch
  }

  /** Whether reads check their epoch at the end. */
  predicate Checks(s: State) {
    s.consent || s.owner.Some?
  }

  /** Where a read gets to: a key the broker holds, a key opened elsewhere, or one unsealed after a lock check. */
  function ReadStep(checks: bool, epoch: nat, s: Session, read: Read, e: Event): Read {
    match e
    case Capture(_) => Captured(epoch)
    case FetchKey(_, project, resolve) => if read.Captured? && KeyFor(s, project, resolve).Some? then Keyed(read.epoch) else read
    case OpenKey(_) => if read.Captured? then Keyed(read.epoch) else read
    case BeginUnseal(_) => if !read.Captured? then read else if Open(s) then Unsealing(read.epoch) else Denied
    case EndUnseal(_, _, _, _) => if read.Unsealing? then Keyed(read.epoch) else read
    case Finish(_) => if !read.Keyed? then read else if checks && read.epoch != epoch then Denied else Served
    case _ => read
  }

  predicate IsRead(e: Event) {
    e.Capture? || e.FetchKey? || e.OpenKey? || e.BeginUnseal? || e.EndUnseal? || e.Finish?
  }

  function Step(s: State, e: Event): State {
    if e.OwnerChange? then
      if s.owner.Some? then s.(owner := Some(s.owner.value + 1)) else s
    else if IsRead(e) then
      var was := ReadAt(s.requests, e.r);
      var keys := if e.EndUnseal? && was.Unsealing? then Hold(s.session.keys, e.project, e.entry, e.value) else s.session.keys;
      s.(session := s.session.(keys := keys), requests := s.requests[e.r := ReadStep(Checks(s), ReadEpoch(s), s.session, was, e)])
    else
      s.(session := SessionStep(s.session, e), approvals := ApprovalStep(s.approvals, e))
  }

  function Run(s: State, events: seq<Event>): State {
    if events == [] then s else Step(Run(s, events[..|events| - 1]), events[|events| - 1])
  }

  // ----- approvals get at most one answer -----

  ghost predicate Answered(s: Approvals, channel: nat) {
    exists i | 0 <= i < |s.sent| :: s.sent[i].0 == channel
  }

  /** Pending channels were made, are unanswered, and each is pending under one id. */
  ghost predicate PendingOk(s: Approvals) {
    && (forall id | id in s.pending :: s.pending[id] < s.channels && !Answered(s, s.pending[id]))
    && (forall i, j | i in s.pending && j in s.pending && i != j :: s.pending[i] != s.pending[j])
  }

  /** So is each that an approver has taken, and it is no longer pending. */
  ghost predicate ApproversOk(s: Approvals) {
    && (forall a | a in s.approvers :: s.approvers[a] < s.channels && !Answered(s, s.approvers[a]))
    && (forall a, b | a in s.approvers && b in s.approvers && a != b :: s.approvers[a] != s.approvers[b])
    && (forall id, a | id in s.pending && a in s.approvers :: s.pending[id] != s.approvers[a])
  }

  /** No channel was answered twice, and only answers are buffered. */
  ghost predicate SentOk(s: Approvals) {
    && (forall c | c in s.buffer :: Answered(s, c))
    && (forall i | 0 <= i < |s.sent| :: s.sent[i].0 < s.channels)
    && (forall i, j | 0 <= i < j < |s.sent| :: s.sent[i].0 != s.sent[j].0)
  }

  /** Each channel is in one place only: pending under one id, with one approver, or answered once. */
  ghost predicate OnePlace(s: Approvals) {
    PendingOk(s) && ApproversOk(s) && SentOk(s)
  }

  lemma SendAnswers(s: Approvals, t: Approvals, channel: nat, answer: bool)
    requires t.sent == s.sent + [(channel, answer)]
    ensures forall c :: Answered(t, c) <==> Answered(s, c) || c == channel
  {
    forall c ensures Answered(t, c) <==> Answered(s, c) || c == channel {
      if Answered(s, c) {
        var i :| 0 <= i < |s.sent| && s.sent[i].0 == c;
        assert t.sent[i].0 == c;
      }
      assert t.sent[|s.sent|].0 == channel;
    }
  }

  /** An answer on a channel that was not answered: it is answered once now, and buffered. */
  lemma SendOk(s: Approvals, t: Approvals, channel: nat, answer: bool)
    requires SentOk(s) && channel < s.channels == t.channels && !Answered(s, channel)
    requires t.sent == s.sent + [(channel, answer)] && t.buffer == s.buffer[channel := answer]
    ensures SentOk(t)
  {
    SendAnswers(s, t, channel, answer);
    forall i | 0 <= i < |s.sent| ensures s.sent[i].0 != channel {
      if s.sent[i].0 == channel { assert Answered(s, channel); }
    }
  }

  lemma Unbuffered(s: Approvals, channel: nat)
    requires SentOk(s) && !Answered(s, channel)
    ensures channel !in s.buffer
  {
  }

  lemma RejectOnePlace(s: Approvals, id: string)
    requires OnePlace(s)
    ensures OnePlace(Reject(s, id)) && Reject(s, id).pending == s.pending - {id}
    ensures s.sent <= Reject(s, id).sent
    ensures id in s.pending ==> (s.pending[id], false) in Reject(s, id).sent
  {
    hide SentOk, Answered;
    if id in s.pending {
      var t, channel := Reject(s, id), s.pending[id];
      Unbuffered(s, channel);
      SendOk(s, t, channel, false);
      SendAnswers(s, t, channel, false);
    }
  }

  lemma {:induction false} RejectAllOnePlace(s: Approvals, order: seq<string>)
    requires OnePlace(s)
    ensures var t := RejectAll(s, order);
      && OnePlace(t) && s.sent <= t.sent
      && (forall id :: id in t.pending <==> id in s.pending && id !in order)
      && (forall id | id in t.pending :: t.pending[id] == s.pending[id])
      && (forall id | id in s.pending && id in order :: (s.pending[id], false) in t.sent)
  {
    hide OnePlace, Reject;
    if order != [] {
      var front, last := order[..|order| - 1], order[|order| - 1];
      assert order == front + [last];
      RejectAllOnePlace(s, front);
      RejectOnePlace(RejectAll(s, front), last);
    }
  }

  lemma FinishOnePlace(s: Approvals, a: nat)
    requires OnePlace(s)
    ensures OnePlace(FinishApproval(s, a))
    ensures a in s.approvers ==> FinishApproval(s, a).sent == s.sent + [(s.approvers[a], true)]
  {
    hide SentOk, Answered;
    if a in s.approvers {
      var t, channel := FinishApproval(s, a), s.approvers[a];
      Unbuffered(s, channel);
      SendOk(s, t, channel, true);
      SendAnswers(s, t, channel, true);
    }
  }

  /** Nothing new is pending, taken or buffered. */
  ghost predicate Fewer(s: Approvals, t: Approvals) {
    && t.sent == s.sent && t.channels == s.channels && t.buffer.Keys <= s.buffer.Keys
    && (forall id | id in t.pending :: id in s.pending && t.pending[id] == s.pending[id])
    && (forall a | a in t.approvers :: a in s.approvers && t.approvers[a] == s.approvers[a])
  }

  lemma FewerOnePlace(s: Approvals, t: Approvals)
    requires OnePlace(s) && Fewer(s, t)
    ensures OnePlace(t)
  {
    hide SentOk, Answered;
    SameAnswers(s, t);
  }

  lemma NewPendingOnePlace(s: Approvals, id: string)
    requires OnePlace(s)
    ensures OnePlace(ApprovalStep(s, NewPending(id)))
  {
    hide SentOk, Answered;
    var t := ApprovalStep(s, NewPending(id));
    SameAnswers(s, t);
    UnmadeUnanswered(s);
  }

  /** With the same answers sent and no more buffered, what was answered is the same. */
  lemma SameAnswers(s: Approvals, t: Approvals)
    requires t.sent == s.sent
    ensures forall c :: Answered(t, c) == Answered(s, c)
    ensures SentOk(s) && s.channels <= t.channels && t.buffer.Keys <= s.buffer.Keys ==> SentOk(t)
  {
    assert forall c :: Answered(t, c) == Answered(s, c);
  }

  lemma UnmadeUnanswered(s: Approvals)
    requires SentOk(s)
    ensures !Answered(s, s.channels)
  {
  }

  lemma BeginOnePlace(s: Approvals, a: nat, id: string, audited: bool)
    requires OnePlace(s)
    ensures OnePlace(BeginApproval(s, a, id, audited))
  {
    hide SentOk, Answered;
    SameAnswers(s, BeginApproval(s, a, id, audited));
  }

  lemma WaitsTake(s: Approvals, e: Event)
    requires !e.Lock? && !e.NewPending? && !e.BeginApprove? && !e.FinishApprove?
    ensures Fewer(s, ApprovalStep(s, e))
  {
  }

  lemma ApprovalOnePlace(s: Approvals, e: Event)
    requires OnePlace(s)
    ensures OnePlace(ApprovalStep(s, e))
  {
    hide OnePlace, RejectAll, FinishApproval, BeginApproval, Fewer;
    match e
    case Lock(_, order) => RejectAllOnePlace(s, order);
    case FinishApprove(a) => FinishOnePlace(s, a);
    case NewPending(id) => NewPendingOnePlace(s, id);
    case BeginApprove(a, id, audited) => BeginOnePlace(s, a, id, audited);
    case _ =>
      WaitsTake(s, e);
      FewerOnePlace(s, ApprovalStep(s, e));
  }

  lemma {:induction false} RunOnePlace(s: State, events: seq<Event>)
    requires OnePlace(s.approvals)
    ensures OnePlace(Run(s, events).approvals)
  {
    hide OnePlace, ApprovalStep, SessionStep, ReadStep;
    if events != [] {
      RunOnePlace(s, events[..|events| - 1]);
      ApprovalOnePlace(Run(s, events[..|events| - 1]).approvals, events[|events| - 1]);
    }
  }

  /** In every run: no channel is answered twice, so each pending approval receives at most one answer. */
  lemma OneAnswerEach(consent: bool, owner: Option<nat>, keys: Keys, events: seq<Event>, i: nat, j: nat)
    requires i < j < |Run(Start(consent, owner, keys), events).approvals.sent|
    ensures var sent := Run(Start(consent, owner, keys), events).approvals.sent; sent[i].0 != sent[j].0
  {
    RunOnePlace(Start(consent, owner, keys), events);
  }

  /** In every run: an approver about to answer finds room in the channel, so approving never blocks, and its answer is the first. */
  lemma ApproveNeverBlocks(consent: bool, owner: Option<nat>, keys: Keys, events: seq<Event>, a: nat)
    requires a in Run(Start(consent, owner, keys), events).approvals.approvers
    ensures var s := Run(Start(consent, owner, keys), events).approvals;
      && s.approvers[a] !in s.buffer && !Answered(s, s.approvers[a])
      && FinishApproval(s, a).sent == s.sent + [(s.approvers[a], true)]
  {
    hide Run;
    RunOnePlace(Start(consent, owner, keys), events);
    FinishOnePlace(Run(Start(consent, owner, keys), events).approvals, a);
  }

  /** In every run: locking answers false to every approval still pending, and leaves none pending. */
  lemma LockRejectsAll(consent: bool, owner: Option<nat>, keys: Keys, events: seq<Event>, stopped: bool, order: seq<string>)
    requires forall id | id in Run(Start(consent, owner, keys), events).approvals.pending :: id in order
    ensures var s, t := Run(Start(consent, owner, keys), events), Step(Run(Start(consent, owner, keys), events), Lock(stopped, order));
      && t.approvals.pending == map[]
      && forall id | id in s.approvals.pending :: (s.approvals.pending[id], false) in t.approvals.sent
  {
    hide Run, RejectAll;
    RunOnePlace(Start(consent, owner, keys), events);
    RejectAllOnePlace(Run(Start(consent, owner, keys), events).approvals, order);
  }

  // ----- sessions -----

  predicate IsChange(e: Event) {
    e.Lock? || e.Unlock?
  }

  /** Events i up to j neither lock nor unlock this broker. */
  ghost predicate Undisturbed(events: seq<Event>, i: nat, j: nat) {
    forall k | i <= k < j && k < |events| :: !IsChange(events[k])
  }

  /** Nor, when reads are bound to another broker, that one. */
  ghost predicate Unbroken(bound: bool, events: seq<Event>, i: nat, j: nat) {
    forall k | i <= k < j && k < |events| :: if bound then !events[k].OwnerChange? else !IsChange(events[k])
  }

  lemma RunOne(s: State, events: seq<Event>, j: nat)
    requires 0 < j <= |events|
    ensures Run(s, events[..j]) == Step(Run(s, events[..j - 1]), events[j - 1])
  {
    assert events[..j][..j - 1] == events[..j - 1];
  }

  /** Locking and unlocking start a new epoch; nothing else does, and time only advances. */
  lemma EpochStep(s: State, e: Event)
    ensures Step(s, e).session.epoch == if IsChange(e) then s.session.epoch + 1 else s.session.epoch
    ensures Step(s, e).owner == if e.OwnerChange? && s.owner.Some? then Some(s.owner.value + 1) else s.owner
    ensures Step(s, e).session.now >= s.session.now && Step(s, e).consent == s.consent
  {
    hide ReadStep, ApprovalStep;
  }

  /** The epoch stays the same exactly while nothing locks or unlocks. */
  lemma {:induction false} EpochCounts(s: State, events: seq<Event>, i: nat, j: nat)
    requires i <= j <= |events|
    ensures var a, b := Run(s, events[..i]), Run(s, events[..j]);
      && a.session.epoch <= b.session.epoch
      && (a.session.epoch == b.session.epoch <==> Undisturbed(events, i, j))
    decreases j - i
  {
    hide Run, Step;
    if i < j {
      EpochCounts(s, events, i, j - 1);
      RunOne(s, events, j);
      EpochStep(Run(s, events[..j - 1]), events[j - 1]);
    }
  }

  /** So does the epoch reads are bound to, this broker's or its owner's. */
  lemma {:induction false} ReadEpochCounts(s: State, events: seq<Event>, i: nat, j: nat)
    requires i <= j <= |events|
    ensures var a, b := Run(s, events[..i]), Run(s, events[..j]);
      && a.owner.Some? == b.owner.Some? && a.consent == b.consent && ReadEpoch(a) <= ReadEpoch(b)
      && (ReadEpoch(a) == ReadEpoch(b) <==> Unbroken(a.owner.Some?, events, i, j))
    decreases j - i
  {
    hide Run, Step;
    if i < j {
      ReadEpochCounts(s, events, i, j - 1);
      RunOne(s, events, j);
      EpochStep(Run(s, events[..j - 1]), events[j - 1]);
    }
  }

  /** A read that is still going carries the epoch it captured. */
  lemma {:induction false} ReadKeepsEpoch(s: State, events: seq<Event>, r: nat, i: nat, j: nat)
    requires i < j <= |events| && events[i] == Capture(r)
    requires forall k | i < k < j :: events[k] != Capture(r)
    ensures var read := ReadAt(Run(s, events[..j]).requests, r);
      read == Served || read == Denied || read.epoch == ReadEpoch(Run(s, events[..i]))
    decreases j
  {
    hide Run, Open;
    RunOne(s, events, j);
    if i < j - 1 {
      ReadKeepsEpoch(s, events, r, i, j - 1);
    }
  }

  /**
   In every run: with consent installed or reads bound to an owner, a read that reaches its final check with a key
   in hand returns its data if and only if nothing locked or unlocked the broker it is bound to between capturing
   its epoch and that check. Otherwise the read always returns. The expiry of a session is no lock: a read under
   way outlives it.
   */
  lemma ServedIffUndisturbed(consent: bool, owner: Option<nat>, keys: Keys, events: seq<Event>, r: nat, i: nat, j: nat)
    requires i < j < |events| && events[i] == Capture(r) && events[j] == Finish(r)
    requires forall k | i < k < j :: events[k] != Capture(r)
    requires ReadAt(Run(Start(consent, owner, keys), events[..j]).requests, r).Keyed?
    ensures ReadAt(Run(Start(consent, owner, keys), events[..j + 1]).requests, r)
      == (if !(consent || owner.Some?) || Unbroken(owner.Some?, events, i, j) then Served else Denied)
  {
    hide Run;
    var s := Start(consent, owner, keys);
    ReadKeepsEpoch(s, events, r, i, j);
    ReadEpochCounts(s, events, 0, j);
    ReadEpochCounts(s, events, i, j);
    RunOne(s, events, j + 1);
    assert Run(s, events[..0]) == s by { StartHere(s, events); }
  }

  lemma StartHere(s: State, events: seq<Event>)
    ensures Run(s, events[..0]) == s
  {
  }

  /** The session an unlock began, as long as nothing locks or unlocks: open until its deadline. */
  ghost predicate Lasting(s: Session, epoch: nat, deadline: nat) {
    && s.epoch == epoch
    && (epoch in s.callbacks ==> s.callbacks[epoch] == deadline)
    && (if s.locked then s.now >= deadline else s.expires == Some(deadline))
  }

  lemma {:induction false} SessionLasts(s: State, events: seq<Event>, i: nat, j: nat)
    requires i < j <= |events| && events[i].Unlock? && Undisturbed(events, i + 1, j)
    ensures var before := Run(s, events[..i]).session;
      Lasting(Run(s, events[..j]).session, before.epoch + 1, before.now + events[i].ttl)
    decreases j
  {
    hide Run, ReadStep, ApprovalStep;
    RunOne(s, events, j);
    if i < j - 1 {
      SessionLasts(s, events, i, j - 1);
    }
  }

  /** Locked by a lock, as long as nothing unlocks. */
  lemma {:induction false} LockLasts(s: State, events: seq<Event>, i: nat, j: nat)
    requires i < j <= |events| && events[i].Lock? && Undisturbed(events, i + 1, j)
    ensures Run(s, events[..j]).session.locked
    decreases j
  {
    hide Run, ReadStep, ApprovalStep;
    RunOne(s, events, j);
    if i < j - 1 { LockLasts(s, events, i, j - 1); }
  }

  /**
   In every run: after the latest lock or unlock, the broker serves from its keys if and only if that was an
   unlock and its time is not over. So no timer of an earlier session, stopped or not, ever ends a later one,
   and none needs to run for a session to end.
   */
  lemma OpenExactly(consent: bool, owner: Option<nat>, keys: Keys, events: seq<Event>, i: nat)
    requires i < |events| && IsChange(events[i]) && Undisturbed(events, i + 1, |events|)
    ensures var s, t := Run(Start(consent, owner, keys), events[..i]).session, Run(Start(consent, owner, keys), events).session;
      Open(t) <==> events[i].Unlock? && t.now < s.now + events[i].ttl
  {
    hide Run;
    assert events[..|events|] == events;
    if events[i].Unlock? {
      SessionLasts(Start(consent, owner, keys), events, i, |events|);
    } else {
      LockLasts(Start(consent, owner, keys), events, i, |events|);
    }
  }

  // ----- which keys a session serves -----

  /** Ending the unsealing of a read sets the one entry of the one project, and nothing else sets any. */
  lemma UnsealSetsOne(s: State, r: nat, project: string, entry: string, value: string)
    requires ReadAt(s.requests, r).Unsealing?
    ensures var was, now := s.session.keys, Step(s, EndUnseal(r, project, entry, value)).session.keys;
      && now.Keys == was.Keys + {project}
      && (forall p | p in was && p != project :: now[p] == was[p])
      && entry in now[project] && now[project][entry] == value
      && now[project].Keys == (if project in was then was[project].Keys else {}) + {entry}
      && (project in was ==> forall e | e in was[project] && e != entry :: now[project][e] == was[project][e])
    ensures Step(s, EndUnseal(r, project, entry, value)).session == s.session.(keys := Step(s, EndUnseal(r, project, entry, value)).session.keys)
  {
  }

  /** Apart from that, only locking, unlocking and the end of a session change the keys held. */
  lemma KeysStay(s: State, e: Event)
    requires !IsChange(e) && !e.Expire? && !(e.EndUnseal? && ReadAt(s.requests, e.r).Unsealing?)
    ensures Step(s, e).session.keys == s.session.keys
  {
    hide ReadStep, ApprovalStep;
  }

  ghost predicate NothingUnsealed(s: State, events: seq<Event>, i: nat, j: nat) {
    forall k | i <= k < j && k < |events| :: !(events[k].EndUnseal? && ReadAt(Run(s, events[..k]).requests, events[k].r).Unsealing?)
  }

  lemma {:induction false} SessionHolds(s: State, events: seq<Event>, i: nat, j: nat)
    requires i < j <= |events| && events[i].Unlock? && Undisturbed(events, i + 1, j) && NothingUnsealed(s, events, i + 1, j)
    ensures var t := Run(s, events[..j]).session; t.locked || t.keys == events[i].keys
    decreases j
  {
    hide Run, ReadStep, ApprovalStep;
    RunOne(s, events, j);
    if i < j - 1 {
      SessionHolds(s, events, i, j - 1);
      if !events[j - 1].Expire? { KeysStay(Run(s, events[..j - 1]), events[j - 1]); }
    }
  }

  /**
   In every run: after the latest lock or unlock was an unlock, with nothing unsealed since, a request is answered
   from exactly the keys it brought until its time is over, and then not at all.
   */
  lemma ServesUnlockedKeys(consent: bool, owner: Option<nat>, keys: Keys, events: seq<Event>, i: nat, project: string, resolve: Resolver)
    requires i < |events| && events[i].Unlock? && Undisturbed(events, i + 1, |events|)
    requires NothingUnsealed(Start(consent, owner, keys), events, i + 1, |events|)
    ensures var s, t := Run(Start(consent, owner, keys), events[..i]).session, Run(Start(consent, owner, keys), events).session;
      KeyFor(t, project, resolve) ==
        if t.now < s.now + events[i].ttl && project in events[i].keys then resolve(events[i].keys[project]) else None
  {
    hide Run;
    OpenExactly(consent, owner, keys, events, i);
    assert events[..|events|] == events;
    SessionHolds(Start(consent, owner, keys), events, i, |events|);
  }

  /** After a lock, until the next unlock: nothing is served. */
  lemma LockedServesNothing(consent: bool, owner: Option<nat>, keys: Keys, events: seq<Event>, i: nat, project: string, resolve: Resolver)
    requires i < |events| && events[i].Lock? && Undisturbed(events, i + 1, |events|)
    ensures KeyFor(Run(Start(consent, owner, keys), events).session, project, resolve) == None
  {
    hide Run;
    OpenExactly(consent, owner, keys, events, i);
  }

  lemma {:induction false} FirstHolds(consent: bool, owner: Option<nat>, keys: Keys, events: seq<Event>, j: nat)
    requires j <= |events| && Undisturbed(events, 0, j) && NothingUnsealed(Start(consent, owner, keys), events, 0, j)
    ensures var t := Run(Start(consent, owner, keys), events[..j]).session;
      !t.locked && t.expires == None && t.keys == keys && t.callbacks == map[]
    decreases j
  {
    hide Run, ReadStep, ApprovalStep;
    if j == 0 {
      StartHere(Start(consent, owner, keys), events);
    } else {
      RunOne(Start(consent, owner, keys), events, j);
      FirstHolds(consent, owner, keys, events, j - 1);
      if !events[j - 1].Expire? { KeysStay(Run(Start(consent, owner, keys), events[..j - 1]), events[j - 1]); }
    }
  }

  /** Before any: from the keys the broker started with, without end. */
  lemma ServesFirstKeys(consent: bool, owner: Option<nat>, keys: Keys, events: seq<Event>, project: string, resolve: Resolver)
    requires Undisturbed(events, 0, |events|) && NothingUnsealed(Start(consent, owner, keys), events, 0, |events|)
    ensures KeyFor(Run(Start(consent, owner, keys), events).session, project, resolve) ==
      if project in keys then resolve(keys[project]) else None
  {
    hide Run;
    assert events[..|events|] == events;
    FirstHolds(consent, owner, keys, events, |events|);
  }

  // ----- how a read comes by its key -----

  /** At this point of the run the read got its key: one the broker served then, one opened elsewhere, or one just unsealed. */
  ghost predicate GotKey(s: State, events: seq<Event>, r: nat, k: nat)
    requires k < |events|
  {
    || (events[k].FetchKey? && events[k].r == r && KeyFor(Run(s, events[..k]).session, events[k].project, events[k].resolve).Some?)
    || events[k] == OpenKey(r)
    || (events[k].EndUnseal? && events[k].r == r
        && exists m | 0 <= m < k :: events[m] == BeginUnseal(r) && Open(Run(s, events[..m]).session))
  }

  /** Where a read stands, told by the events before. */
  ghost predicate Told(s: State, events: seq<Event>, r: nat, j: nat)
    requires j <= |events|
  {
    var read := ReadAt(Run(s, events[..j]).requests, r);
    && (read.Captured? || read.Keyed? || read.Unsealing? || read.Served? ==> exists i | 0 <= i < j :: events[i] == Capture(r))
    && (read.Unsealing? ==> exists m | 0 <= m < j :: events[m] == BeginUnseal(r) && Open(Run(s, events[..m]).session))
    && (read.Keyed? || read.Served? ==> exists k | 0 <= k < j :: GotKey(s, events, r, k))
    && (read.Served? ==> exists f | 0 <= f < j :: events[f] == Finish(r))
  }

  lemma {:induction false} ReadTold(s: State, events: seq<Event>, r: nat, j: nat)
    requires s.requests == map[] && j <= |events|
    ensures Told(s, events, r, j)
    decreases j
  {
    hide Run, Open, KeyFor, GotKey;
    if j == 0 {
      assert Run(s, events[..0]) == s by { StartHere(s, events); }
    } else {
      ReadTold(s, events, r, j - 1);
      RunOne(s, events, j);
      var e, was := events[j - 1], ReadAt(Run(s, events[..j - 1]).requests, r);
      assert ReadAt(Run(s, events[..j]).requests, r).Keyed? && !was.Keyed? ==> GotKey(s, events, r, j - 1) by {
        if IsRead(e) && e.r == r { NowKeyed(s, events, r, j); }
      }
    }
  }

  lemma NowKeyed(s: State, events: seq<Event>, r: nat, j: nat)
    requires 0 < j <= |events| && IsRead(events[j - 1]) && events[j - 1].r == r && Told(s, events, r, j - 1)
    requires Run(s, events[..j]) == Step(Run(s, events[..j - 1]), events[j - 1])
    ensures ReadAt(Run(s, events[..j]).requests, r).Keyed? && !ReadAt(Run(s, events[..j - 1]).requests, r).Keyed? ==> GotKey(s, events, r, j - 1)
  {
    hide Run, Open, KeyFor;
  }

  /**
   In every run: a read that returned its data had captured an epoch, and had come by a key that the broker was
   open for: served while it was, or unsealed after a check that it was, unless the key was opened elsewhere.
   */
  lemma ServedHadKey(consent: bool, owner: Option<nat>, keys: Keys, events: seq<Event>, r: nat)
    requires ReadAt(Run(Start(consent, owner, keys), events).requests, r) == Served
    ensures (exists i | 0 <= i < |events| :: events[i] == Capture(r))
      && (exists k | 0 <= k < |events| :: GotKey(Start(consent, owner, keys), events, r, k))
      && (exists f | 0 <= f < |events| :: events[f] == Finish(r))
  {
    hide Run, GotKey;
    assert events[..|events|] == events;
    ReadTold(Start(consent, owner, keys), events, r, |events|);
  }

  // ----- what a waiter is told -----

  /** Buffered answers were sent, and none was sent as true without a recorded decision. */
  ghost predicate AnswersTold(s: State, events: seq<Event>, j: nat)
    requires j <= |events|
  {
    var t := Run(s, events[..j]).approvals;
    && (forall c | c in t.buffer :: (c, t.buffer[c]) in t.sent)
    && (forall a | a in t.approvers :: exists k | 0 <= k < j :: Decided(s, events, k, t.approvers[a]))
    && (forall c | (c, true) in t.sent :: exists k | 0 <= k < j :: Decided(s, events, k, c))
  }

  /** At this point an approver took this channel out of the pending ones, with the decision on record. */
  ghost predicate Decided(s: State, events: seq<Event>, k: nat, c: nat)
    requires k < |events|
  {
    && events[k].BeginApprove? && events[k].audited
    && var t := Run(s, events[..k]).approvals; events[k].id in t.pending && t.pending[events[k].id] == c
  }

  lemma {:induction false} RejectSendsFalse(s: Approvals, order: seq<string>)
    requires forall c | c in s.buffer :: (c, s.buffer[c]) in s.sent
    ensures var t := RejectAll(s, order);
      && t.approvers == s.approvers && (forall c | (c, true) in t.sent :: (c, true) in s.sent)
      && (forall c | c in t.buffer :: (c, t.buffer[c]) in t.sent)
  {
    if order != [] { RejectSendsFalse(s, order[..|order| - 1]); }
  }

  lemma {:induction false} RunTold(s: State, events: seq<Event>, j: nat)
    requires s.approvals.buffer == map[] && s.approvals.approvers == map[] && s.approvals.sent == [] && j <= |events|
    ensures AnswersTold(s, events, j)
    decreases j
  {
    hide Run, RejectAll, Decided, ReadStep, SessionStep;
    if j == 0 {
      StartHere(s, events);
    } else {
      RunTold(s, events, j - 1);
      RunOne(s, events, j);
      var was, e := Run(s, events[..j - 1]).approvals, events[j - 1];
      match e
      case Lock(_, order) => RejectSendsFalse(was, order);
      case BeginApprove(_, id, audited) => if id in was.pending && audited { NowDecided(s, events, j - 1); }
      case _ =>
    }
  }

  lemma NowDecided(s: State, events: seq<Event>, k: nat)
    requires k < |events| && events[k].BeginApprove? && events[k].audited && events[k].id in Run(s, events[..k]).approvals.pending
    ensures Decided(s, events, k, Run(s, events[..k]).approvals.pending[events[k].id])
  {
  }

  /** In every run: a waiter about to be told yes waits on a channel that someone approved, with the decision on record. */
  lemma ApprovedOnRecord(consent: bool, owner: Option<nat>, keys: Keys, events: seq<Event>, c: nat)
    requires var t := Run(Start(consent, owner, keys), events).approvals; c in t.buffer && t.buffer[c]
    ensures exists k | 0 <= k < |events| :: Decided(Start(consent, owner, keys), events, k, c)
  {
    hide Run, Decided;
    assert events[..|events|] == events;
    RunTold(Start(consent, owner, keys), events, |events|);
  }

  // ----- the broker as the program runs it -----

  class Server {
    const consent: bool
    var owner: Option<nat>
    var session: Session
    var approvals: Approvals
    var requests: map<nat, Read>

    ghost function View(): State
      reads this
    {
      State(consent, owner, session, approvals, requests)
    }

    constructor (consent: bool, owner: Option<nat>, keys: Keys)
      ensures View() == Start(consent, owner, keys)
    {
      this.consent, this.owner := consent, owner;
      session := Session(0, 0, false, None, keys, None, map[]);
      approvals := Approvals(map[], 0, map[], [], map[], map[]);
      requests := map[];
    }

    /** Replaces the key cache for a bounded session. */
    method Unlock(keys: Keys, ttl: nat, stopped: bool)
      modifies this`session
      ensures View() == Step(old(View()), Event.Unlock(keys, ttl, stopped))
    {
      session := StopTimer(session, stopped);
      session := session.(epoch := session.epoch + 1);
      var epoch := session.epoch;
      session := session.(keys := keys, locked := false, expires := Some(session.now + ttl));
      session := session.(timer := Some(epoch), callbacks := session.callbacks[epoch := session.now + ttl]);
    }

    /** Ends the session and answers false to every pending approval, without waiting. */
    method Lock(stopped: bool) returns (ghost order: seq<string>)
      modifies this`session, this`approvals
      ensures forall id | id in old(approvals).pending :: id in order
      ensures View() == Step(old(View()), Event.Lock(stopped, order))
    {
      session := StopTimer(session, stopped);
      session := session.(epoch := session.epoch + 1);
      session := ClearKeys(session);
      order := [];
      var todo := approvals.pending.Keys;
      while todo != {}
        invariant todo <= approvals.pending.Keys <= old(approvals).pending.Keys
        invariant forall id | id in old(approvals).pending :: id in todo || id in order
        invariant approvals == RejectAll(old(approvals), order)
        invariant session == LockSession(old(session), stopped)
      {
        var id :| id in todo;
        assert (order + [id])[..|order|] == order;
        order := order + [id];
        var channel := approvals.pending[id];
        if channel !in approvals.buffer {
          approvals := approvals.(buffer := approvals.buffer[channel := false], sent := approvals.sent + [(channel, false)]);
        }
        approvals := approvals.(pending := approvals.pending - {id});
        todo := todo - {id};
      }
    }

    /** A timer's callback: only the callback of the current epoch ends the session. */
    method Expire(epoch: nat)
      modifies this`session
      ensures View() == Step(old(View()), Event.Expire(epoch))
    {
      if epoch in session.callbacks && session.now >= session.callbacks[epoch] {
        session := session.(callbacks := session.callbacks - {epoch});
        if epoch == session.epoch {
          session := ClearKeys(session);
        }
      }
    }

    method KeyFor(project: string, resolve: Resolver) returns (r: Result<string>)
      ensures r.Ok? <==> Open(session) && project in session.keys && resolve(session.keys[project]).Some?
      ensures r.Ok? ==> Some(r.value) == resolve(session.keys[project])
    {
      if session.locked || (session.expires.Some? && session.now >= session.expires.value) { return Err("vault is locked"); }
      if project !in session.keys { return Err("no keys held for project"); }
      var key := resolve(session.keys[project]);
      return if key.Some? then Ok(key.value) else Err("no key held for the environment or the file's public key");
    }

    /** Makes a channel for a new approval. */
    method NewPending(id: string)
      modifies this`approvals
      ensures View() == Step(old(View()), Event.NewPending(id))
    {
      var channel := approvals.channels;
      approvals := approvals.(pending := approvals.pending[id := channel], channels := channel + 1);
    }

    /**
     Approves a pending request: the channel is taken out first, the decision recorded, and the answer sent.
     Nothing else can have answered the channel, so the send has room.
     */
    method Approve(a: nat, id: string, audited: bool) returns (r: Result<()>)
      requires OnePlace(approvals) && a !in approvals.approvers
      modifies this`approvals
      ensures OnePlace(approvals)
      ensures View() == Step(Step(old(View()), BeginApprove(a, id, audited)), FinishApprove(a))
      ensures r.Ok? <==> id in old(approvals).pending && audited
      ensures r.Ok? ==> approvals.sent == old(approvals).sent + [(old(approvals).pending[id], true)]
    {
      hide OnePlace;
      ApprovalOnePlace(approvals, BeginApprove(a, id, audited));
      ApprovalOnePlace(ApprovalStep(approvals, BeginApprove(a, id, audited)), FinishApprove(a));
      FinishOnePlace(ApprovalStep(approvals, BeginApprove(a, id, audited)), a);
      if id !in approvals.pending { return Err("no pending approval"); }
      var channel := approvals.pending[id];
      Roomy(approvals, id);
      approvals := approvals.(pending := approvals.pending - {id});
      if !audited { return Err("audit log unavailable; refusing to serve secrets"); }
      approvals := approvals.(buffer := approvals.buffer[channel := true], sent := approvals.sent + [(channel, true)]);
      assert approvals == ApprovalStep(ApprovalStep(old(approvals), BeginApprove(a, id, audited)), FinishApprove(a));
      return Ok(());
    }

    /** A read begins by capturing the epoch. */
    method BeginRead(r: nat)
      modifies this`requests
      ensures View() == Step(old(View()), Capture(r))
    {
      requests := requests[r := Captured(if owner.Some? then owner.value else session.epoch)];
    }

    /** Unsealing a key the broker does not hold starts only while it is open. */
    method BeginUnsealing(r: nat) returns (ok: bool)
      requires ReadAt(requests, r).Captured?
      modifies this`requests
      ensures View() == Step(old(View()), BeginUnseal(r)) && ok == Open(session)
    {
      ok := !session.locked && (session.expires.None? || session.now < session.expires.value);
      requests := requests[r := if ok then Unsealing(requests[r].epoch) else Denied];
    }

    /** The unsealed key is held from now on, whatever happened to the session meanwhile. */
    method EndUnsealing(r: nat, project: string, entry: string, value: string)
      requires ReadAt(requests, r).Unsealing?
      modifies this`requests, this`session
      ensures View() == Step(old(View()), EndUnseal(r, project, entry, value))
    {
      if project !in session.keys { session := session.(keys := session.keys[project := map[]]); }
      session := session.(keys := session.keys[project := session.keys[project][entry := value]]);
      requests := requests[r := Keyed(requests[r].epoch)];
    }

    /** The final check of a read with a key in hand. */
    method FinishRead(r: nat) returns (served: bool)
      requires ReadAt(requests, r).Keyed?
      modifies this`requests
      ensures View() == Step(old(View()), Finish(r))
      ensures served <==> !(consent || owner.Some?) || old(requests)[r].epoch == (if owner.Some? then owner.value else session.epoch)
    {
      var epoch := if owner.Some? then owner.value else session.epoch;
      served := !((consent || owner.Some?) && requests[r].epoch != epoch);
      requests := requests[r := if served then Served else Denied];
    }
  }

  lemma Roomy(s: Approvals, id: string)
    requires OnePlace(s) && id in s.pending
    ensures s.pending[id] !in s.buffer
  {
  }
}
