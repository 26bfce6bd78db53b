/**
 What a verified chain says about the past: no history can be forged, a pinned head fixes every
 earlier link, and the fast historical lookups agree with replaying a prefix.
 */
module ChainHistory {
  import opened Wrappers
  import opened Envelopes
  import opened DeviceChain

  predicate Accepts(w: Ideal, user: string, links: seq<Envelope>) {
    Replay(w, user, links).Ok?
  }

  function StateOf(w: Ideal, user: string, links: seq<Envelope>): ChainState
    requires Accepts(w, user, links)
  {
    Replay(w, user, links).value
  }

  /** The same signed messages in the same order. */
  predicate SameMessages(a: seq<Envelope>, b: seq<Envelope>) {
    |a| == |b| && forall i | 0 <= i < |a| :: SameMessage(a[i], b[i])
  }

  /** a is an initial part of b, as far as signed messages go. */
  predicate MessagePrefix(a: seq<Envelope>, b: seq<Envelope>) {
    |a| <= |b| && SameMessages(a, b[..|a|])
  }

  // ----- one step, and prefixes -----

  /** What every accepted link does to the record, whatever its type. */
  lemma StepRecords(w: Ideal, s: ChainState, e: Envelope)
    requires Step(w, s, e).Ok?
    ensures DecodeNext(w, s, e).Ok?
    ensures var n, l := Step(w, s, e).value, DecodeNext(w, s, e).value;
      && n.user == s.user && n.seqNo == s.seqNo + 1 == l.seqNo
      && n.hashes == s.hashes + [Hash(w.crypto, e)]
      && n.links == s.links + [l] && n.lastTime == l.ctime
      && Change(w, s.user, s.trust, e, l) == Ok(n.trust)
  {
    hide Change;
  }

  lemma {:induction false} PrefixAccepted(w: Ideal, user: string, links: seq<Envelope>, n: nat)
    requires Accepts(w, user, links) && n <= |links|
    ensures Accepts(w, user, links[..n])
    decreases |links|
  {
    hide Step;
    if n == |links| {
      assert links[..n] == links;
    } else {
      var front := links[..|links| - 1];
      PrefixAccepted(w, user, front, n);
      assert front[..n] == links[..n];
    }
  }

  /** An accepted chain with one more link: the state before it, and the step that took it. */
  lemma LastStep(w: Ideal, user: string, links: seq<Envelope>)
    requires Accepts(w, user, links) && links != []
    ensures Accepts(w, user, links[..|links| - 1])
    ensures Step(w, StateOf(w, user, links[..|links| - 1]), links[|links| - 1]) == Ok(StateOf(w, user, links))
  {
    hide Step;
  }

  /** Link i of the record is what envelope i says, in its place, pointing back at the link before it. */
  predicate Recorded(w: Ideal, s: ChainState, links: seq<Envelope>, i: nat)
    requires i < |links| == |s.hashes| == |s.links|
  {
    && s.hashes[i] == Hash(w.crypto, links[i])
    && w.parseLink(links[i].body) == Some(s.links[i])
    && s.links[i].seqNo == i + 1
    && s.links[i].prev == (if i == 0 then "" else s.hashes[i - 1])
    && links[i].Check() && links[i].kind == KIND_LINK
  }

  /** The record of an accepted chain, link by link. */
  lemma {:induction false} ReplayRecord(w: Ideal, user: string, links: seq<Envelope>)
    requires Accepts(w, user, links)
    ensures var s := StateOf(w, user, links);
      && s.user == user && s.seqNo == |links| == |s.hashes| == |s.links|
      && forall i | 0 <= i < |links| :: Recorded(w, s, links, i)
  {
    hide Step;
    if links != [] {
      LastStep(w, user, links);
      var m := |links| - 1;
      ReplayRecord(w, user, links[..m]);
      var s, n := StateOf(w, user, links[..m]), StateOf(w, user, links);
      StepRecords(w, s, links[m]);
      forall i | 0 <= i < |links| ensures Recorded(w, n, links, i) {
        if i < m {
          assert Recorded(w, s, links[..m], i);
        }
      }
    }
  }

  /** The record of a prefix is the prefix of the record. */
  lemma {:induction false} PrefixRecord(w: Ideal, user: string, links: seq<Envelope>, n: nat)
    requires Accepts(w, user, links) && n <= |links|
    ensures Accepts(w, user, links[..n])
    ensures |StateOf(w, user, links).hashes| == |links| == |StateOf(w, user, links).links|
    ensures StateOf(w, user, links[..n]).hashes == StateOf(w, user, links).hashes[..n]
    ensures StateOf(w, user, links[..n]).links == StateOf(w, user, links).links[..n]
  {
    hide Replay;
    PrefixAccepted(w, user, links, n);
    ReplayRecord(w, user, links);
    ReplayRecord(w, user, links[..n]);
    var p, s := StateOf(w, user, links[..n]), StateOf(w, user, links);
    forall i | 0 <= i < n ensures p.hashes[i] == s.hashes[i] && p.links[i] == s.links[i] {
      assert Recorded(w, s, links, i) && Recorded(w, p, links[..n], i);
    }
  }

  // ----- signatures decide acceptance, never the resulting state -----

  lemma ChangeIgnoresSignatures(w: Ideal, user: string, t: Trust, a: Envelope, b: Envelope, l: Link)
    requires Change(w, user, t, a, l).Ok? && Change(w, user, t, b, l).Ok?
    ensures Change(w, user, t, a, l) == Change(w, user, t, b, l)
  {
    hide ApplyUnderKey, Require, RevokeUnlisted, CloseSlots, DropDelegates;
  }

  lemma StepIgnoresSignatures(w: Ideal, s: ChainState, a: Envelope, b: Envelope)
    requires SameMessage(a, b) && Step(w, s, a).Ok? && Step(w, s, b).Ok?
    ensures Step(w, s, a) == Step(w, s, b)
  {
    hide Change;
    var l := DecodeNext(w, s, a).value;
    assert DecodeNext(w, s, b) == Ok(l);
    ChangeIgnoresSignatures(w, s.user, s.trust, a, b, l);
  }

  lemma {:induction false} SameMessagesSameState(w: Ideal, user: string, a: seq<Envelope>, b: seq<Envelope>)
    requires Accepts(w, user, a) && Accepts(w, user, b) && SameMessages(a, b)
    ensures StateOf(w, user, a) == StateOf(w, user, b)
    decreases |a|
  {
    hide Step;
    if a != [] {
      var n := |a| - 1;
      LastStep(w, user, a);
      LastStep(w, user, b);
      SameMessagesSameState(w, user, a[..n], b[..n]);
      StepIgnoresSignatures(w, StateOf(w, user, a[..n]), a[n], b[n]);
    }
  }

  // ----- the user keys a chain has had -----

  function UserKeys(s: ChainState): set<Key> {
    set e | e in s.trust.epochs :: e.signPub
  }

  /** No link forgets a user key, and the newest one recorded is the current one. */
  ghost predicate KeysRecorded(t: Trust, t': Trust, first: bool) {
    && (!first ==> IsPrefix(t.epochs, t'.epochs))
    && (first || t'.signPub != t.signPub ==> t'.epochs != [] && t'.epochs[|t'.epochs| - 1].signPub == t'.signPub)
    && (!first && t'.signPub == t.signPub ==> t'.epochs == t.epochs)
  }

  /** The user key, the master key and the epochs are as they were. */
  predicate SameKeys(t: Trust, t': Trust) {
    && t'.epochs == t.epochs && t'.signPub == t.signPub && t'.encPub == t.encPub && t'.version == t.version
    && t'.masterPub == t.masterPub && t'.masterSignPub == t.masterSignPub
  }

  lemma DeviceAddKeepsKeys(w: Ideal, user: string, t: Trust, l: Link)
    requires ApplyDeviceAdd(w, user, t, l).Ok?
    ensures SameKeys(t, ApplyDeviceAdd(w, user, t, l).value)
  {
    hide VerifyProof, DeviceOk, MethodAllowed, KeysReused;
  }

  lemma DeviceRevokeKeepsKeys(t: Trust, l: Link)
    requires ApplyDeviceRevoke(t, l).Ok?
    ensures SameKeys(t, ApplyDeviceRevoke(t, l).value)
  {
  }

  lemma DeviceRenameKeepsKeys(w: Ideal, t: Trust, l: Link)
    requires ApplyDeviceRename(w, t, l).Ok?
    ensures SameKeys(t, ApplyDeviceRename(w, t, l).value)
  {
  }

  lemma SlotAddKeepsKeys(w: Ideal, t: Trust, l: Link)
    requires ApplySlotAdd(w, t, l).Ok?
    ensures SameKeys(t, ApplySlotAdd(w, t, l).value)
  {
  }

  lemma SlotRemoveKeepsKeys(t: Trust, l: Link)
    requires ApplySlotRemove(t, l).Ok?
    ensures SameKeys(t, ApplySlotRemove(t, l).value)
  {
  }

  lemma DelegateAddKeepsKeys(w: Ideal, t: Trust, l: Link)
    requires ApplyDelegateAdd(w, t, l).Ok?
    ensures SameKeys(t, ApplyDelegateAdd(w, t, l).value)
  {
    hide DelegateOk, DelegateTaken;
  }

  lemma DelegateRemoveKeepsKeys(t: Trust, l: Link)
    requires ApplyDelegateRemove(t, l).Ok?
    ensures SameKeys(t, ApplyDelegateRemove(t, l).value)
  {
  }

  lemma SecurityKeyAddKeepsKeys(w: Ideal, t: Trust, l: Link)
    requires ApplySecurityKeyAdd(w, t, l).Ok?
    ensures SameKeys(t, ApplySecurityKeyAdd(w, t, l).value)
  {
    hide RecipientReused;
  }

  lemma SecurityKeyRemoveKeepsKeys(t: Trust, l: Link)
    requires ApplySecurityKeyRemove(t, l).Ok?
    ensures SameKeys(t, ApplySecurityKeyRemove(t, l).value)
  {
  }

  lemma UnderKeyKeepsKeys(w: Ideal, user: string, t: Trust, l: Link)
    requires ApplyUnderKey(w, user, t, l).Ok?
    ensures SameKeys(t, ApplyUnderKey(w, user, t, l).value)
  {
    hide SameKeys, ApplyDeviceAdd, ApplyDeviceRevoke, ApplyDeviceRename, ApplySlotAdd, ApplySlotRemove,
      ApplyDelegateAdd, ApplyDelegateRemove, ApplySecurityKeyAdd, ApplySecurityKeyRemove;
    match l.typ
    case TypeDeviceAdd => DeviceAddKeepsKeys(w, user, t, l);
    case TypeDeviceRevoke => DeviceRevokeKeepsKeys(t, l);
    case TypeDeviceRename => DeviceRenameKeepsKeys(w, t, l);
    case TypeSlotAdd => SlotAddKeepsKeys(w, t, l);
    case TypeSlotRemove => SlotRemoveKeepsKeys(t, l);
    case TypeDelegateAdd => DelegateAddKeepsKeys(w, t, l);
    case TypeDelegateRemove => DelegateRemoveKeepsKeys(t, l);
    case TypeSecurityKeyAdd => SecurityKeyAddKeepsKeys(w, t, l);
    case TypeSecurityKeyRemove => SecurityKeyRemoveKeepsKeys(t, l);
  }

  lemma ChangeRecordsKeys(w: Ideal, user: string, t: Trust, e: Envelope, l: Link)
    requires Change(w, user, t, e, l).Ok?
    ensures KeysRecorded(t, Change(w, user, t, e, l).value, l.seqNo == 1)
  {
    hide ApplyUnderKey, Require, RevokeUnlisted, CloseSlots, DropDelegates;
    if l.seqNo != 1 && l.typ != TypeRotate {
      UnderKeyKeepsKeys(w, user, t, l);
    }
  }

  predicate CurrentRecorded(t: Trust) {
    t.epochs != [] && t.epochs[|t.epochs| - 1].signPub == t.signPub
  }

  /** The key current after any number of links is one of the chain's user keys. */
  lemma {:induction false} CurrentKeyIsAnEpoch(w: Ideal, user: string, links: seq<Envelope>, n: nat)
    requires Accepts(w, user, links) && 0 < n <= |links|
    ensures Accepts(w, user, links[..n])
    ensures StateOf(w, user, links[..n]).trust.signPub in UserKeys(StateOf(w, user, links))
    ensures n == |links| ==>
      CurrentRecorded(StateOf(w, user, links).trust)
    decreases |links|
  {
    hide Step;
    PrefixAccepted(w, user, links, n);
    LastStep(w, user, links);
    var front, e := links[..|links| - 1], links[|links| - 1];
    var s, t := StateOf(w, user, front), StateOf(w, user, links);
    ReplayRecord(w, user, front);
    StepRecords(w, s, e);
    ChangeRecordsKeys(w, user, s.trust, e, DecodeNext(w, s, e).value);
    if front != [] {
      CurrentKeyIsAnEpoch(w, user, front, |front|);
      assert front[..|front|] == front;
    }
    if n < |links| {
      CurrentKeyIsAnEpoch(w, user, front, n);
      assert front[..n] == links[..n];
      var k := StateOf(w, user, links[..n]).trust.signPub;
      var ep :| ep in s.trust.epochs && ep.signPub == k;
      assert ep in t.trust.epochs;
    } else {
      assert links[..n] == links;
      assert t.trust.epochs[|t.trust.epochs| - 1] in t.trust.epochs;
    }
  }

  /** After the first link, every accepted link is signed by the key current before it. */
  lemma SignedByCurrentKey(w: Ideal, s: ChainState, e: Envelope)
    requires Step(w, s, e).Ok? && s.seqNo > 0
    ensures VerifiedBy(w.crypto, e, s.trust.signPub)
  {
    var l := DecodeNext(w, s, e).value;
    if l.typ == TypeRotate {
      var sign := ParseKey(l.body.newSign).value;
      var keys := [s.trust.signPub, sign];
      assert Require(w.crypto, e, KIND_LINK, keys);
      assert VerifiedBy(w.crypto, e, keys[0]);
    } else {
      var keys := [s.trust.signPub];
      assert Require(w.crypto, e, KIND_LINK, keys);
      assert VerifiedBy(w.crypto, e, keys[0]);
    }
  }

  // ----- no forged history -----

  /** The only link envelopes that verify under any of these keys carry the honest chain's own messages. */
  ghost predicate Unforgeable(w: Ideal, keys: set<Key>, honest: seq<Envelope>) {
    forall e: Envelope, k: Key {:trigger VerifiedBy(w.crypto, e, k)} ::
      k in keys && e.kind == KIND_LINK && VerifiedBy(w.crypto, e, k) ==> Within(e, honest)
  }

  ghost predicate Within(e: Envelope, honest: seq<Envelope>) {
    exists i :: 0 <= i < |honest| && SameMessage(e, honest[i])
  }

  /**
   A server without the user keys can withhold links and nothing else: whatever chain it serves that
   verifies and starts with the account's first link is an initial part of the honest chain, and
   replays to the state the honest chain had then.
   */
  lemma {:induction false} NoForgedHistory(w: Ideal, user: string, honest: seq<Envelope>, links: seq<Envelope>)
    requires Accepts(w, user, honest) && Accepts(w, user, links)
    requires honest != [] && links != [] && SameMessage(links[0], honest[0])
    requires Unforgeable(w, UserKeys(StateOf(w, user, honest)), honest)
    ensures MessagePrefix(links, honest)
    ensures Accepts(w, user, honest[..|links|])
    ensures StateOf(w, user, links) == StateOf(w, user, honest[..|links|])
    decreases |links|
  {
    hide Step;
    var m := |links| - 1;
    if m == 0 {
      assert SameMessages(links, honest[..1]);
    } else {
      LastStep(w, user, links);
      var front, e := links[..m], links[m];
      NoForgedHistory(w, user, honest, front);
      var s := StateOf(w, user, front);
      ReplayRecord(w, user, front);
      CurrentKeyIsAnEpoch(w, user, honest, m);
      SignedByCurrentKey(w, s, e);
      StepRecords(w, s, e);
      assert VerifiedBy(w.crypto, e, s.trust.signPub);
      var i :| 0 <= i < |honest| && SameMessage(e, honest[i]);
      ReplayRecord(w, user, honest);
      assert Recorded(w, StateOf(w, user, honest), honest, i);
      assert i == m;
      assert SameMessages(links, honest[..|links|]);
    }
    PrefixAccepted(w, user, honest, |links|);
    SameMessagesSameState(w, user, links, honest[..|links|]);
  }

  /** The other half: every initial part of a chain that verifies is itself accepted, so withholding is never noticed from the chain alone. */
  lemma WithholdingVerifies(w: Ideal, user: string, honest: seq<Envelope>, n: nat)
    requires Verify(w, user, honest).Ok? && n <= |honest|
    ensures Verify(w, user, honest[..n]).Ok?
  {
    hide Step;
    PrefixAccepted(w, user, honest, n);
  }

  // ----- pins -----

  /** The last verified head, as account.toml keeps it. */
  datatype ChainPin = ChainPin(at: nat, head: string, root: string, version: nat)

  const NO_PIN := ChainPin(0, "", "", 0)

  function PinOf(s: ChainState): ChainPin {
    ChainPin(s.seqNo, Head(s), Root(s), s.trust.version)
  }

  /** A chain that rolls back or forks from the pin is refused. */
  predicate PinAllows(pin: ChainPin, s: ChainState)
    requires |s.hashes| == s.seqNo
  {
    (pin.root == "" || Root(s) == pin.root) && CheckPin(s, pin.at, pin.head)
  }

  /** Under an injective digest, the hash of one link fixes every link before it. */
  lemma {:induction false} HeadFixesHistory(w: Ideal, user: string, a: seq<Envelope>, b: seq<Envelope>, n: nat)
    requires Injective(w.crypto.digest)
    requires Accepts(w, user, a) && Accepts(w, user, b)
    requires 0 < n <= |a| && n <= |b| && Hash(w.crypto, a[n - 1]) == Hash(w.crypto, b[n - 1])
    ensures SameMessages(a[..n], b[..n])
    ensures Accepts(w, user, a[..n]) && Accepts(w, user, b[..n])
    ensures StateOf(w, user, a[..n]) == StateOf(w, user, b[..n])
  {
    hide Step;
    ReplayRecord(w, user, a);
    ReplayRecord(w, user, b);
    var sa, sb := StateOf(w, user, a), StateOf(w, user, b);
    assert Recorded(w, sa, a, n - 1) && Recorded(w, sb, b, n - 1);
    HashDeterminesMessage(w.crypto, a[n - 1], b[n - 1]);
    assert sa.links[n - 1] == sb.links[n - 1];
    if n > 1 {
      assert Recorded(w, sa, a, n - 2) && Recorded(w, sb, b, n - 2);
      assert sa.hashes[n - 2] == sa.links[n - 1].prev == sb.links[n - 1].prev == sb.hashes[n - 2];
      HeadFixesHistory(w, user, a, b, n - 1);
      forall i | 0 <= i < n ensures SameMessage(a[..n][i], b[..n][i]) {
        if i < n - 1 {
          assert a[..n - 1][i] == a[i] && b[..n - 1][i] == b[i];
        }
      }
    }
    PrefixAccepted(w, user, a, n);
    PrefixAccepted(w, user, b, n);
    SameMessagesSameState(w, user, a[..n], b[..n]);
  }

  /** One use of the account: a chain the server served, and whether the device moved its pin to it. */
  datatype Visit = Visit(links: seq<Envelope>, pins: bool)

  /** The pin after the visits, when every one was accepted; None when one was refused. */
  function Visits(w: Ideal, user: string, visits: seq<Visit>): Option<ChainPin> {
    if visits == [] then Some(NO_PIN) else
    var last := visits[|visits| - 1];
    match Visits(w, user, visits[..|visits| - 1])
    case None => None
    case Some(pin) =>
      match Replay(w, user, last.links)
      case Err(_) => None
      case Ok(s) =>
        if |s.hashes| != s.seqNo || !PinAllows(pin, s) then None
        else Some(if last.pins then PinOf(s) else pin)
  }

  /** The pin names a link that every later accepted chain holds: some earlier visit's chain, kept since. */
  lemma {:induction false} VisitsExtend(w: Ideal, user: string, visits: seq<Visit>, i: nat)
    requires Injective(w.crypto.digest)
    requires Visits(w, user, visits).Some?
    requires i < |visits| && visits[i].pins && visits[i].links != []
    ensures Accepts(w, user, visits[i].links)
    ensures Accepts(w, user, visits[|visits| - 1].links)
    ensures i < |visits| - 1 ==> Extends(w, user, visits[i].links, visits[|visits| - 1].links)
    ensures var pin := Visits(w, user, visits).value;
      exists links :: PinnedChain(w, user, pin, links) && Extends(w, user, visits[i].links, links)
    decreases |visits|
  {
    hide Step;
    var front, last := visits[..|visits| - 1], visits[|visits| - 1];
    var s := StateOf(w, user, last.links);
    ReplayRecord(w, user, last.links);
    if i == |visits| - 1 {
      assert PinnedChain(w, user, PinOf(s), last.links);
      ExtendsRefl(w, user, last.links);
    } else {
      VisitsExtend(w, user, front, i);
      assert front[i] == visits[i];
      var pin := Visits(w, user, front).value;
      var links :| PinnedChain(w, user, pin, links) && Extends(w, user, visits[i].links, links);
      PinHolds(w, user, pin, links, last.links);
      ExtendsTrans(w, user, visits[i].links, links, last.links);
      if last.pins {
        assert PinnedChain(w, user, PinOf(s), last.links);
      }
    }
  }

  ghost predicate PinnedChain(w: Ideal, user: string, pin: ChainPin, links: seq<Envelope>) {
    Accepts(w, user, links) && links != [] && PinOf(StateOf(w, user, links)) == pin
  }

  /** b carries a's messages first, and passed through a's state on the way. */
  ghost predicate Extends(w: Ideal, user: string, a: seq<Envelope>, b: seq<Envelope>) {
    && Accepts(w, user, a) && Accepts(w, user, b)
    && MessagePrefix(a, b)
    && Accepts(w, user, b[..|a|]) && StateOf(w, user, b[..|a|]) == StateOf(w, user, a)
  }

  lemma ExtendsRefl(w: Ideal, user: string, a: seq<Envelope>)
    requires Accepts(w, user, a)
    ensures Extends(w, user, a, a)
  {
    hide Replay, Step;
    assert a[..|a|] == a;
  }

  lemma ExtendsTrans(w: Ideal, user: string, a: seq<Envelope>, b: seq<Envelope>, c: seq<Envelope>)
    requires Extends(w, user, a, b) && Extends(w, user, b, c)
    ensures Extends(w, user, a, c)
  {
    forall i | 0 <= i < |a| ensures SameMessage(a[i], c[..|a|][i]) {
      assert b[..|a|][i] == b[i] && c[..|b|][i] == c[i];
    }
    PrefixAccepted(w, user, c, |a|);
    SameMessagesSameState(w, user, a, c[..|a|]);
  }

  /** An accepted chain's state holds the hash of each of its links. */
  lemma HashAt(w: Ideal, user: string, links: seq<Envelope>, i: nat)
    requires Accepts(w, user, links) && i < |links|
    ensures var s := StateOf(w, user, links); |s.hashes| == s.seqNo == |links| && s.hashes[i] == Hash(w.crypto, links[i])
  {
    hide Replay;
    ReplayRecord(w, user, links);
    assert Recorded(w, StateOf(w, user, links), links, i);
  }

  lemma RecordSizes(w: Ideal, user: string, links: seq<Envelope>)
    requires Accepts(w, user, links)
    ensures var s := StateOf(w, user, links); |s.hashes| == s.seqNo == |links|
  {
    hide Replay;
    ReplayRecord(w, user, links);
  }

  /** A pin that allows a chain names the hash of one of its links. */
  lemma PinNames(pin: ChainPin, s: ChainState, later: ChainState)
    requires |s.hashes| == s.seqNo > 0 && |later.hashes| == later.seqNo
    requires PinOf(s) == pin && PinAllows(pin, later)
    ensures s.seqNo <= later.seqNo && later.hashes[s.seqNo - 1] == s.hashes[s.seqNo - 1]
  {
  }

  lemma PinHolds(w: Ideal, user: string, pin: ChainPin, links: seq<Envelope>, later: seq<Envelope>)
    requires Injective(w.crypto.digest)
    requires PinnedChain(w, user, pin, links) && Accepts(w, user, later)
    requires var s := StateOf(w, user, later); |s.hashes| == s.seqNo && PinAllows(pin, s)
    ensures Extends(w, user, links, later)
  {
    hide Replay, PinAllows, PinOf, Injective, SameMessage;
    var n := |links|;
    RecordSizes(w, user, links);
    RecordSizes(w, user, later);
    PinNames(pin, StateOf(w, user, links), StateOf(w, user, later));
    HashAt(w, user, links, n - 1);
    HashAt(w, user, later, n - 1);
    HeadFixesHistory(w, user, links, later, n);
    assert links[..n] == links;
  }

  /**
   Pins give prefixes over whole runs: every chain a device accepts begins with every chain it pinned
   before, and replays through the state that one had. The device's view only ever extends.
   */
  lemma PinsGivePrefixes(w: Ideal, user: string, visits: seq<Visit>, i: nat, j: nat)
    requires Injective(w.crypto.digest)
    requires Visits(w, user, visits).Some?
    requires i < j < |visits| && visits[i].pins
    ensures Extends(w, user, visits[i].links, visits[j].links)
  {
    hide Replay;
    VisitsPrefix(w, user, visits, i + 1);
    VisitsPrefix(w, user, visits, j + 1);
    assert visits[..j + 1][i] == visits[i] && visits[..j + 1][j] == visits[j];
    assert visits[..i + 1][i] == visits[i];
    if visits[i].links != [] {
      VisitsExtend(w, user, visits[..j + 1], i);
    } else {
      assert visits[j].links[..0] == [];
    }
  }

  lemma {:induction false} VisitsPrefix(w: Ideal, user: string, visits: seq<Visit>, n: nat)
    requires Visits(w, user, visits).Some? && 0 < n <= |visits|
    ensures Visits(w, user, visits[..n]).Some?
    ensures Accepts(w, user, visits[n - 1].links)
    decreases |visits|
  {
    hide Step;
    if n == |visits| {
      assert visits[..n] == visits;
    } else {
      var front := visits[..|visits| - 1];
      VisitsPrefix(w, user, front, n);
      assert front[..n] == visits[..n];
    }
  }
}
