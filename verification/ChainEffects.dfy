/**
 What each link does: for every type, exactly when a link with a good header is accepted, and everything that is
 different afterwards. Stated of the whole step, field by field.
 */
module ChainEffects {
  import opened Wrappers
  import opened Envelopes
  import opened DeviceChain

  /** A well-formed envelope of a link that is the user's, the next one, points back at the last, and is not a day older. */
  ghost predicate Header(w: Ideal, s: ChainState, e: Envelope, l: Link) {
    && e.Check() && e.kind == "chain-link" && w.parseLink(e.body) == Some(l)
    && l.user == s.user && l.seqNo == s.seqNo + 1
    && (if s.hashes == [] then l.prev == "" else l.prev == s.hashes[|s.hashes| - 1])
    && l.ctime != 0 && (s.lastTime != 0 ==> l.ctime + 24 * 60 * 60 >= s.lastTime)
  }

  ghost predicate SignedBy(w: Ideal, e: Envelope, key: Key) {
    exists i | 0 <= i < |e.sigs| :: e.sigs[i].key == key && w.crypto.verify(key, Message(e.kind, e.body), e.sigs[i].sig)
  }

  /** The header of a link after the first, of the current user key's version and signed by that key. */
  ghost predicate UnderKey(w: Ideal, s: ChainState, e: Envelope, l: Link) {
    Header(w, s, e, l) && s.seqNo > 0 && l.version == s.trust.version && SignedBy(w, e, s.trust.signPub)
  }

  /** The state after an accepted link: the record is one longer, and the trusted state is this. */
  function Taken(w: Ideal, s: ChainState, e: Envelope, l: Link, t: Trust): ChainState {
    ChainState(s.user, s.seqNo + 1, s.hashes + [w.crypto.digest(Message(e.kind, e.body))], l.ctime, s.links + [l], t)
  }

  lemma HeaderExactly(w: Ideal, s: ChainState, e: Envelope, l: Link)
    ensures DecodeNext(w, s, e) == Ok(l) <==> Header(w, s, e, l)
  {
  }

  /** Without a good header nothing is accepted. */
  lemma NoHeader(w: Ideal, s: ChainState, e: Envelope)
    requires forall l :: !Header(w, s, e, l)
    ensures Step(w, s, e).Err?
  {
    hide Change, Header;
    if DecodeNext(w, s, e).Ok? { HeaderExactly(w, s, e, DecodeNext(w, s, e).value); }
  }

  lemma Changes(w: Ideal, s: ChainState, e: Envelope, l: Link)
    requires Header(w, s, e, l)
    ensures Step(w, s, e) == match Change(w, s.user, s.trust, e, l)
                             case Err(m) => Err(m)
                             case Ok(t) => Ok(Taken(w, s, e, l, t))
  {
    hide Change, Header;
    HeaderExactly(w, s, e, l);
    assert l.seqNo == s.seqNo + 1 by { HeaderSeq(w, s, e, l); }
  }

  lemma HeaderSeq(w: Ideal, s: ChainState, e: Envelope, l: Link)
    requires Header(w, s, e, l)
    ensures l.seqNo == s.seqNo + 1 && e.Check() && e.kind == KIND_LINK
  {
  }

  /** After the first link, and but for a rotation: under the current key, and then by type. */
  lemma ChangesUnderKey(w: Ideal, s: ChainState, e: Envelope, l: Link)
    requires Header(w, s, e, l) && s.seqNo > 0 && l.typ != TypeInit && l.typ != TypeRotate
    ensures !UnderKey(w, s, e, l) ==> Step(w, s, e).Err?
    ensures UnderKey(w, s, e, l) ==>
      Step(w, s, e) == match ApplyUnderKey(w, s.user, s.trust, l)
                       case Err(m) => Err(m)
                       case Ok(t) => Ok(Taken(w, s, e, l, t))
  {
    hide ApplyUnderKey, Header;
    HeaderSeq(w, s, e, l);
    Changes(w, s, e, l);
    assert Require(w.crypto, e, KIND_LINK, [s.trust.signPub]) <==> SignedBy(w, e, s.trust.signPub) by {
      RequireOne(w, e, KIND_LINK, s.trust.signPub);
    }
  }

  lemma RequireOne(w: Ideal, e: Envelope, kind: string, key: Key)
    ensures Require(w.crypto, e, kind, [key]) <==> e.Check() && e.kind == kind && SignedBy(w, e, key)
  {
    if SignedBy(w, e, key) { assert VerifiedBy(w.crypto, e, key); }
    if Require(w.crypto, e, kind, [key]) { assert VerifiedBy(w.crypto, e, [key][0]); }
  }

  lemma RequireTwo(w: Ideal, e: Envelope, kind: string, a: Key, b: Key)
    ensures Require(w.crypto, e, kind, [a, b]) <==> e.Check() && e.kind == kind && SignedBy(w, e, a) && SignedBy(w, e, b)
  {
    if Require(w.crypto, e, kind, [a, b]) { assert VerifiedBy(w.crypto, e, [a, b][0]) && VerifiedBy(w.crypto, e, [a, b][1]); }
    if SignedBy(w, e, a) && SignedBy(w, e, b) { assert VerifiedBy(w.crypto, e, a) && VerifiedBy(w.crypto, e, b); }
  }

  // ----- devices -----

  /** The device signed for its own keys, for this user. */
  ghost predicate Proven(w: Ideal, user: string, proof: Envelope, d: Device) {
    && proof.Check() && proof.kind == "device-proof" && w.parseProof(proof.body) == Some(DeviceProof(user, d))
    && w.userOk(user) && w.deviceFieldsOk(d) && d.created != 0
    && ParseKey(d.encPub).Some? && ParseKey(d.signPub).Some? && SignedBy(w, proof, ParseKey(d.signPub).value)
  }

  lemma ProvenExactly(w: Ideal, user: string, proof: Envelope, d: Device)
    ensures Proven(w, user, proof, d) <==> DeviceOk(w, d) && VerifyProof(w, proof) == Some(DeviceProof(user, d))
  {
    hide ParseKey, Require, SignedBy;
    if ParseKey(d.signPub).Some? { RequireOne(w, proof, KIND_DEVICE_PROOF, ParseKey(d.signPub).value); }
  }

  /** How the device may join: the very first, approved by an active device, recovered, or through a usable slot. */
  ghost predicate MayJoin(s: ChainState, b: Body, now: Time)
    requires b.DeviceAddBody?
  {
    || (b.how == First && s.trust.devices.Keys == {} && b.approvedBy == "" && b.slot == "")
    || (b.how == Approval && b.approvedBy in s.trust.devices && s.trust.devices[b.approvedBy].active && b.slot == "")
    || (b.how == Recovery && b.approvedBy == "" && b.slot == "")
    || (b.how == SshAgent && b.approvedBy == "" && b.slot in s.trust.slots && s.trust.slots[b.slot].active
        && s.trust.slots[b.slot].version == s.trust.version && now < s.trust.slots[b.slot].expires)
  }

  lemma DeviceAddStep(w: Ideal, s: ChainState, e: Envelope, l: Link)
    requires Header(w, s, e, l) && s.seqNo > 0 && l.typ == TypeDeviceAdd
    ensures Step(w, s, e).Ok? <==>
      && UnderKey(w, s, e, l) && l.body.DeviceAddBody?
      && l.body.device.id !in s.trust.devices
      && (forall id | id in s.trust.devices :: s.trust.devices[id].device.signPub != l.body.device.signPub
            && s.trust.devices[id].device.encPub != l.body.device.encPub)
      && Proven(w, s.user, l.body.proof, l.body.device) && MayJoin(s, l.body, l.ctime)
    ensures Step(w, s, e).Ok? ==> Step(w, s, e).value == Taken(w, s, e, l, s.trust.(devices := s.trust.devices[l.body.device.id :=
      DeviceState(l.body.device, true, l.body.how, l.body.approvedBy, l.body.slot, s.seqNo + 1, 0)]))
  {
    hide UnderKey, Proven, VerifyProof, DeviceOk, ParseKey;
    ChangesUnderKey(w, s, e, l);
    if l.body.DeviceAddBody? {
      ProvenExactly(w, s.user, l.body.proof, l.body.device);
      assert s.trust.devices == map[] <==> s.trust.devices.Keys == {};
    }
  }

  lemma DeviceRevokeStep(w: Ideal, s: ChainState, e: Envelope, l: Link)
    requires Header(w, s, e, l) && s.seqNo > 0 && l.typ == TypeDeviceRevoke
    ensures Step(w, s, e).Ok? <==>
      UnderKey(w, s, e, l) && l.body.DeviceRevokeBody? && l.body.revoked in s.trust.devices && s.trust.devices[l.body.revoked].active
    ensures Step(w, s, e).Ok? ==> Step(w, s, e).value == Taken(w, s, e, l, s.trust.(devices := s.trust.devices[l.body.revoked :=
      s.trust.devices[l.body.revoked].(active := false, revokedSeq := s.seqNo + 1)]))
  {
    hide UnderKey;
    ChangesUnderKey(w, s, e, l);
  }

  lemma DeviceRenameStep(w: Ideal, s: ChainState, e: Envelope, l: Link)
    requires Header(w, s, e, l) && s.seqNo > 0 && l.typ == TypeDeviceRename
    ensures Step(w, s, e).Ok? <==>
      && UnderKey(w, s, e, l) && l.body.DeviceRenameBody? && w.nameOk(l.body.newName)
      && l.body.renamed in s.trust.devices && s.trust.devices[l.body.renamed].active
    ensures Step(w, s, e).Ok? ==>
      var was := s.trust.devices[l.body.renamed];
      Step(w, s, e).value == Taken(w, s, e, l, s.trust.(devices := s.trust.devices[l.body.renamed :=
        was.(device := was.device.(name := l.body.newName))]))
  {
    hide UnderKey;
    ChangesUnderKey(w, s, e, l);
  }

  // ----- slots -----

  lemma SlotAddStep(w: Ideal, s: ChainState, e: Envelope, l: Link)
    requires Header(w, s, e, l) && s.seqNo > 0 && l.typ == TypeSlotAdd
    ensures Step(w, s, e).Ok? <==>
      && UnderKey(w, s, e, l) && l.body.SlotAddBody? && w.slotIdOk(l.body.slotId) && w.fingerprintOk(l.body.fingerprint)
      && l.body.slotId !in s.trust.slots
      && l.ctime < l.body.slotExpires <= l.ctime + 366 * 24 * 60 * 60
    ensures Step(w, s, e).Ok? ==> Step(w, s, e).value == Taken(w, s, e, l, s.trust.(slots := s.trust.slots[l.body.slotId :=
      SlotState(l.body.slotId, l.body.fingerprint, l.body.slotExpires, s.trust.version, true)]))
  {
    hide UnderKey;
    ChangesUnderKey(w, s, e, l);
  }

  lemma SlotRemoveStep(w: Ideal, s: ChainState, e: Envelope, l: Link)
    requires Header(w, s, e, l) && s.seqNo > 0 && l.typ == TypeSlotRemove
    ensures Step(w, s, e).Ok? <==>
      UnderKey(w, s, e, l) && l.body.SlotRemoveBody? && l.body.removedSlot in s.trust.slots && s.trust.slots[l.body.removedSlot].active
    ensures Step(w, s, e).Ok? ==> Step(w, s, e).value == Taken(w, s, e, l, s.trust.(slots := s.trust.slots[l.body.removedSlot :=
      s.trust.slots[l.body.removedSlot].(active := false)]))
  {
    hide UnderKey;
    ChangesUnderKey(w, s, e, l);
  }

  // ----- delegates -----

  /** Never expiring; the server's may only sign removals and has a key, a passkey has a credential and no key. */
  ghost predicate Eligible(w: Ideal, d: Delegate) {
    && w.delegateFieldsOk(d) && d.created != 0 && d.expires == 0
    && ( (d.kind == Server && d.scope == ScopeRemove && ParseKey(d.signPub).Some?
          && d.alg == 0 && d.publicKey == "" && d.credential == "" && d.rpId == "" && d.origin == "")
      || (d.kind == Passkey && (d.scope == ScopeRemove || d.scope == ScopeManage) && d.signPub == "" && 1 <= |d.credential| < 1024))
  }

  lemma DelegateAddStep(w: Ideal, s: ChainState, e: Envelope, l: Link)
    requires Header(w, s, e, l) && s.seqNo > 0 && l.typ == TypeDelegateAdd
    ensures Step(w, s, e).Ok? <==>
      && UnderKey(w, s, e, l) && l.body.DelegateAddBody? && Eligible(w, l.body.delegate)
      && var d, active := l.body.delegate, (set id | id in s.trust.delegates && s.trust.delegates[id].active);
        && d.id !in s.trust.delegates && |active| < 20
        && (d.kind == Passkey ==> forall id | id in active :: s.trust.delegates[id].delegate.credential != d.credential)
        && (d.kind == Server ==> forall id | id in active :: s.trust.delegates[id].delegate.kind != Server)
    ensures Step(w, s, e).Ok? ==> Step(w, s, e).value == Taken(w, s, e, l, s.trust.(delegates := s.trust.delegates[l.body.delegate.id :=
      DelegateState(l.body.delegate, true, s.seqNo + 1, 0)]))
  {
    hide UnderKey, ParseKey;
    ChangesUnderKey(w, s, e, l);
    assert ActiveDelegateIds(s.trust) == set id | id in s.trust.delegates && s.trust.delegates[id].active;
  }

  lemma DelegateRemoveStep(w: Ideal, s: ChainState, e: Envelope, l: Link)
    requires Header(w, s, e, l) && s.seqNo > 0 && l.typ == TypeDelegateRemove
    ensures Step(w, s, e).Ok? <==>
      && UnderKey(w, s, e, l) && l.body.DelegateRemoveBody?
      && l.body.removedDelegate in s.trust.delegates && s.trust.delegates[l.body.removedDelegate].active
    ensures Step(w, s, e).Ok? ==> Step(w, s, e).value == Taken(w, s, e, l, s.trust.(delegates := s.trust.delegates[l.body.removedDelegate :=
      s.trust.delegates[l.body.removedDelegate].(active := false, removedSeq := s.seqNo + 1)]))
  {
    hide UnderKey;
    ChangesUnderKey(w, s, e, l);
  }

  // ----- security keys -----

  lemma SecurityKeyAddStep(w: Ideal, s: ChainState, e: Envelope, l: Link)
    requires Header(w, s, e, l) && s.seqNo > 0 && l.typ == TypeSecurityKeyAdd
    ensures Step(w, s, e).Ok? <==>
      && UnderKey(w, s, e, l) && l.body.SecurityKeyAddBody? && w.securityKeyOk(l.body.securityKey)
      && var k := l.body.securityKey;
        && k.id !in s.trust.securityKeys
        && (forall id | id in s.trust.securityKeys :: s.trust.securityKeys[id].key.recipient != k.recipient)
        && |set id | id in s.trust.securityKeys && s.trust.securityKeys[id].active| < 20
    ensures Step(w, s, e).Ok? ==> Step(w, s, e).value == Taken(w, s, e, l, s.trust.(securityKeys := s.trust.securityKeys[l.body.securityKey.id :=
      SecurityKeyState(l.body.securityKey, true, l.ctime, s.seqNo + 1, 0)]))
  {
    hide UnderKey;
    ChangesUnderKey(w, s, e, l);
    assert ActiveSecurityKeyIds(s.trust) == set id | id in s.trust.securityKeys && s.trust.securityKeys[id].active;
  }

  lemma SecurityKeyRemoveStep(w: Ideal, s: ChainState, e: Envelope, l: Link)
    requires Header(w, s, e, l) && s.seqNo > 0 && l.typ == TypeSecurityKeyRemove
    ensures Step(w, s, e).Ok? <==>
      && UnderKey(w, s, e, l) && l.body.SecurityKeyRemoveBody?
      && l.body.removedKey in s.trust.securityKeys && s.trust.securityKeys[l.body.removedKey].active
    ensures Step(w, s, e).Ok? ==> Step(w, s, e).value == Taken(w, s, e, l, s.trust.(securityKeys := s.trust.securityKeys[l.body.removedKey :=
      s.trust.securityKeys[l.body.removedKey].(active := false, removedSeq := s.seqNo + 1)]))
  {
    hide UnderKey;
    ChangesUnderKey(w, s, e, l);
  }

  // ----- the user key -----

  lemma InitStep(w: Ideal, s: ChainState, e: Envelope, l: Link)
    requires Header(w, s, e, l) && s.seqNo == 0
    ensures Step(w, s, e).Ok? <==>
      && l.typ == TypeInit && l.version == 1 && l.body.InitBody?
      && var b := l.body;
        && ParseKey(b.encPub).Some? && ParseKey(b.signPub).Some? && ParseKey(b.masterPub).Some? && ParseKey(b.masterSignPub).Some?
        && var enc, sign, master := ParseKey(b.encPub).value, ParseKey(b.signPub).value, ParseKey(b.masterPub).value;
          && w.crypto.verify(ParseKey(b.masterSignPub).value, "esec-vault root v1\n" + enc + "\n" + sign + "\n" + master + "\n", b.rootSig)
          && SignedBy(w, e, sign)
    ensures Step(w, s, e).Ok? ==>
      var b := l.body;
      var enc, sign := ParseKey(b.encPub).value, ParseKey(b.signPub).value;
      Step(w, s, e).value == Taken(w, s, e, l, s.trust.(version := 1, encPub := enc, signPub := sign,
        masterPub := ParseKey(b.masterPub).value, masterSignPub := ParseKey(b.masterSignPub).value,
        epochs := [KeyEpoch(1, enc, sign, 1, l.ctime)]))
  {
    hide ParseKey, Require, SignedBy, Header;
    HeaderSeq(w, s, e, l);
    Changes(w, s, e, l);
    if l.body.InitBody? && ParseKey(l.body.signPub).Some? { RequireOne(w, e, KIND_LINK, ParseKey(l.body.signPub).value); }
  }

  /** The next version, both keys new, signed by the old key and the new one, and a list of active devices, each once. */
  ghost predicate MayRotate(w: Ideal, s: ChainState, e: Envelope, l: Link) {
    && l.version == s.trust.version + 1 && l.body.RotateBody?
    && ParseKey(l.body.newEnc).Some? && ParseKey(l.body.newSign).Some?
    && ParseKey(l.body.newEnc).value != s.trust.encPub && ParseKey(l.body.newSign).value != s.trust.signPub
    && SignedBy(w, e, s.trust.signPub) && SignedBy(w, e, ParseKey(l.body.newSign).value)
    && l.body.kept != []
    && (forall id | id in l.body.kept :: id in s.trust.devices && s.trust.devices[id].active)
    && forall i, j | 0 <= i < |l.body.kept| && 0 <= j < |l.body.kept| && i != j :: l.body.kept[i] != l.body.kept[j]
  }

  lemma RotateAccepted(w: Ideal, s: ChainState, e: Envelope, l: Link)
    requires Header(w, s, e, l) && s.seqNo > 0 && l.typ == TypeRotate
    ensures Step(w, s, e).Ok? <==> MayRotate(w, s, e, l)
  {
    hide ParseKey, Require, SignedBy, Header, RevokeUnlisted, CloseSlots, DropDelegates;
    HeaderSeq(w, s, e, l);
    Changes(w, s, e, l);
    if l.body.RotateBody? && ParseKey(l.body.newSign).Some? {
      RequireTwo(w, e, KIND_LINK, s.trust.signPub, ParseKey(l.body.newSign).value);
      KeptOnce(s.trust, l.body.kept);
    }
  }

  lemma KeptOnce(t: Trust, kept: seq<string>)
    ensures KeepListOk(t, kept) <==>
      && (forall id | id in kept :: id in t.devices && t.devices[id].active)
      && forall i, j | 0 <= i < |kept| && 0 <= j < |kept| && i != j :: kept[i] != kept[j]
  {
    if KeepListOk(t, kept) {
      forall i, j | 0 <= i < |kept| && 0 <= j < |kept| && i != j ensures kept[i] != kept[j] {
        if i < j { assert kept[i] != kept[j]; } else { assert kept[j] != kept[i]; }
      }
    }
  }

  /** What a rotation changes: devices, slots, delegates, the key and its epoch; security keys and the master keys stay. */
  lemma RotateEffect(w: Ideal, s: ChainState, e: Envelope, l: Link)
    requires Header(w, s, e, l) && s.seqNo > 0 && l.typ == TypeRotate && Step(w, s, e).Ok?
    ensures l.body.RotateBody? && ParseKey(l.body.newEnc).Some? && ParseKey(l.body.newSign).Some?
    ensures var t, n, at := s.trust, Step(w, s, e).value.trust, s.seqNo + 1;
      && Step(w, s, e).value == Taken(w, s, e, l, n)
      && n.version == t.version + 1 && n.encPub == ParseKey(l.body.newEnc).value && n.signPub == ParseKey(l.body.newSign).value
      && n.epochs == t.epochs + [KeyEpoch(n.version, n.encPub, n.signPub, at, l.ctime)]
      && n.masterPub == t.masterPub && n.masterSignPub == t.masterSignPub && n.securityKeys == t.securityKeys
    ensures var t, n, at := s.trust, Step(w, s, e).value.trust, s.seqNo + 1;
      && n.devices.Keys == t.devices.Keys && n.slots.Keys == t.slots.Keys && n.delegates.Keys == t.delegates.Keys
      && (forall id | id in t.devices :: n.devices[id] ==
            if !t.devices[id].active || id in l.body.kept then t.devices[id] else t.devices[id].(active := false, revokedSeq := at))
      && (forall id | id in t.slots :: n.slots[id] == t.slots[id].(active := false))
      && (forall id | id in t.delegates :: n.delegates[id] ==
            if t.delegates[id].active then t.delegates[id].(active := false, removedSeq := at) else t.delegates[id])
  {
    hide ParseKey, Require, Header, KeepListOk;
    HeaderSeq(w, s, e, l);
    Changes(w, s, e, l);
  }

  /** A first link is no later one, and a link of any other type is refused. */
  lemma OthersRefused(w: Ideal, s: ChainState, e: Envelope, l: Link)
    requires Header(w, s, e, l) && s.seqNo > 0 && (l.typ == TypeInit || l.typ.TypeUnknown?)
    ensures Step(w, s, e).Err?
  {
    hide Header, UnderKey;
    HeaderSeq(w, s, e, l);
    Changes(w, s, e, l);
    if l.typ != TypeInit { ChangesUnderKey(w, s, e, l); }
  }

  // ----- whole chains -----

  /** A chain is replayed link by link from nothing, for a valid user, when it has at most 10000 links. */
  lemma VerifiesExactly(w: Ideal, user: string, links: seq<Envelope>, e: Envelope)
    ensures Verify(w, user, links).Ok? <==> w.userOk(user) && |links| <= 10000 && Replay(w, user, links).Ok?
    ensures Verify(w, user, links).Ok? ==> Verify(w, user, links) == Replay(w, user, links)
    ensures Replay(w, user, []) == Ok(ChainState(user, 0, [], 0, [], Trust(0, "", "", "", "", map[], map[], map[], map[], [])))
    ensures Replay(w, user, links).Ok? ==> Replay(w, user, links + [e]) == Step(w, Replay(w, user, links).value, e)
    ensures Replay(w, user, links).Err? ==> Replay(w, user, links + [e]).Err?
  {
    hide Step;
    assert (links + [e])[..|links|] == links;
  }

  // ----- lookups and pins -----

  /** A pin is met when the chain is at least as long and has that hash there; position 0 pins nothing. */
  lemma PinExactly(s: ChainState, at: nat, hash: string)
    requires |s.hashes| == s.seqNo
    ensures CheckPin(s, at, hash) <==> (at > 0 ==> at <= |s.hashes| && s.hashes[at - 1] == hash)
  {
  }

  /** The text of a key is 64 hex digits, not all zero, and is kept in lower case. */
  lemma KeyByText(s: string)
    ensures ParseKey(s).Some? <==>
      && |s| == 64 && (forall i | 0 <= i < 64 :: '0' <= s[i] <= '9' || 'a' <= s[i] <= 'f' || 'A' <= s[i] <= 'F') && exists i | 0 <= i < 64 :: s[i] != '0'
    ensures ParseKey(s).Some? ==> (
      && |ParseKey(s).value| == 64
      && forall i | 0 <= i < 64 :: ParseKey(s).value[i] == if 'A' <= s[i] <= 'F' then s[i] - 'A' + 'a' else s[i])
  {
  }
}
