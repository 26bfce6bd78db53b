/**
 What every reachable chain keeps: how one link may change each part of the trusted state, the
 hygiene of epochs, slots, delegates and keys, and the lineage of device approvals.
 */
module ChainInvariants {
  import opened Wrappers
  import opened Envelopes
  import opened DeviceChain
  import opened ChainHistory

  // ----- how one link changes each part -----

  /** Identity and origin of a device never change; a revoked one stays revoked, since when is recorded once. */
  ghost predicate DeviceKept(d: DeviceState, d': DeviceState, at: nat) {
    && d'.device == d.device.(name := d'.device.name)
    && d'.how == d.how && d'.approvedBy == d.approvedBy && d'.slot == d.slot && d'.addedSeq == d.addedSeq
    && (d'.active ==> d.active)
    && (d'.active == d.active ==> d'.revokedSeq == d.revokedSeq)
    && (d'.active != d.active ==> d'.revokedSeq == at)
  }

  /** A device joins active, under a new id and new keys, by a method the state before allows. */
  ghost predicate DeviceJoins(t: Trust, id: string, d: DeviceState, at: nat, now: Time) {
    && id !in t.devices
    && d.device.id == id && d.active && d.addedSeq == at && d.revokedSeq == 0
    && !KeysReused(t, d.device)
    && MethodAllowed(t, d.how, d.approvedBy, d.slot, now)
  }

  ghost predicate DevicesEvolve(t: Trust, t': Trust, at: nat, now: Time) {
    && (forall id | id in t.devices :: id in t'.devices && DeviceKept(t.devices[id], t'.devices[id], at))
    && (forall id | id in t'.devices && id !in t.devices ::
          t'.devices.Keys == t.devices.Keys + {id} && DeviceJoins(t, id, t'.devices[id], at, now))
  }

  ghost predicate DelegateKept(d: DelegateState, d': DelegateState, at: nat) {
    && d'.delegate == d.delegate && d'.addedSeq == d.addedSeq
    && (d'.active ==> d.active)
    && (d'.active == d.active ==> d'.removedSeq == d.removedSeq)
    && (d'.active != d.active ==> d'.removedSeq == at)
  }

  ghost predicate DelegateJoins(t: Trust, id: string, d: DelegateState, at: nat) {
    && id !in t.delegates
    && d.delegate.id == id && d.active && d.addedSeq == at && d.removedSeq == 0
    && !DelegateTaken(t, d.delegate)
    && |ActiveDelegateIds(t)| < MAX_DELEGATES
  }

  ghost predicate DelegatesEvolve(t: Trust, t': Trust, at: nat) {
    && (forall id | id in t.delegates :: id in t'.delegates && DelegateKept(t.delegates[id], t'.delegates[id], at))
    && (forall id | id in t'.delegates && id !in t.delegates ::
          t'.delegates == t.delegates[id := t'.delegates[id]] && DelegateJoins(t, id, t'.delegates[id], at))
    // A new user key drops them all.
    && (t'.version != t.version ==> forall id | id in t'.delegates :: !t'.delegates[id].active)
  }

  ghost predicate SecurityKeyKept(k: SecurityKeyState, k': SecurityKeyState, at: nat) {
    && k'.key == k.key && k'.addedSeq == k.addedSeq && k'.added == k.added
    && (k'.active ==> k.active)
    && (k'.active == k.active ==> k'.removedSeq == k.removedSeq)
    && (k'.active != k.active ==> k'.removedSeq == at)
  }

  ghost predicate SecurityKeyJoins(t: Trust, id: string, k: SecurityKeyState, at: nat) {
    && id !in t.securityKeys
    && k.key.id == id && k.active && k.addedSeq == at && k.removedSeq == 0
    && !RecipientReused(t, k.key)
    && |ActiveSecurityKeyIds(t)| < MAX_SECURITY_KEYS
  }

  ghost predicate SecurityKeysEvolve(t: Trust, t': Trust, at: nat) {
    && (forall id | id in t.securityKeys ::
          id in t'.securityKeys && SecurityKeyKept(t.securityKeys[id], t'.securityKeys[id], at))
    && (forall id | id in t'.securityKeys && id !in t.securityKeys ::
          t'.securityKeys == t.securityKeys[id := t'.securityKeys[id]] && SecurityKeyJoins(t, id, t'.securityKeys[id], at))
  }

  ghost predicate SlotsEvolve(t: Trust, t': Trust) {
    && (forall id | id in t.slots :: id in t'.slots && t'.slots[id].(active := t.slots[id].active) == t.slots[id]
          && (t'.slots[id].active ==> t.slots[id].active))
    && (forall id | id in t'.slots && id !in t.slots :: t'.slots[id].version == t.version == t'.version)
    && (t'.version != t.version ==> forall id | id in t'.slots :: !t'.slots[id].active)
  }

  /** The user key stays, or its next version starts at this link. */
  ghost predicate EpochsEvolve(t: Trust, t': Trust, at: nat, now: Time) {
    || (t'.epochs == t.epochs && t'.version == t.version && t'.encPub == t.encPub && t'.signPub == t.signPub)
    || (t'.version == t.version + 1
        && t'.epochs == t.epochs + [KeyEpoch(t'.version, t'.encPub, t'.signPub, at, now)]
        && (at > 1 ==> t'.encPub != t.encPub && t'.signPub != t.signPub))
  }

  /** Every accepted link obeys all of them. */
  ghost predicate Evolves(t: Trust, t': Trust, at: nat, now: Time) {
    && DevicesEvolve(t, t', at, now)
    && SlotsEvolve(t, t')
    && DelegatesEvolve(t, t', at)
    && SecurityKeysEvolve(t, t', at)
    && EpochsEvolve(t, t', at, now)
  }

  lemma DeviceAddEvolves(w: Ideal, user: string, t: Trust, l: Link)
    requires ApplyDeviceAdd(w, user, t, l).Ok?
    ensures Evolves(t, ApplyDeviceAdd(w, user, t, l).value, l.seqNo, l.ctime)
  {
    hide VerifyProof, DeviceOk, KeysReused;
    var t' := ApplyDeviceAdd(w, user, t, l).value;
    var d := l.body.device;
    assert t'.devices.Keys == t.devices.Keys + {d.id};
    assert DeviceJoins(t, d.id, t'.devices[d.id], l.seqNo, l.ctime);
  }

  lemma DeviceRevokeEvolves(t: Trust, l: Link)
    requires ApplyDeviceRevoke(t, l).Ok?
    ensures Evolves(t, ApplyDeviceRevoke(t, l).value, l.seqNo, l.ctime)
  {
  }

  lemma DeviceRenameEvolves(w: Ideal, t: Trust, l: Link)
    requires ApplyDeviceRename(w, t, l).Ok?
    ensures Evolves(t, ApplyDeviceRename(w, t, l).value, l.seqNo, l.ctime)
  {
  }

  lemma SlotAddEvolves(w: Ideal, t: Trust, l: Link)
    requires ApplySlotAdd(w, t, l).Ok?
    ensures Evolves(t, ApplySlotAdd(w, t, l).value, l.seqNo, l.ctime)
  {
  }

  lemma SlotRemoveEvolves(t: Trust, l: Link)
    requires ApplySlotRemove(t, l).Ok?
    ensures Evolves(t, ApplySlotRemove(t, l).value, l.seqNo, l.ctime)
  {
  }

  lemma DelegateAddEvolves(w: Ideal, t: Trust, l: Link)
    requires ApplyDelegateAdd(w, t, l).Ok?
    ensures Evolves(t, ApplyDelegateAdd(w, t, l).value, l.seqNo, l.ctime)
  {
    hide DelegateOk, DelegateTaken, ActiveDelegateIds;
    var t' := ApplyDelegateAdd(w, t, l).value;
    assert DelegateJoins(t, l.body.delegate.id, t'.delegates[l.body.delegate.id], l.seqNo);
  }

  lemma DelegateRemoveEvolves(t: Trust, l: Link)
    requires ApplyDelegateRemove(t, l).Ok?
    ensures Evolves(t, ApplyDelegateRemove(t, l).value, l.seqNo, l.ctime)
  {
    hide ActiveDelegateIds;
  }

  lemma SecurityKeyAddEvolves(w: Ideal, t: Trust, l: Link)
    requires ApplySecurityKeyAdd(w, t, l).Ok?
    ensures Evolves(t, ApplySecurityKeyAdd(w, t, l).value, l.seqNo, l.ctime)
  {
    hide RecipientReused, ActiveSecurityKeyIds;
    var t' := ApplySecurityKeyAdd(w, t, l).value;
    assert SecurityKeyJoins(t, l.body.securityKey.id, t'.securityKeys[l.body.securityKey.id], l.seqNo);
  }

  lemma SecurityKeyRemoveEvolves(t: Trust, l: Link)
    requires ApplySecurityKeyRemove(t, l).Ok?
    ensures Evolves(t, ApplySecurityKeyRemove(t, l).value, l.seqNo, l.ctime)
  {
    hide ActiveSecurityKeyIds;
  }

  lemma RotateEvolves(w: Ideal, t: Trust, e: Envelope, l: Link)
    requires ApplyRotate(w, t, e, l).Ok?
    ensures Evolves(t, ApplyRotate(w, t, e, l).value, l.seqNo, l.ctime)
  {
    hide Require, ParseKey, KeepListOk;
  }

  /** One link, whatever its type, changes the trusted state only in these ways. */
  lemma ChangeEvolves(w: Ideal, user: string, t: Trust, e: Envelope, l: Link)
    requires Change(w, user, t, e, l).Ok?
    requires l.seqNo == 1 ==> t == NO_TRUST
    ensures Evolves(t, Change(w, user, t, e, l).value, l.seqNo, l.ctime)
  {
    hide ApplyDeviceAdd, ApplyDeviceRevoke, ApplyDeviceRename, ApplySlotAdd, ApplySlotRemove, ApplyDelegateAdd,
      ApplyDelegateRemove, ApplySecurityKeyAdd, ApplySecurityKeyRemove, ApplyRotate, ParseKey, Require, Evolves;
    if l.seqNo == 1 {
      InitEvolves(w, t, e, l);
    } else {
      match l.typ
      case TypeRotate => RotateEvolves(w, t, e, l);
      case TypeDeviceAdd => DeviceAddEvolves(w, user, t, l);
      case TypeDeviceRevoke => DeviceRevokeEvolves(t, l);
      case TypeDeviceRename => DeviceRenameEvolves(w, t, l);
      case TypeSlotAdd => SlotAddEvolves(w, t, l);
      case TypeSlotRemove => SlotRemoveEvolves(t, l);
      case TypeDelegateAdd => DelegateAddEvolves(w, t, l);
      case TypeDelegateRemove => DelegateRemoveEvolves(t, l);
      case TypeSecurityKeyAdd => SecurityKeyAddEvolves(w, t, l);
      case TypeSecurityKeyRemove => SecurityKeyRemoveEvolves(t, l);
      case _ =>
    }
  }

  lemma InitEvolves(w: Ideal, t: Trust, e: Envelope, l: Link)
    requires ApplyInit(w, t, e, l).Ok? && t == NO_TRUST && l.seqNo == 1
    ensures Evolves(t, ApplyInit(w, t, e, l).value, 1, l.ctime)
  {
    hide Require, ParseKey;
  }

  // ----- hygiene -----

  /** Versions are 1..n, positions strictly increase, and the last epoch is the current key. */
  ghost predicate EpochsOk(t: Trust, n: nat) {
    && |t.epochs| == t.version
    && (n > 0 ==> t.version > 0)
    && (forall i | 0 <= i < |t.epochs| :: t.epochs[i].version == i + 1 && 1 <= t.epochs[i].seqNo <= n)
    && (forall i, j | 0 <= i < j < |t.epochs| :: t.epochs[i].seqNo < t.epochs[j].seqNo)
    && (t.version > 0 ==>
          var last := t.epochs[t.version - 1]; last.encPub == t.encPub && last.signPub == t.signPub)
  }

  /** Every active slot names the current key version. */
  ghost predicate SlotsOk(t: Trust) {
    forall id | id in t.slots && t.slots[id].active :: t.slots[id].version == t.version
  }

  function LastRotation(t: Trust): nat {
    if t.epochs == [] then 0 else t.epochs[|t.epochs| - 1].seqNo
  }

  /**
   Every active delegate was added after the latest rotation; at most MAX_DELEGATES are active, with at
   most one server and distinct passkey credentials.
   */
  ghost predicate DelegatesOk(t: Trust, n: nat) {
    && (forall id | id in t.delegates :: DelegateOkAt(t, t.delegates[id], id, n))
    && |ActiveDelegateIds(t)| <= MAX_DELEGATES
    && (forall a, b | a in ActiveDelegateIds(t) && b in ActiveDelegateIds(t) && a != b ::
          DelegatesApart(t.delegates[a].delegate, t.delegates[b].delegate))
  }

  ghost predicate DelegateOkAt(t: Trust, d: DelegateState, id: string, n: nat) {
    && d.delegate.id == id && 1 <= d.addedSeq <= n
    && (d.active <==> d.removedSeq == 0)
    && (!d.active ==> d.addedSeq < d.removedSeq <= n)
    && (d.active ==> LastRotation(t) < d.addedSeq)
  }

  predicate DelegatesApart(a: Delegate, b: Delegate) {
    && !(a.kind == Server && b.kind == Server)
    && (a.kind == Passkey && b.kind == Passkey ==> a.credential != b.credential)
  }

  /** Ids name their keys, no recipient appears twice, and at most MAX_SECURITY_KEYS are active. */
  ghost predicate SecurityKeysOk(t: Trust) {
    && (forall id | id in t.securityKeys :: t.securityKeys[id].key.id == id)
    && (forall a, b | a in t.securityKeys && b in t.securityKeys && a != b ::
          t.securityKeys[a].key.recipient != t.securityKeys[b].key.recipient)
    && |ActiveSecurityKeyIds(t)| <= MAX_SECURITY_KEYS
  }

  /** A device names itself, has keys of its own, and says when it was revoked; its approver came before it. */
  ghost predicate DeviceOkAt(t: Trust, id: string, n: nat)
    requires id in t.devices
  {
    var d := t.devices[id];
    && d.device.id == id && 1 <= d.addedSeq <= n
    && (d.active <==> d.revokedSeq == 0)
    && (!d.active ==> d.addedSeq < d.revokedSeq <= n)
    && (d.how == Approval ==> d.approvedBy in t.devices && t.devices[d.approvedBy].addedSeq < d.addedSeq)
    && (d.how != Approval ==> d.approvedBy == "")
    && !d.how.OtherMethod?
  }

  ghost predicate DevicesOk(t: Trust, n: nat) {
    && (forall id | id in t.devices :: DeviceOkAt(t, id, n))
    && (forall a, b | a in t.devices && b in t.devices && a != b ::
          && t.devices[a].device.signPub != t.devices[b].device.signPub
          && t.devices[a].device.encPub != t.devices[b].device.encPub
          && t.devices[a].addedSeq != t.devices[b].addedSeq)
  }

  ghost predicate Hygiene(t: Trust, n: nat) {
    EpochsOk(t, n) && SlotsOk(t) && DelegatesOk(t, n) && SecurityKeysOk(t) && DevicesOk(t, n)
  }

  lemma EpochsKept(t: Trust, t': Trust, n: nat, now: Time)
    requires EpochsOk(t, n) && EpochsEvolve(t, t', n + 1, now)
    requires n == 0 ==> t'.version > 0
    ensures EpochsOk(t', n + 1)
  {
  }

  lemma SlotsKept(t: Trust, t': Trust)
    requires SlotsOk(t) && SlotsEvolve(t, t')
    ensures SlotsOk(t')
  {
  }

  lemma DelegatesKept(t: Trust, t': Trust, n: nat, now: Time)
    requires DelegatesOk(t, n) && EpochsOk(t, n)
    requires DelegatesEvolve(t, t', n + 1) && EpochsEvolve(t, t', n + 1, now)
    ensures DelegatesOk(t', n + 1)
  {
    forall id | id in t'.delegates ensures DelegateOkAt(t', t'.delegates[id], id, n + 1) {
      DelegateRecordKept(t, t', n, now, id);
    }
    ActiveDelegatesBounded(t, t', n);
    forall a, b | a in ActiveDelegateIds(t') && b in ActiveDelegateIds(t') && a != b
      ensures DelegatesApart(t'.delegates[a].delegate, t'.delegates[b].delegate)
    {
      DelegatePairKept(t, t', n, a, b);
    }
  }

  lemma DelegateRecordKept(t: Trust, t': Trust, n: nat, now: Time, id: string)
    requires DelegatesOk(t, n) && EpochsOk(t, n)
    requires DelegatesEvolve(t, t', n + 1) && EpochsEvolve(t, t', n + 1, now)
    requires id in t'.delegates
    ensures DelegateOkAt(t', t'.delegates[id], id, n + 1)
  {
    hide DelegateTaken, ActiveDelegateIds;
    if id in t.delegates {
      assert DelegateOkAt(t, t.delegates[id], id, n);
      assert DelegateKept(t.delegates[id], t'.delegates[id], n + 1);
    } else {
      assert DelegateJoins(t, id, t'.delegates[id], n + 1);
    }
  }

  lemma ActiveDelegatesBounded(t: Trust, t': Trust, n: nat)
    requires |ActiveDelegateIds(t)| <= MAX_DELEGATES && DelegatesEvolve(t, t', n + 1)
    ensures |ActiveDelegateIds(t')| <= MAX_DELEGATES
  {
    hide DelegateTaken;
    if id :| id in t'.delegates && id !in t.delegates {
      assert DelegateJoins(t, id, t'.delegates[id], n + 1);
      assert ActiveDelegateIds(t') == ActiveDelegateIds(t) + {id};
    } else {
      assert forall id | id in t.delegates :: DelegateKept(t.delegates[id], t'.delegates[id], n + 1);
      SubsetSize(ActiveDelegateIds(t'), ActiveDelegateIds(t));
    }
  }

  lemma DelegatePairKept(t: Trust, t': Trust, n: nat, a: string, b: string)
    requires DelegatesOk(t, n) && DelegatesEvolve(t, t', n + 1)
    requires a in ActiveDelegateIds(t') && b in ActiveDelegateIds(t') && a != b
    ensures DelegatesApart(t'.delegates[a].delegate, t'.delegates[b].delegate)
  {
    if a in t.delegates && b in t.delegates {
      assert DelegateKept(t.delegates[a], t'.delegates[a], n + 1) && DelegateKept(t.delegates[b], t'.delegates[b], n + 1);
      assert DelegatesApart(t.delegates[a].delegate, t.delegates[b].delegate);
    } else if a in t.delegates {
      NewDelegateApart(t, t', n, a, b);
    } else {
      NewDelegateApart(t, t', n, b, a);
    }
  }

  lemma NewDelegateApart(t: Trust, t': Trust, n: nat, a: string, b: string)
    requires DelegatesEvolve(t, t', n + 1)
    requires a in ActiveDelegateIds(t') && b in ActiveDelegateIds(t') && a != b && b !in t.delegates
    ensures a in t.delegates && DelegatesApart(t'.delegates[a].delegate, t'.delegates[b].delegate)
  {
    assert DelegateJoins(t, b, t'.delegates[b], n + 1);
    assert t'.delegates[a] == t.delegates[a];
    assert a in ActiveDelegateIds(t);
    assert !Duplicates(t.delegates[a].delegate, t'.delegates[b].delegate);
  }

  lemma {:induction false} SubsetSize(a: set<string>, b: set<string>)
    requires a <= b
    ensures |a| <= |b|
  {
    if x :| x in a {
      SubsetSize(a - {x}, b - {x});
    }
  }

  lemma SecurityKeysKept(t: Trust, t': Trust, n: nat)
    requires SecurityKeysOk(t) && SecurityKeysEvolve(t, t', n + 1)
    ensures SecurityKeysOk(t')
  {
    if id :| id in t'.securityKeys && id !in t.securityKeys {
      SecurityKeyAdded(t, t', n, id);
    } else {
      SecurityKeysStay(t, t', n);
    }
  }

  lemma SecurityKeyAdded(t: Trust, t': Trust, n: nat, id: string)
    requires SecurityKeysOk(t) && id !in t.securityKeys && id in t'.securityKeys
    requires t'.securityKeys == t.securityKeys[id := t'.securityKeys[id]] && SecurityKeyJoins(t, id, t'.securityKeys[id], n + 1)
    ensures SecurityKeysOk(t')
  {
    assert ActiveSecurityKeyIds(t') == ActiveSecurityKeyIds(t) + {id};
  }

  lemma SecurityKeysStay(t: Trust, t': Trust, n: nat)
    requires SecurityKeysOk(t) && t'.securityKeys.Keys == t.securityKeys.Keys
    requires forall id | id in t.securityKeys :: SecurityKeyKept(t.securityKeys[id], t'.securityKeys[id], n + 1)
    ensures SecurityKeysOk(t')
  {
    SubsetSize(ActiveSecurityKeyIds(t'), ActiveSecurityKeyIds(t));
  }

  lemma DevicesKept(t: Trust, t': Trust, n: nat, now: Time)
    requires DevicesOk(t, n) && DevicesEvolve(t, t', n + 1, now)
    ensures DevicesOk(t', n + 1)
  {
    forall id | id in t'.devices ensures DeviceOkAt(t', id, n + 1) {
      if id in t.devices {
        assert DeviceOkAt(t, id, n) && DeviceKept(t.devices[id], t'.devices[id], n + 1);
        if t.devices[id].how == Approval {
          var approver := t.devices[id].approvedBy;
          assert DeviceKept(t.devices[approver], t'.devices[approver], n + 1);
        }
      } else {
        assert DeviceJoins(t, id, t'.devices[id], n + 1, now);
        if t'.devices[id].how == Approval {
          var approver := t'.devices[id].approvedBy;
          assert DeviceOkAt(t, approver, n) && DeviceKept(t.devices[approver], t'.devices[approver], n + 1);
        }
      }
    }
    forall a, b | a in t'.devices && b in t'.devices && a != b
      ensures t'.devices[a].device.signPub != t'.devices[b].device.signPub
      ensures t'.devices[a].device.encPub != t'.devices[b].device.encPub
      ensures t'.devices[a].addedSeq != t'.devices[b].addedSeq
    {
      DevicePairKept(t, t', n, now, a, b);
      DevicePairKept(t, t', n, now, b, a);
    }
  }

  lemma DevicePairKept(t: Trust, t': Trust, n: nat, now: Time, a: string, b: string)
    requires DevicesOk(t, n) && DevicesEvolve(t, t', n + 1, now)
    requires a in t'.devices && b in t'.devices && a != b
    ensures a in t.devices ==>
      && t'.devices[a].device.signPub != t'.devices[b].device.signPub
      && t'.devices[a].device.encPub != t'.devices[b].device.encPub
      && t'.devices[a].addedSeq != t'.devices[b].addedSeq
    ensures a in t.devices || b in t.devices
  {
    if a in t.devices {
      assert DeviceOkAt(t, a, n) && DeviceKept(t.devices[a], t'.devices[a], n + 1);
      if b in t.devices {
        assert DeviceKept(t.devices[b], t'.devices[b], n + 1);
      } else {
        assert DeviceJoins(t, b, t'.devices[b], n + 1, now);
      }
    }
  }

  lemma HygieneKept(t: Trust, t': Trust, n: nat, now: Time)
    requires Hygiene(t, n) && Evolves(t, t', n + 1, now)
    requires n == 0 ==> t'.version > 0
    ensures Hygiene(t', n + 1)
  {
    hide EpochsOk, SlotsOk, DelegatesOk, SecurityKeysOk, DevicesOk, EpochsEvolve, SlotsEvolve, DelegatesEvolve,
      SecurityKeysEvolve, DevicesEvolve;
    EpochsKept(t, t', n, now);
    SlotsKept(t, t');
    DelegatesKept(t, t', n, now);
    SecurityKeysKept(t, t', n);
    DevicesKept(t, t', n, now);
  }

  /** The last link of an accepted chain evolves the state the rest of it reached. */
  lemma LastEvolves(w: Ideal, user: string, links: seq<Envelope>)
    requires Accepts(w, user, links) && links != []
    ensures Accepts(w, user, links[..|links| - 1])
    ensures var s, n := StateOf(w, user, links[..|links| - 1]), StateOf(w, user, links);
      && Evolves(s.trust, n.trust, |links|, n.lastTime)
      && (|links| == 1 ==> s.trust == NO_TRUST && n.trust.version > 0)
  {
    hide Step, Change, Evolves;
    LastStep(w, user, links);
    var s, e := StateOf(w, user, links[..|links| - 1]), links[|links| - 1];
    StepRecords(w, s, e);
    ReplayRecord(w, user, links[..|links| - 1]);
    var l := DecodeNext(w, s, e).value;
    if |links| == 1 {
      FirstLinkInit(w, user, e, l);
    }
    ChangeEvolves(w, user, s.trust, e, l);
  }

  lemma FirstLinkInit(w: Ideal, user: string, e: Envelope, l: Link)
    requires l.seqNo == 1 && Change(w, user, NO_TRUST, e, l).Ok?
    ensures Change(w, user, NO_TRUST, e, l).value.version == 1
  {
    hide Require, ParseKey;
  }

  /** Hygiene on every reachable chain. */
  lemma {:induction false} ReachableHygiene(w: Ideal, user: string, links: seq<Envelope>)
    requires Accepts(w, user, links)
    ensures Hygiene(StateOf(w, user, links).trust, |links|)
  {
    hide Step, Hygiene, Evolves;
    if links == [] {
      NoTrustHygiene();
    } else {
      LastEvolves(w, user, links);
      ReachableHygiene(w, user, links[..|links| - 1]);
      var s, n := StateOf(w, user, links[..|links| - 1]), StateOf(w, user, links);
      HygieneKept(s.trust, n.trust, |links| - 1, n.lastTime);
    }
  }

  lemma NoTrustHygiene()
    ensures Hygiene(NO_TRUST, 0)
  {
  }

  // ----- lineage -----

  lemma ApproverBefore(t: Trust, id: string, n: nat)
    requires DevicesOk(t, n) && id in t.devices
    ensures var d := t.devices[id];
      if d.how == Approval then d.approvedBy in t.devices && t.devices[d.approvedBy].addedSeq < d.addedSeq
      else d.how in {First, Recovery, SshAgent}
  {
    assert DeviceOkAt(t, id, n);
  }

  /** A path along approved_by: each approver was added earlier, and the last device needed none. */
  ghost predicate Leads(t: Trust, path: seq<string>) {
    && path != []
    && (forall i | 0 <= i < |path| :: path[i] in t.devices)
    && (forall i | 0 <= i < |path| - 1 ::
          && t.devices[path[i]].how == Approval && t.devices[path[i]].approvedBy == path[i + 1]
          && t.devices[path[i + 1]].addedSeq < t.devices[path[i]].addedSeq)
    && t.devices[path[|path| - 1]].how in {First, Recovery, SshAgent}
  }

  lemma LeadsOn(t: Trust, id: string, path: seq<string>)
    requires Leads(t, path) && id in t.devices
    requires t.devices[id].how == Approval && t.devices[id].approvedBy == path[0]
    requires t.devices[path[0]].addedSeq < t.devices[id].addedSeq
    ensures Leads(t, [id] + path)
  {
    var longer := [id] + path;
    forall i | 0 <= i < |longer| ensures longer[i] in t.devices {
    }
    forall i | 0 <= i < |longer| - 1 ensures t.devices[longer[i]].how == Approval && t.devices[longer[i]].approvedBy == longer[i + 1]
      && t.devices[longer[i + 1]].addedSeq < t.devices[longer[i]].addedSeq
    {
      if i > 0 { assert longer[i] == path[i - 1] && longer[i + 1] == path[i]; }
    }
    assert longer[|longer| - 1] == path[|path| - 1];
  }

  /** From every device, following approved_by ends at one added as first, by recovery or by an SSH agent. */
  lemma {:induction false} ApprovalPath(t: Trust, id: string, n: nat) returns (path: seq<string>)
    requires DevicesOk(t, n) && id in t.devices
    ensures Leads(t, path) && path[0] == id
    decreases t.devices[id].addedSeq
  {
    hide DevicesOk;
    ApproverBefore(t, id, n);
    path := [id];
    if t.devices[id].how == Approval {
      var rest := ApprovalPath(t, t.devices[id].approvedBy, n);
      LeadsOn(t, id, rest);
      path := [id] + rest;
    }
  }

  /** The state an accepted chain had after its first n links. */
  function TrustAfter(w: Ideal, user: string, links: seq<Envelope>, n: nat): Trust
    requires n <= |links| && Accepts(w, user, links[..n])
  {
    StateOf(w, user, links[..n]).trust
  }

  /** A device was active after n links exactly when added by then and not yet revoked: once revoked, never active again. */
  lemma {:induction false} DeviceHistory(w: Ideal, user: string, links: seq<Envelope>, id: string, n: nat)
    requires Accepts(w, user, links) && n <= |links|
    ensures Accepts(w, user, links[..n])
    ensures ActiveDevice(TrustAfter(w, user, links, n), id) <==> DeviceActiveBy(StateOf(w, user, links).trust, id, n)
    decreases |links|
  {
    hide Step, Replay, Evolves, Hygiene;
    PrefixAccepted(w, user, links, n);
    ReachableHygiene(w, user, links);
    var t := StateOf(w, user, links).trust;
    DeviceRecord(t, |links|, id);
    if n == |links| {
      assert links[..n] == links;
    } else {
      var front := links[..|links| - 1];
      LastEvolves(w, user, links);
      DeviceHistory(w, user, front, id, n);
      assert front[..n] == links[..n];
      ReachableHygiene(w, user, front);
      DeviceHistoryCarries(StateOf(w, user, front).trust, t, |links| - 1, StateOf(w, user, links).lastTime, id, n);
    }
  }

  predicate DeviceActiveBy(t: Trust, id: string, n: nat) {
    id in t.devices && t.devices[id].addedSeq <= n && (t.devices[id].revokedSeq == 0 || n < t.devices[id].revokedSeq)
  }

  lemma DeviceHistoryCarries(t: Trust, t': Trust, m: nat, now: Time, id: string, n: nat)
    requires Evolves(t, t', m + 1, now) && Hygiene(t, m) && n <= m
    ensures DeviceActiveBy(t', id, n) <==> DeviceActiveBy(t, id, n)
  {
    hide Evolves, Hygiene, MethodAllowed, KeysReused;
    DeviceStays(t, t', m + 1, now, id);
    DeviceRecord(t, m, id);
  }

  lemma DeviceRecord(t: Trust, m: nat, id: string)
    requires Hygiene(t, m)
    ensures id in t.devices ==> DeviceOkAt(t, id, m)
  {
  }

  lemma DeviceStays(t: Trust, t': Trust, at: nat, now: Time, id: string)
    requires Evolves(t, t', at, now)
    ensures id in t.devices ==> id in t'.devices && DeviceKept(t.devices[id], t'.devices[id], at)
    ensures id in t'.devices && id !in t.devices ==> DeviceJoins(t, id, t'.devices[id], at, now)
  {
  }

  /** Whoever holds an id keeps it: same keys, origin and place, whatever happens to it later. */
  ghost predicate IdentitiesKept(t: Trust, t': Trust) {
    && (forall id | id in t.devices ::
          && id in t'.devices && t'.devices[id].addedSeq == t.devices[id].addedSeq
          && t'.devices[id].device == t.devices[id].device.(name := t'.devices[id].device.name)
          && (t'.devices[id].active ==> t.devices[id].active))
    && (forall id | id in t.delegates :: id in t'.delegates && t'.delegates[id].delegate == t.delegates[id].delegate)
    && (forall id | id in t.securityKeys ::
          && id in t'.securityKeys && t'.securityKeys[id].key == t.securityKeys[id].key
          && (t'.securityKeys[id].active ==> t.securityKeys[id].active))
  }

  /**
   Ids and keys are never reused: whatever a chain once recorded under an id stays recorded under it,
   so the distinctness that hygiene promises covers everything removed or revoked as well.
   */
  lemma {:induction false} IdentitiesForever(w: Ideal, user: string, links: seq<Envelope>, n: nat)
    requires Accepts(w, user, links) && n <= |links|
    ensures Accepts(w, user, links[..n])
    ensures IdentitiesKept(TrustAfter(w, user, links, n), StateOf(w, user, links).trust)
    ensures Hygiene(StateOf(w, user, links).trust, |links|)
    decreases |links|
  {
    hide Step, Replay, Evolves, Hygiene, IdentitiesKept;
    PrefixAccepted(w, user, links, n);
    ReachableHygiene(w, user, links);
    var t := StateOf(w, user, links).trust;
    if n == |links| {
      assert links[..n] == links;
      IdentitiesRefl(t);
    } else {
      var front := links[..|links| - 1];
      LastEvolves(w, user, links);
      IdentitiesForever(w, user, front, n);
      assert front[..n] == links[..n];
      var s := StateOf(w, user, front).trust;
      IdentitiesStep(s, t, |links|, StateOf(w, user, links).lastTime);
      IdentitiesTrans(TrustAfter(w, user, links, n), s, t);
    }
  }

  lemma IdentitiesRefl(t: Trust)
    ensures IdentitiesKept(t, t)
  {
  }

  lemma IdentitiesStep(t: Trust, t': Trust, at: nat, now: Time)
    requires Evolves(t, t', at, now)
    ensures IdentitiesKept(t, t')
  {
    forall id | id in t.devices ensures DeviceKept(t.devices[id], t'.devices[id], at) {
    }
    forall id | id in t.delegates ensures DelegateKept(t.delegates[id], t'.delegates[id], at) {
    }
    forall id | id in t.securityKeys ensures SecurityKeyKept(t.securityKeys[id], t'.securityKeys[id], at) {
    }
  }

  lemma IdentitiesTrans(a: Trust, b: Trust, c: Trust)
    requires IdentitiesKept(a, b) && IdentitiesKept(b, c)
    ensures IdentitiesKept(a, c)
  {
  }

  /** Whoever approved a device was active just before it joined; an agent slot was usable at the time of the link. */
  lemma {:induction false} ApproverWasActive(w: Ideal, user: string, links: seq<Envelope>, id: string)
    requires Accepts(w, user, links) && id in StateOf(w, user, links).trust.devices
    ensures var d := StateOf(w, user, links).trust.devices[id];
      && 1 <= d.addedSeq <= |links| && Accepts(w, user, links[..d.addedSeq - 1]) && Accepts(w, user, links[..d.addedSeq])
      && var before := TrustAfter(w, user, links, d.addedSeq - 1);
      && id !in before.devices
      && MethodAllowed(before, d.how, d.approvedBy, d.slot, StateOf(w, user, links[..d.addedSeq]).lastTime)
    decreases |links|
  {
    hide Step, Replay, Evolves, MethodAllowed;
    ReachableHygiene(w, user, links);
    var n := StateOf(w, user, links);
    assert DeviceOkAt(n.trust, id, |links|);
    var d := n.trust.devices[id];
    PrefixAccepted(w, user, links, d.addedSeq);
    PrefixAccepted(w, user, links, d.addedSeq - 1);
    if links == [] {
      NoLinksNoTrust(w, user);
    } else {
      var front := links[..|links| - 1];
      LastEvolves(w, user, links);
      var s := StateOf(w, user, front);
      DeviceStays(s.trust, n.trust, |links|, n.lastTime, id);
      if id in s.trust.devices {
        ApproverWasActive(w, user, front, id);
        assert front[..d.addedSeq - 1] == links[..d.addedSeq - 1] && front[..d.addedSeq] == links[..d.addedSeq];
      } else {
        assert links[..d.addedSeq] == links;
      }
    }
  }

  lemma NoLinksNoTrust(w: Ideal, user: string)
    ensures Replay(w, user, []) == Ok(New(user))
  {
  }

  /** The fast lookup agrees with replay: EpochAt gives the version and keys current after n links. */
  lemma {:induction false} EpochAtIsReplay(w: Ideal, user: string, links: seq<Envelope>, n: nat)
    requires Accepts(w, user, links)
    ensures EpochAt(StateOf(w, user, links), n).Some? <==> 1 <= n <= |links|
    ensures 1 <= n <= |links| ==>
      && Accepts(w, user, links[..n])
      && var t, ep := TrustAfter(w, user, links, n), EpochAt(StateOf(w, user, links), n).value;
         ep.version == t.version && ep.encPub == t.encPub && ep.signPub == t.signPub
    decreases |links|
  {
    hide Step, Replay, Evolves;
    ReplayRecord(w, user, links);
    if 1 <= n <= |links| {
      PrefixAccepted(w, user, links, n);
      ReachableHygiene(w, user, links);
      var s := StateOf(w, user, links);
      if n == |links| {
        assert links[..n] == links;
      } else {
        var front := links[..|links| - 1];
        LastEvolves(w, user, links);
        EpochAtIsReplay(w, user, front, n);
        ReplayRecord(w, user, front);
        assert front[..n] == links[..n];
        EpochsStay(StateOf(w, user, front).trust, s.trust, |links|, s.lastTime, n);
      }
    }
  }

  lemma EpochsStay(t: Trust, t': Trust, at: nat, now: Time, n: nat)
    requires Evolves(t, t', at, now) && n < at
    ensures NewestBy(t'.epochs, n) == NewestBy(t.epochs, n)
  {
    if t'.epochs != t.epochs {
      assert t'.epochs[..|t'.epochs| - 1] == t.epochs;
    }
  }

  /** The fast lookup agrees with replay: DelegateAt finds a delegate exactly when it was active after n links. */
  lemma {:induction false} DelegateAtIsReplay(w: Ideal, user: string, links: seq<Envelope>, id: string, n: nat)
    requires Accepts(w, user, links) && 1 <= n <= |links|
    ensures Accepts(w, user, links[..n])
    ensures DelegateAt(StateOf(w, user, links), id, n).Some? <==> ActiveDelegate(TrustAfter(w, user, links, n), id)
    ensures DelegateAt(StateOf(w, user, links), id, n).Some? ==>
      DelegateAt(StateOf(w, user, links), id, n).value.delegate == TrustAfter(w, user, links, n).delegates[id].delegate
    decreases |links|
  {
    hide Step, Replay, Evolves, Hygiene;
    PrefixAccepted(w, user, links, n);
    ReachableHygiene(w, user, links);
    ReplayRecord(w, user, links);
    var s := StateOf(w, user, links);
    DelegateRecord(s.trust, |links|, id);
    if n == |links| {
      assert links[..n] == links;
    } else {
      var front := links[..|links| - 1];
      LastEvolves(w, user, links);
      DelegateAtIsReplay(w, user, front, id, n);
      ReachableHygiene(w, user, front);
      ReplayRecord(w, user, front);
      assert front[..n] == links[..n];
      DelegateAtCarries(StateOf(w, user, front), s, id, n);
    }
  }

  lemma DelegateRecord(t: Trust, m: nat, id: string)
    requires Hygiene(t, m)
    ensures id in t.delegates ==> DelegateOkAt(t, t.delegates[id], id, m)
  {
  }

  lemma DelegateAtCarries(s: ChainState, s': ChainState, id: string, n: nat)
    requires s'.seqNo == s.seqNo + 1 && Evolves(s.trust, s'.trust, s'.seqNo, s'.lastTime)
    requires Hygiene(s.trust, s.seqNo) && n <= s.seqNo
    ensures DelegateAt(s', id, n).Some? <==> DelegateAt(s, id, n).Some?
    ensures DelegateAt(s, id, n).Some? ==> DelegateAt(s', id, n).value.delegate == DelegateAt(s, id, n).value.delegate
  {
    hide Evolves, Hygiene, DelegateTaken, ActiveDelegateIds;
    DelegateStays(s.trust, s'.trust, s'.seqNo, s'.lastTime, id);
    DelegateRecord(s.trust, s.seqNo, id);
  }

  lemma DelegateStays(t: Trust, t': Trust, at: nat, now: Time, id: string)
    requires Evolves(t, t', at, now)
    ensures id in t.delegates ==> id in t'.delegates && DelegateKept(t.delegates[id], t'.delegates[id], at)
    ensures id in t'.delegates && id !in t.delegates ==> DelegateJoins(t, id, t'.delegates[id], at)
  {
  }
}
