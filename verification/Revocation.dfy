/**
 Revoking a device: a revoke link, then a rotation that seals a new user key to the devices left.
 The new key reaches exactly those devices, once each, and nothing unlocked by the old one survives.
 */
module Revocation {
  import opened Wrappers
  import opened Envelopes
  import opened DeviceChain
  import opened Ordering
  import Machine

  /** The set of the elements of a sequence. */
  function Elements(ids: seq<string>): set<string> {
    set id | id in ids
  }

  lemma SortedDistinct(ids: seq<string>)
    requires Sorted(ids)
    ensures forall i, j | 0 <= i < j < |ids| :: ids[i] != ids[j]
  {
    forall i, j | 0 <= i < j < |ids| ensures ids[i] != ids[j] {
      BeforeIrreflexive(ids[i]);
    }
  }

  /** The active devices' ids, in order. */
  method ActiveDevices(st: Machine.State) returns (ids: seq<string>)
    ensures Sorted(ids) && Elements(ids) == ActiveDeviceIds(st.TrustView())
  {
    ids := [];
    var todo := st.devices.Keys;
    while todo != {}
      invariant todo <= st.devices.Keys
      invariant Sorted(ids)
      invariant Elements(ids) == set id | id in st.devices.Keys - todo && st.devices[id].active
    {
      var id :| id in todo;
      todo := todo - {id};
      if st.devices[id].active {
        assert id !in Elements(ids);
        ids := Insert(ids, id);
      }
    }
  }

  /** Puts id in its place among sorted ids. */
  function Insert(ids: seq<string>, id: string): (r: seq<string>)
    requires Sorted(ids) && id !in ids
    ensures Sorted(r) && Elements(r) == Elements(ids) + {id}
  {
    if ids == [] then [id]
    else if Before(id, ids[0]) then InsertFirst(ids, id); [id] + ids
    else InsertLater(ids, id); [ids[0]] + Insert(ids[1..], id)
  }

  lemma InsertFirst(ids: seq<string>, id: string)
    requires Sorted(ids) && ids != [] && Before(id, ids[0])
    ensures Sorted([id] + ids) && Elements([id] + ids) == Elements(ids) + {id}
  {
    var r := [id] + ids;
    forall i, j | 0 <= i < j < |r| ensures Before(r[i], r[j]) {
      if i == 0 && j > 1 {
        BeforeTransitive(id, ids[0], ids[j - 1]);
      }
    }
  }

  lemma InsertLater(ids: seq<string>, id: string)
    requires Sorted(ids) && ids != [] && id !in ids && !Before(id, ids[0])
    ensures Sorted(ids[1..]) && Before(ids[0], id)
    ensures Elements(ids) == {ids[0]} + Elements(ids[1..])
    ensures forall tail: seq<string> {:trigger [ids[0]] + tail} ::
      Sorted(tail) && Elements(tail) == Elements(ids[1..]) + {id} ==>
        Sorted([ids[0]] + tail) && Elements([ids[0]] + tail) == Elements(ids) + {id}
  {
    BeforeTotal(id, ids[0]);
    assert ids == [ids[0]] + ids[1..];
    forall tail: seq<string> | Sorted(tail) && Elements(tail) == Elements(ids[1..]) + {id}
      ensures Sorted([ids[0]] + tail) && Elements([ids[0]] + tail) == Elements(ids) + {id}
    {
      var r := [ids[0]] + tail;
      forall i, j | 0 <= i < j < |r| ensures Before(r[i], r[j]) {
        if i == 0 {
          assert tail[j - 1] in Elements(tail);
        }
      }
    }
  }

  // ----- building links -----

  /** The next link after s, of the given type and body. */
  function NewLink(s: ChainState, typ: LinkType, body: Body, now: Time): Link {
    var version := if typ == TypeInit then 1 else if typ == TypeRotate then s.trust.version + 1 else s.trust.version;
    Link(s.seqNo + 1, Head(s), now, typ, s.user, version, body)
  }

  /** Encodes a link and signs it with the given keys. */
  type Sealer = (Link, seq<Key>) -> Envelope

  /** The links built here. */
  predicate Built(l: Link) {
    (l.typ == TypeDeviceRevoke && l.body.DeviceRevokeBody?) || (l.typ == TypeRotate && l.body.RotateBody?)
  }

  /** Decoding what was encoded gives the link back. */
  ghost predicate Encodes(w: Ideal, seal: Sealer) {
    forall l, ks {:trigger seal(l, ks)} :: Built(l) ==> w.parseLink(seal(l, ks).body) == Some(l)
  }

  /** The envelope is within the size limits and carries the signatures it was made with. */
  predicate WellSealed(w: Ideal, e: Envelope, ks: seq<Key>) {
    Require(w.crypto, e, KIND_LINK, ks)
  }

  // ----- what the two links do -----

  lemma RevokeStep(w: Ideal, s: ChainState, e: Envelope, target: string)
    requires Step(w, s, e).Ok? && s.seqNo > 0
    requires DecodeNext(w, s, e).value.typ == TypeDeviceRevoke
    requires DecodeNext(w, s, e).value.body == DeviceRevokeBody(target)
    ensures var n := Step(w, s, e).value;
      && n.trust == s.trust.(devices := n.trust.devices)
      && ActiveDevice(s.trust, target)
      && ActiveDeviceIds(n.trust) == ActiveDeviceIds(s.trust) - {target}
      && n.trust.devices[target] == s.trust.devices[target].(active := false, revokedSeq := n.seqNo)
  {
    hide Require;
    var l := DecodeNext(w, s, e).value;
    assert Change(w, s.user, s.trust, e, l) == ApplyDeviceRevoke(s.trust, l);
  }

  lemma RotateStep(w: Ideal, s: ChainState, e: Envelope)
    requires Step(w, s, e).Ok? && s.seqNo > 0
    requires DecodeNext(w, s, e).value.typ == TypeRotate
    ensures var n, b := Step(w, s, e).value, DecodeNext(w, s, e).value.body;
      && b.RotateBody?
      && ActiveDeviceIds(n.trust) == Elements(b.kept)
      && ActiveDelegateIds(n.trust) == {}
      && (forall id | id in n.trust.slots :: !n.trust.slots[id].active)
      && n.trust.version == s.trust.version + 1
      && ParseKey(b.newEnc) == Some(n.trust.encPub) && ParseKey(b.newSign) == Some(n.trust.signPub)
  {
    hide Require, ParseKey;
    var l := DecodeNext(w, s, e).value;
    assert Change(w, s.user, s.trust, e, l) == ApplyRotate(w, s.trust, e, l);
    assert forall id | id in l.body.kept :: ActiveDevice(s.trust, id);
  }

  /** A sealed copy of a user key version for one device. */
  datatype Box = Box(deviceId: string, version: nat, encPub: Key, signPub: Key)

  /** What one commit sends: links in order and the boxes for the new user key. */
  datatype Commit = Commit(links: seq<Envelope>, boxes: seq<Box>)

  /** The chain is ready for a link at this time: started, and the clock has not gone back a day. */
  predicate Timely(s: ChainState, now: Time) {
    && s.seqNo > 0 && now != 0
    && (s.lastTime != 0 ==> now >= s.lastTime - DAY)
  }

  /**
   Everything rotate may rely on and promises: the state after the rotation, and one box of the new key
   for each device still active, in order.
   */
  ghost predicate Rotated(w: Ideal, s: ChainState, e: Envelope, boxes: seq<Box>, enc: Key, sign: Key) {
    && Step(w, s, e).Ok?
    && var t := Step(w, s, e).value.trust;
    && ActiveDeviceIds(t) == ActiveDeviceIds(s.trust)
    && ActiveDelegateIds(t) == {}
    && (forall id | id in t.slots :: !t.slots[id].active)
    && t.version == s.trust.version + 1 && t.encPub == enc && t.signPub == sign
    && (forall i | 0 <= i < |boxes| ::
          boxes[i].version == t.version && boxes[i].encPub == enc && boxes[i].signPub == sign)
    && (forall i, j | 0 <= i < j < |boxes| :: boxes[i].deviceId != boxes[j].deviceId)
    && (set i | 0 <= i < |boxes| :: boxes[i].deviceId) == ActiveDeviceIds(t)
  }

  /** The rotation link that keeps every active device can be built within the size limits and signed by both keys. */
  ghost predicate SealsRotation(w: Ideal, s: ChainState, seal: Sealer, now: Time, enc: Key, sign: Key) {
    forall kept | Sorted(kept) && Elements(kept) == ActiveDeviceIds(s.trust) ::
      var ks := [s.trust.signPub, sign];
      WellSealed(w, seal(NewLink(s, TypeRotate, RotateBody(enc, sign, kept), now), ks), ks)
  }

  /** A rotation that keeps every active device cannot be refused: new keys, a sane clock, signatures in place. */
  ghost predicate CanRotate(w: Ideal, s: ChainState, seal: Sealer, now: Time, enc: Key, sign: Key) {
    && Timely(s, now) && ActiveDeviceIds(s.trust) != {}
    && enc != s.trust.encPub && sign != s.trust.signPub
    && SealsRotation(w, s, seal, now, enc, sign)
  }

  /** Likewise for revoking: this device and the target are active, and both links can be sealed. */
  ghost predicate CanRevoke(w: Ideal, s: ChainState, self: string, target: string, seal: Sealer, now: Time, enc: Key, sign: Key) {
    && self != target && ActiveDevice(s.trust, self) && ActiveDevice(s.trust, target)
    && Timely(s, now) && enc != s.trust.encPub && sign != s.trust.signPub
    && var e := seal(NewLink(s, TypeDeviceRevoke, DeviceRevokeBody(target), now), [s.trust.signPub]);
    && WellSealed(w, e, [s.trust.signPub])
    && (Step(w, s, e).Ok? ==> SealsRotation(w, Step(w, s, e).value, seal, now, enc, sign))
  }

  /** Seals the new key to each device still active after the rotation. */
  method SealBoxes(rotated: Machine.State, enc: Key, sign: Key) returns (boxes: seq<Box>)
    ensures forall i | 0 <= i < |boxes| ::
      boxes[i].version == rotated.version && boxes[i].encPub == enc && boxes[i].signPub == sign
    ensures forall i, j | 0 <= i < j < |boxes| :: boxes[i].deviceId != boxes[j].deviceId
    ensures (set i | 0 <= i < |boxes| :: boxes[i].deviceId) == ActiveDeviceIds(rotated.TrustView())
  {
    var ids := ActiveDevices(rotated);
    SortedDistinct(ids);
    boxes := [];
    for i := 0 to |ids|
      invariant |boxes| == i
      invariant forall j | 0 <= j < i :: boxes[j] == Box(ids[j], rotated.version, enc, sign)
    {
      boxes := boxes + [Box(ids[i], rotated.version, enc, sign)];
    }
    assert forall j | 0 <= j < |ids| :: boxes[j].deviceId == ids[j];
    assert forall id | id in Elements(ids) :: exists j :: 0 <= j < |ids| && ids[j] == id;
  }

  /** A ukey_rotate link that keeps every active device, and the boxes that go with it. */
  method Rotate(w: Ideal, st: Machine.State, seal: Sealer, now: Time, enc: Key, sign: Key)
    returns (r: Result<(Envelope, seq<Box>)>)
    requires Encodes(w, seal) && st.seqNo > 0
    requires ParseKey(enc) == Some(enc) && ParseKey(sign) == Some(sign)
    ensures r.Ok? ==> Rotated(w, st.View(), r.value.0, r.value.1, enc, sign)
    ensures CanRotate(w, st.View(), seal, now, enc, sign) ==> r.Ok?
  {
    hide Step, Change, ParseKey;
    var keep := ActiveDevices(st);
    var head := if st.hashes == [] then "" else st.hashes[|st.hashes| - 1];
    var l := Link(st.seqNo + 1, head, now, TypeRotate, st.user, st.version + 1, RotateBody(enc, sign, keep));
    assert l == NewLink(st.View(), TypeRotate, RotateBody(enc, sign, keep), now);
    var e := seal(l, [st.signPub, sign]);
    SealedLink(w, seal, l, [st.signPub, sign]);
    var next := st.Next(w, e);
    RotateAccepted(w, st.View(), e, l, keep);
    if next.Err? { return Err(next.error); }
    RotateStep(w, st.View(), e);
    var boxes := SealBoxes(next.value, enc, sign);
    return Ok((e, boxes));
  }

  lemma SealedLink(w: Ideal, seal: Sealer, l: Link, ks: seq<Key>)
    requires Encodes(w, seal) && Built(l)
    ensures w.parseLink(seal(l, ks).body) == Some(l)
  {
    assert w.parseLink(seal(l, ks).body) == Some(l);
  }

  lemma RevokeAccepted(w: Ideal, s: ChainState, e: Envelope, l: Link)
    requires w.parseLink(e.body) == Some(l) && s.seqNo > 0
    requires l.body.DeviceRevokeBody? && l == NewLink(s, TypeDeviceRevoke, l.body, l.ctime)
    ensures Timely(s, l.ctime) && ActiveDevice(s.trust, l.body.revoked) && WellSealed(w, e, [s.trust.signPub])
      ==> Step(w, s, e).Ok?
  {
    hide VerifiedBy;
  }

  lemma RotateAccepted(w: Ideal, s: ChainState, e: Envelope, l: Link, keep: seq<string>)
    requires w.parseLink(e.body) == Some(l) && s.seqNo > 0
    requires l.body.RotateBody? && l.body.kept == keep && l == NewLink(s, TypeRotate, l.body, l.ctime)
    requires Sorted(keep) && Elements(keep) == ActiveDeviceIds(s.trust)
    ensures Step(w, s, e).Ok? ==> DecodeNext(w, s, e) == Ok(l)
    ensures Timely(s, l.ctime) && keep != [] && ParseKey(l.body.newEnc).Some? && ParseKey(l.body.newSign).Some?
      && ParseKey(l.body.newEnc) != Some(s.trust.encPub) && ParseKey(l.body.newSign) != Some(s.trust.signPub)
      && WellSealed(w, e, [s.trust.signPub, ParseKey(l.body.newSign).value])
      ==> Step(w, s, e).Ok?
  {
    hide ParseKey, VerifiedBy;
    SortedDistinct(keep);
    assert forall i | 0 <= i < |keep| :: keep[i] in Elements(keep);
    assert KeepListOk(s.trust, keep);
  }

  /**
   Revokes a device and rotates the user key. After the commit's two links the active set is the old one
   without the target, the new key is boxed once for each of those and never for the target, and no agent
   slot or delegate stays active. A device cannot revoke itself.
   */
  method Revoke(w: Ideal, st: Machine.State, self: string, target: string, seal: Sealer, now: Time, enc: Key, sign: Key)
    returns (r: Result<Commit>)
    requires Encodes(w, seal) && st.seqNo > 0
    requires ParseKey(enc) == Some(enc) && ParseKey(sign) == Some(sign)
    ensures r.Ok? ==>
      && target != self && |r.value.links| == 2
      && Step(w, st.View(), r.value.links[0]).Ok?
      && var mid := Step(w, st.View(), r.value.links[0]).value;
      && ActiveDeviceIds(mid.trust) == ActiveDeviceIds(st.TrustView()) - {target}
      && Rotated(w, mid, r.value.links[1], r.value.boxes, enc, sign)
      && forall i | 0 <= i < |r.value.boxes| :: r.value.boxes[i].deviceId != target
    ensures target == self || !ActiveDevice(st.TrustView(), target) ==> r.Err?
    ensures CanRevoke(w, st.View(), self, target, seal, now, enc, sign) ==> r.Ok?
  {
    hide Step, Change, ParseKey, Rotated, SealsRotation, WellSealed;
    if target == self { return Err("a device cannot revoke itself"); }
    if target !in st.devices || !st.devices[target].active { return Err("device is not active in the chain"); }
    var head := if st.hashes == [] then "" else st.hashes[|st.hashes| - 1];
    var l := Link(st.seqNo + 1, head, now, TypeDeviceRevoke, st.user, st.version, DeviceRevokeBody(target));
    assert l == NewLink(st.View(), TypeDeviceRevoke, DeviceRevokeBody(target), now);
    var e := seal(l, [st.signPub]);
    SealedLink(w, seal, l, [st.signPub]);
    RevokeAccepted(w, st.View(), e, l);
    var next := st.Next(w, e);
    if next.Err? { return Err(next.error); }
    DecodedLink(w, st.View(), e, l);
    RevokeStep(w, st.View(), e, target);
    var mid := next.value;
    assert ActiveDevice(st.TrustView(), self) ==> self in ActiveDeviceIds(mid.TrustView());
    var rotated := Rotate(w, mid, seal, now, enc, sign);
    if rotated.Err? { return Err(rotated.error); }
    BoxesMissTarget(w, mid.View(), rotated.value.0, rotated.value.1, enc, sign, target);
    return Ok(Commit([e, rotated.value.0], rotated.value.1));
  }

  lemma DecodedLink(w: Ideal, s: ChainState, e: Envelope, l: Link)
    requires Step(w, s, e).Ok? && w.parseLink(e.body) == Some(l)
    ensures DecodeNext(w, s, e) == Ok(l) && Step(w, s, e).value.seqNo == s.seqNo + 1 && Step(w, s, e).value.lastTime == l.ctime
  {
    hide Change;
  }

  lemma BoxesMissTarget(w: Ideal, s: ChainState, e: Envelope, boxes: seq<Box>, enc: Key, sign: Key, target: string)
    requires Rotated(w, s, e, boxes, enc, sign) && target !in ActiveDeviceIds(s.trust)
    ensures forall i | 0 <= i < |boxes| :: boxes[i].deviceId != target
  {
    hide Step;
    forall i | 0 <= i < |boxes| ensures boxes[i].deviceId != target {
      assert boxes[i].deviceId in (set j | 0 <= j < |boxes| :: boxes[j].deviceId);
    }
  }
}
