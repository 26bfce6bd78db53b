/**
 The verified state as the program keeps it: one object whose maps each link updates in place.
 Every method is tied to the pure step, so what is proved of replay holds of the object.
 */
module Machine {
  import opened Wrappers
  import opened Envelopes
  import C = DeviceChain

  class State {
    var user: string
    var seqNo: nat
    var hashes: seq<string>
    var lastTime: C.Time
    var version: nat
    var encPub: Key
    var signPub: Key
    var masterPub: Key
    var masterSignPub: Key
    var devices: map<string, C.DeviceState>
    var slots: map<string, C.SlotState>
    var delegates: map<string, C.DelegateState>
    var securityKeys: map<string, C.SecurityKeyState>
    var epochs: seq<C.KeyEpoch>
    var links: seq<C.Link>

    ghost function TrustView(): C.Trust
      reads this
    {
      C.Trust(version, encPub, signPub, masterPub, masterSignPub, devices, slots, delegates, securityKeys, epochs)
    }

    ghost function View(): C.ChainState
      reads this
    {
      C.ChainState(user, seqNo, hashes, lastTime, links, TrustView())
    }

    constructor (user: string)
      ensures View() == C.New(user)
    {
      this.user, seqNo, hashes, lastTime, links := user, 0, [], 0, [];
      version, encPub, signPub, masterPub, masterSignPub := 0, "", "", "", "";
      devices, slots, delegates, securityKeys, epochs := map[], map[], map[], map[], [];
    }

    /** A copy that shares nothing with s. */
    constructor Clone(s: State)
      ensures View() == s.View()
    {
      user, seqNo, hashes, lastTime, links := s.user, s.seqNo, s.hashes, s.lastTime, s.links;
      version, encPub, signPub, masterPub, masterSignPub := s.version, s.encPub, s.signPub, s.masterPub, s.masterSignPub;
      devices, slots, delegates, securityKeys, epochs := s.devices, s.slots, s.delegates, s.securityKeys, s.epochs;
    }

    method ReusesKeys(d: C.Device) returns (reused: bool)
      ensures reused <==> C.KeysReused(TrustView(), d)
    {
      var todo := devices.Keys;
      while todo != {}
        invariant todo <= devices.Keys
        invariant forall id | id in devices.Keys - todo ::
          devices[id].device.signPub != d.signPub && devices[id].device.encPub != d.encPub
      {
        var id :| id in todo;
        if devices[id].device.signPub == d.signPub || devices[id].device.encPub == d.encPub {
          return true;
        }
        todo := todo - {id};
      }
      return false;
    }

    method ApplyDeviceAdd(w: C.Ideal, l: C.Link) returns (r: Result<()>)
      modifies this
      ensures Applied(C.ApplyDeviceAdd(w, user, old(TrustView()), l), r, old(View()))
    {
      hide C.VerifyProof, C.DeviceOk, C.KeysReused;
      if !l.body.DeviceAddBody? { return Err("invalid body"); }
      var b := l.body;
      if !C.DeviceOk(w, b.device) { return Err("invalid device"); }
      if b.device.id in devices { return Err("device id reused"); }
      var reused := ReusesKeys(b.device);
      if reused { return Err("device keys reused"); }
      var proof := C.VerifyProof(w, b.proof);
      if proof.None? { return Err("device proof"); }
      if proof.value.user != user || proof.value.device != b.device {
        return Err("device proof does not match the device");
      }
      var allowed := match b.how
        case First => devices == map[] && b.approvedBy == "" && b.slot == ""
        case Approval => b.approvedBy in devices && devices[b.approvedBy].active && b.slot == ""
        case Recovery => b.approvedBy == "" && b.slot == ""
        case SshAgent => UsableSlot(b.slot, l.ctime) && b.approvedBy == ""
        case OtherMethod(_) => false;
      if !allowed { return Err("device method not allowed"); }
      devices := devices[b.device.id := C.DeviceState(b.device, true, b.how, b.approvedBy, b.slot, l.seqNo, 0)];
      return Ok(());
    }

    /** The outcome of applying a link body: the change the specification makes, or an error and no change at all. */
    ghost predicate Applied(spec: Result<C.Trust>, r: Result<()>, before: C.ChainState)
      reads this
    {
      match spec
      case Ok(t) => r.Ok? && View() == before.(trust := t)
      case Err(m) => r == Err(m) && View() == before
    }

    predicate UsableSlot(id: string, now: C.Time)
      reads this
    {
      id in slots && slots[id].active && now < slots[id].expires && slots[id].version == version
    }

    method ApplyDeviceRevoke(l: C.Link) returns (r: Result<()>)
      modifies this
      ensures Applied(C.ApplyDeviceRevoke(old(TrustView()), l), r, old(View()))
    {
      if !l.body.DeviceRevokeBody? { return Err("invalid body"); }
      var id := l.body.revoked;
      if id !in devices || !devices[id].active { return Err("revoked device is not active"); }
      devices := devices[id := devices[id].(active := false, revokedSeq := l.seqNo)];
      return Ok(());
    }

    method ApplyDeviceRename(w: C.Ideal, l: C.Link) returns (r: Result<()>)
      modifies this
      ensures Applied(C.ApplyDeviceRename(w, old(TrustView()), l), r, old(View()))
    {
      if !l.body.DeviceRenameBody? { return Err("invalid body"); }
      if !w.nameOk(l.body.newName) { return Err("invalid device name"); }
      var id := l.body.renamed;
      if id !in devices || !devices[id].active { return Err("renamed device is not active"); }
      devices := devices[id := devices[id].(device := devices[id].device.(name := l.body.newName))];
      return Ok(());
    }

    method ApplySlotAdd(w: C.Ideal, l: C.Link) returns (r: Result<()>)
      modifies this
      ensures Applied(C.ApplySlotAdd(w, old(TrustView()), l), r, old(View()))
    {
      if !l.body.SlotAddBody? { return Err("invalid body"); }
      var b := l.body;
      if !w.slotIdOk(b.slotId) { return Err("invalid slot id"); }
      if !w.fingerprintOk(b.fingerprint) { return Err("invalid SSH key fingerprint"); }
      if b.slotId in slots { return Err("slot id reused"); }
      if b.slotExpires <= l.ctime || b.slotExpires > l.ctime + C.MAX_SLOT_LIFETIME { return Err("slot expiry out of range"); }
      slots := slots[b.slotId := C.SlotState(b.slotId, b.fingerprint, b.slotExpires, version, true)];
      return Ok(());
    }

    method ApplySlotRemove(l: C.Link) returns (r: Result<()>)
      modifies this
      ensures Applied(C.ApplySlotRemove(old(TrustView()), l), r, old(View()))
    {
      if !l.body.SlotRemoveBody? { return Err("invalid body"); }
      var id := l.body.removedSlot;
      if id !in slots || !slots[id].active { return Err("removed slot is not active"); }
      slots := slots[id := slots[id].(active := false)];
      return Ok(());
    }

    /** One pass over the delegates: whether an active one duplicates d, and otherwise how many are active. */
    method CountDelegates(d: C.Delegate) returns (taken: bool, n: nat)
      ensures taken <==> C.DelegateTaken(TrustView(), d)
      ensures !taken ==> n == |C.ActiveDelegateIds(TrustView())|
    {
      n := 0;
      var todo := delegates.Keys;
      ghost var counted := {};
      while todo != {}
        invariant todo <= delegates.Keys
        invariant counted == set id | id in delegates.Keys - todo && delegates[id].active
        invariant n == |counted|
        invariant forall id | id in counted :: !C.Duplicates(delegates[id].delegate, d)
      {
        var id :| id in todo;
        todo := todo - {id};
        if delegates[id].active {
          n, counted := n + 1, counted + {id};
          if C.Duplicates(delegates[id].delegate, d) {
            return true, n;
          }
        }
      }
      assert counted == C.ActiveDelegateIds(TrustView());
      return false, n;
    }

    method ApplyDelegateAdd(w: C.Ideal, l: C.Link) returns (r: Result<()>)
      modifies this
      ensures Applied(C.ApplyDelegateAdd(w, old(TrustView()), l), r, old(View()))
    {
      hide C.DelegateOk, C.DelegateTaken, C.ActiveDelegateIds;
      if !l.body.DelegateAddBody? { return Err("invalid body"); }
      var d := l.body.delegate;
      if !C.DelegateOk(w, d) { return Err("invalid delegate"); }
      if d.id in delegates { return Err("delegate id reused"); }
      var taken, n := CountDelegates(d);
      if taken { return Err("that key is a delegate already"); }
      if n >= C.MAX_DELEGATES { return Err("too many delegates"); }
      delegates := delegates[d.id := C.DelegateState(d, true, l.seqNo, 0)];
      return Ok(());
    }

    method ApplyDelegateRemove(l: C.Link) returns (r: Result<()>)
      modifies this
      ensures Applied(C.ApplyDelegateRemove(old(TrustView()), l), r, old(View()))
    {
      if !l.body.DelegateRemoveBody? { return Err("invalid body"); }
      var id := l.body.removedDelegate;
      if id !in delegates || !delegates[id].active { return Err("removed delegate is not active"); }
      delegates := delegates[id := delegates[id].(active := false, removedSeq := l.seqNo)];
      return Ok(());
    }

    method CountSecurityKeys(k: C.SecurityKey) returns (reused: bool, n: nat)
      ensures reused <==> C.RecipientReused(TrustView(), k)
      ensures !reused ==> n == |C.ActiveSecurityKeyIds(TrustView())|
    {
      n := 0;
      var todo := securityKeys.Keys;
      ghost var counted := {};
      while todo != {}
        invariant todo <= securityKeys.Keys
        invariant counted == set id | id in securityKeys.Keys - todo && securityKeys[id].active
        invariant n == |counted|
        invariant forall id | id in securityKeys.Keys - todo :: securityKeys[id].key.recipient != k.recipient
      {
        var id :| id in todo;
        if securityKeys[id].key.recipient == k.recipient {
          return true, n;
        }
        todo := todo - {id};
        if securityKeys[id].active {
          n, counted := n + 1, counted + {id};
        }
      }
      assert counted == C.ActiveSecurityKeyIds(TrustView());
      return false, n;
    }

    method ApplySecurityKeyAdd(w: C.Ideal, l: C.Link) returns (r: Result<()>)
      modifies this
      ensures Applied(C.ApplySecurityKeyAdd(w, old(TrustView()), l), r, old(View()))
    {
      hide C.RecipientReused, C.ActiveSecurityKeyIds;
      if !l.body.SecurityKeyAddBody? { return Err("invalid body"); }
      var k := l.body.securityKey;
      if !w.securityKeyOk(k) { return Err("invalid security key"); }
      if k.id in securityKeys { return Err("security key id reused"); }
      var reused, n := CountSecurityKeys(k);
      if reused { return Err("security key recipient reused"); }
      if n >= C.MAX_SECURITY_KEYS { return Err("too many security keys"); }
      securityKeys := securityKeys[k.id := C.SecurityKeyState(k, true, l.ctime, l.seqNo, 0)];
      return Ok(());
    }

    method ApplySecurityKeyRemove(l: C.Link) returns (r: Result<()>)
      modifies this
      ensures Applied(C.ApplySecurityKeyRemove(old(TrustView()), l), r, old(View()))
    {
      if !l.body.SecurityKeyRemoveBody? { return Err("invalid body"); }
      var id := l.body.removedKey;
      if id !in securityKeys || !securityKeys[id].active { return Err("removed security key is not active"); }
      securityKeys := securityKeys[id := securityKeys[id].(active := false, removedSeq := l.seqNo)];
      return Ok(());
    }

    /** The keep list as a set, unless it names an inactive device or one twice. */
    method KeepSet(kept: seq<string>) returns (ok: bool, keep: set<string>)
      ensures ok <==> C.KeepListOk(TrustView(), kept)
      ensures ok ==> keep == (set id | id in kept)
    {
      keep := {};
      for i := 0 to |kept|
        invariant forall id :: id in keep <==> id in kept[..i]
        invariant forall j | 0 <= j < i :: C.ActiveDevice(TrustView(), kept[j])
        invariant forall j, k | 0 <= j < k < i :: kept[j] != kept[k]
      {
        var id := kept[i];
        if id !in devices || !devices[id].active || id in keep {
          if id in keep {
            var j :| 0 <= j < i && kept[..i][j] == id;
            assert kept[j] == kept[i];
          }
          return false, keep;
        }
        assert id !in kept[..i];
        assert kept[..i + 1] == kept[..i] + [id];
        keep := keep + {id};
      }
      assert kept[..|kept|] == kept;
      return true, keep;
    }

    method RevokeOthers(keep: set<string>, at: nat)
      modifies this`devices
      ensures View() == old(View()).(trust := old(TrustView()).(devices := C.RevokeUnlisted(old(devices), keep, at)))
    {
      var todo := devices.Keys;
      while todo != {}
        invariant devices.Keys == old(devices).Keys && todo <= devices.Keys
        invariant forall id | id in todo :: devices[id] == old(devices)[id]
        invariant forall id | id in devices.Keys - todo :: devices[id] == C.RevokeUnlisted(old(devices), keep, at)[id]
      {
        var id :| id in todo;
        if devices[id].active && id !in keep {
          devices := devices[id := devices[id].(active := false, revokedSeq := at)];
        }
        todo := todo - {id};
      }
    }

    method CloseSlots()
      modifies this`slots
      ensures View() == old(View()).(trust := old(TrustView()).(slots := C.CloseSlots(old(slots))))
    {
      var todo := slots.Keys;
      while todo != {}
        invariant slots.Keys == old(slots).Keys && todo <= slots.Keys
        invariant forall id | id in todo :: slots[id] == old(slots)[id]
        invariant forall id | id in slots.Keys - todo :: slots[id] == C.CloseSlots(old(slots))[id]
      {
        var id :| id in todo;
        slots := slots[id := slots[id].(active := false)];
        todo := todo - {id};
      }
    }

    method DropDelegates(at: nat)
      modifies this`delegates
      ensures View() == old(View()).(trust := old(TrustView()).(delegates := C.DropDelegates(old(delegates), at)))
    {
      var todo := delegates.Keys;
      while todo != {}
        invariant delegates.Keys == old(delegates).Keys && todo <= delegates.Keys
        invariant forall id | id in todo :: delegates[id] == old(delegates)[id]
        invariant forall id | id in delegates.Keys - todo :: delegates[id] == C.DropDelegates(old(delegates), at)[id]
      {
        var id :| id in todo;
        if delegates[id].active {
          delegates := delegates[id := delegates[id].(active := false, removedSeq := at)];
        }
        todo := todo - {id};
      }
    }

    /** Every rule a rotation must meet, checked before anything changes. */
    method CheckRotate(w: C.Ideal, e: Envelope, l: C.Link) returns (r: Result<(Key, Key, set<string>)>)
      ensures match C.ApplyRotate(w, TrustView(), e, l)
              case Err(m) => r == Err(m)
              case Ok(_) => (
                && r.Ok? && l.body.RotateBody?
                && C.ParseKey(l.body.newEnc) == Some(r.value.0) && C.ParseKey(l.body.newSign) == Some(r.value.1)
                && r.value.2 == (set id | id in l.body.kept))
    {
      hide C.ParseKey, Require, C.KeepListOk, C.RevokeUnlisted, C.CloseSlots, C.DropDelegates;
      if l.version != version + 1 { return Err("rotation must advance the key version by one"); }
      if !l.body.RotateBody? { return Err("invalid body"); }
      var b := l.body;
      var enc, sign := C.ParseKey(b.newEnc), C.ParseKey(b.newSign);
      if enc.None? || sign.None? { return Err("invalid key encoding"); }
      if enc.value == encPub || sign.value == signPub { return Err("rotation must replace both keys"); }
      if !Require(w.crypto, e, C.KIND_LINK, [signPub, sign.value]) { return Err("signature missing or invalid"); }
      if b.kept == [] { return Err("rotation must keep at least one device"); }
      var ok, keep := KeepSet(b.kept);
      if !ok { return Err("rotation lists an inactive or duplicate device"); }
      return Ok((enc.value, sign.value, keep));
    }

    method InstallKey(enc: Key, sign: Key, l: C.Link)
      modifies this`version, this`encPub, this`signPub, this`epochs
      ensures View() == old(View()).(trust := old(TrustView()).(version := l.version, encPub := enc, signPub := sign,
                epochs := old(epochs) + [C.KeyEpoch(l.version, enc, sign, l.seqNo, l.ctime)]))
    {
      version, encPub, signPub := l.version, enc, sign;
      epochs := epochs + [C.KeyEpoch(l.version, enc, sign, l.seqNo, l.ctime)];
    }

    method ApplyRotate(w: C.Ideal, e: Envelope, l: C.Link) returns (r: Result<()>)
      modifies this
      ensures Applied(C.ApplyRotate(w, old(TrustView()), e, l), r, old(View()))
    {
      hide C.ParseKey, Require, C.KeepListOk, C.RevokeUnlisted, C.CloseSlots, C.DropDelegates;
      var checked := CheckRotate(w, e, l);
      if checked.Err? { return Err(checked.error); }
      var (enc, sign, keep) := checked.value;
      RevokeOthers(keep, l.seqNo);
      CloseSlots();
      DropDelegates(l.seqNo);
      InstallKey(enc, sign, l);
      return Ok(());
    }

    /** The four keys of the first link, each checked and authorized. */
    method CheckInit(w: C.Ideal, e: Envelope, l: C.Link) returns (r: Result<(Key, Key, Key, Key)>)
      ensures match C.ApplyInit(w, TrustView(), e, l)
              case Err(m) => r == Err(m)
              case Ok(_) => (
                && r.Ok? && l.body.InitBody?
                && C.ParseKey(l.body.encPub) == Some(r.value.0) && C.ParseKey(l.body.signPub) == Some(r.value.1)
                && C.ParseKey(l.body.masterPub) == Some(r.value.2) && C.ParseKey(l.body.masterSignPub) == Some(r.value.3))
    {
      hide C.ParseKey, Require, C.RootStatement;
      if l.typ != C.TypeInit || l.version != 1 { return Err("chain must start with an init link for key version 1"); }
      if !l.body.InitBody? { return Err("invalid body"); }
      var b := l.body;
      var enc, sign, master, masterSign :=
        C.ParseKey(b.encPub), C.ParseKey(b.signPub), C.ParseKey(b.masterPub), C.ParseKey(b.masterSignPub);
      if enc.None? || sign.None? || master.None? || masterSign.None? { return Err("invalid key encoding"); }
      if !w.crypto.verify(masterSign.value, C.RootStatement(enc.value, sign.value, master.value), b.rootSig) {
        return Err("root key is not authorized by the master signing key");
      }
      if !Require(w.crypto, e, C.KIND_LINK, [sign.value]) { return Err("signature missing or invalid"); }
      return Ok((enc.value, sign.value, master.value, masterSign.value));
    }

    method InstallRoot(enc: Key, sign: Key, master: Key, masterSign: Key, l: C.Link)
      modifies this`version, this`encPub, this`signPub, this`masterPub, this`masterSignPub, this`epochs
      ensures version == 1 && encPub == enc && signPub == sign && masterPub == master && masterSignPub == masterSign
      ensures epochs == [C.KeyEpoch(1, enc, sign, l.seqNo, l.ctime)]
    {
      version, encPub, signPub, masterPub, masterSignPub := 1, enc, sign, master, masterSign;
      epochs := [C.KeyEpoch(1, enc, sign, l.seqNo, l.ctime)];
    }

    method ApplyInit(w: C.Ideal, e: Envelope, l: C.Link) returns (r: Result<()>)
      modifies this
      ensures Applied(C.ApplyInit(w, old(TrustView()), e, l), r, old(View()))
    {
      hide C.ParseKey, Require, C.RootStatement;
      var checked := CheckInit(w, e, l);
      if checked.Err? { return Err(checked.error); }
      var (enc, sign, master, masterSign) := checked.value;
      InstallRoot(enc, sign, master, masterSign, l);
      return Ok(());
    }

    method Apply(w: C.Ideal, e: Envelope, l: C.Link) returns (r: Result<()>)
      modifies this
      ensures Applied(C.Apply(w, old(user), old(TrustView()), e, l), r, old(View()))
    {
      hide C.ApplyDeviceAdd, C.ApplyDeviceRevoke, C.ApplyDeviceRename, C.ApplySlotAdd, C.ApplySlotRemove,
        C.ApplyDelegateAdd, C.ApplyDelegateRemove, C.ApplySecurityKeyAdd, C.ApplySecurityKeyRemove, C.ApplyRotate, Require;
      if l.typ == C.TypeInit { return Err("init link after the start of the chain"); }
      if l.typ == C.TypeRotate {
        r := ApplyRotate(w, e, l);
        return;
      }
      if l.version != version { return Err("link names another key version"); }
      if !Require(w.crypto, e, C.KIND_LINK, [signPub]) { return Err("signature missing or invalid"); }
      match l.typ
      case TypeDeviceAdd => r := ApplyDeviceAdd(w, l);
      case TypeDeviceRevoke => r := ApplyDeviceRevoke(l);
      case TypeDeviceRename => r := ApplyDeviceRename(w, l);
      case TypeSlotAdd => r := ApplySlotAdd(w, l);
      case TypeSlotRemove => r := ApplySlotRemove(l);
      case TypeDelegateAdd => r := ApplyDelegateAdd(w, l);
      case TypeDelegateRemove => r := ApplyDelegateRemove(l);
      case TypeSecurityKeyAdd => r := ApplySecurityKeyAdd(w, l);
      case TypeSecurityKeyRemove => r := ApplySecurityKeyRemove(l);
      case _ => r := Err("unknown link type");
    }

    /** The checks on a link's header: shape, user, position, back link and time. */
    method DecodeNext(w: C.Ideal, e: Envelope) returns (r: Result<C.Link>)
      ensures r == C.DecodeNext(w, View(), e)
    {
      if !e.Check() { return Err("invalid envelope"); }
      if e.kind != C.KIND_LINK { return Err("not a chain link"); }
      var decoded := w.parseLink(e.body);
      if decoded.None? { return Err("invalid body"); }
      var l := decoded.value;
      if l.user != user { return Err("link belongs to a different user"); }
      var head := if hashes == [] then "" else hashes[|hashes| - 1];
      if l.seqNo != seqNo + 1 || l.prev != head { return Err("link is out of sequence"); }
      if l.ctime == 0 { return Err("link time missing"); }
      if lastTime != 0 && l.ctime < lastTime - C.DAY { return Err("link time goes backwards"); }
      return Ok(l);
    }

    /** Records an applied link. */
    method RecordLink(w: C.Ideal, e: Envelope, l: C.Link)
      modifies this`seqNo, this`lastTime, this`hashes, this`links
      ensures View() == C.ChainState(user, l.seqNo, old(hashes) + [Hash(w.crypto, e)], l.ctime, old(links) + [l], old(TrustView()))
    {
      seqNo, lastTime := l.seqNo, l.ctime;
      hashes := hashes + [Hash(w.crypto, e)];
      links := links + [l];
    }

    /** What a link with a good header changes. */
    method Change(w: C.Ideal, e: Envelope, l: C.Link) returns (r: Result<()>)
      modifies this
      ensures Applied(C.Change(w, old(user), old(TrustView()), e, l), r, old(View()))
    {
      hide C.Apply, C.ApplyInit;
      if l.seqNo == 1 {
        r := ApplyInit(w, e, l);
      } else {
        r := Apply(w, e, l);
      }
    }

    /**
     Verifies e as the next link and applies it in place. On an error the state is not changed at all,
     although the program only promises that it must then be discarded.
     */
    method Step(w: C.Ideal, e: Envelope) returns (r: Result<()>)
      modifies this
      ensures match C.Step(w, old(View()), e)
              case Ok(n) => r.Ok? && View() == n
              case Err(m) => r == Err(m) && View() == old(View())
    {
      hide C.Change, C.DecodeNext;
      var decoded := DecodeNext(w, e);
      if decoded.Err? { return Err(decoded.error); }
      r := Change(w, e, decoded.value);
      if r.Ok? { RecordLink(w, e, decoded.value); }
    }

    /** Verifies e as the next link and returns the resulting state; this one is not modified. */
    method Next(w: C.Ideal, e: Envelope) returns (r: Result<State>)
      ensures match C.Step(w, View(), e)
              case Ok(n) => r.Ok? && fresh(r.value) && r.value.View() == n
              case Err(m) => r == Err(m)
    {
      hide C.Step;
      var n := new State.Clone(this);
      var done := n.Step(w, e);
      r := if done.Ok? then Ok(n) else Err(done.error);
    }

    /** The newest epoch that starts by position n, searched from the end. */
    method EpochAt(n: nat) returns (r: Option<C.KeyEpoch>)
      ensures r == C.EpochAt(View(), n)
    {
      if n == 0 || n > seqNo { return None; }
      var i := |epochs|;
      assert epochs[..i] == epochs;
      while i > 0
        invariant 0 <= i <= |epochs|
        invariant C.NewestBy(epochs, n) == C.NewestBy(epochs[..i], n)
      {
        i := i - 1;
        assert epochs[..i + 1][..i] == epochs[..i];
        if epochs[i].seqNo <= n { return Some(epochs[i]); }
      }
      return None;
    }
  }

  /** Checks a complete chain from its first link. */
  method Verify(w: C.Ideal, user: string, links: seq<Envelope>) returns (r: Result<State>)
    ensures match C.Verify(w, user, links)
            case Ok(n) => r.Ok? && fresh(r.value) && r.value.View() == n
            case Err(m) => r == Err(m)
  {
    hide C.Step;
    if !w.userOk(user) { return Err("invalid user id"); }
    if |links| > C.MAX_LINKS { return Err("chain too long"); }
    var s := new State(user);
    for i := 0 to |links|
      invariant fresh(s)
      invariant C.Replay(w, user, links[..i]) == Ok(s.View())
    {
      assert links[..i + 1][..i] == links[..i];
      var done := s.Step(w, links[i]);
      if done.Err? {
        ReplayStops(w, user, links, i + 1);
        return Err(done.error);
      }
    }
    assert links[..|links|] == links;
    return Ok(s);
  }

  /** A chain whose first n links fail fails as a whole, with the same error. */
  lemma {:induction false} ReplayStops(w: C.Ideal, user: string, links: seq<Envelope>, n: nat)
    requires n <= |links| && C.Replay(w, user, links[..n]).Err?
    ensures C.Replay(w, user, links) == C.Replay(w, user, links[..n])
    decreases |links|
  {
    hide C.Step;
    if n == |links| {
      assert links[..n] == links;
    } else {
      assert links[..|links| - 1][..n] == links[..n];
      ReplayStops(w, user, links[..|links| - 1], n);
    }
  }
}
