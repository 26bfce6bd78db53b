/**
 A user's device chain as a value: the decoded links, the verified state, and the step that takes
 one link. Class Machine.State runs this step in place; the history modules reason about it.
 */
module DeviceChain {
  import opened Wrappers
  import opened Envelopes

  const KIND_LINK := "chain-link"
  const KIND_DEVICE_PROOF := "device-proof"
  const DAY := 86400
  const MAX_SLOT_LIFETIME := 366 * DAY
  const MAX_LINKS := 10000
  const MAX_DELEGATES := 20
  const MAX_SECURITY_KEYS := 20

  /** Seconds; 0 is the zero time, which counts as missing. */
  type Time = int

  datatype LinkType =
    | TypeInit | TypeDeviceAdd | TypeDeviceRevoke | TypeDeviceRename | TypeRotate | TypeSlotAdd | TypeSlotRemove
    | TypeDelegateAdd | TypeDelegateRemove | TypeSecurityKeyAdd | TypeSecurityKeyRemove | TypeUnknown(name: string)

  datatype Method = First | Approval | Recovery | SshAgent | OtherMethod(name: string)

  datatype Device = Device(id: string, name: string, platform: string, encPub: string, signPub: string, created: Time)

  datatype DeviceProof = DeviceProof(user: string, device: Device)

  datatype DelegateKind = Passkey | Server | OtherKind(name: string)

  datatype Scope = ScopeRemove | ScopeManage | OtherScope(name: string)

  datatype Delegate = Delegate(
    id: string, kind: DelegateKind, name: string, scope: Scope, signPub: string, alg: int,
    publicKey: string, credential: string, rpId: string, origin: string, expires: Time, created: Time)

  datatype SecurityKey = SecurityKey(id: string, kind: string, recipient: string, name: string, serial: string)

  /** A link's body as strict decoding for the link's own type reads it. */
  datatype Body =
    | Undecodable
    | InitBody(encPub: string, signPub: string, masterPub: string, masterSignPub: string, rootSig: string)
    | DeviceAddBody(device: Device, proof: Envelope, how: Method, approvedBy: string, slot: string)
    | DeviceRevokeBody(revoked: string)
    | DeviceRenameBody(renamed: string, newName: string)
    | RotateBody(newEnc: string, newSign: string, kept: seq<string>)
    | SlotAddBody(slotId: string, fingerprint: string, slotExpires: Time)
    | SlotRemoveBody(removedSlot: string)
    | DelegateAddBody(delegate: Delegate)
    | DelegateRemoveBody(removedDelegate: string)
    | SecurityKeyAddBody(securityKey: SecurityKey)
    | SecurityKeyRemoveBody(removedKey: string)

  datatype Link = Link(seqNo: nat, prev: string, ctime: Time, typ: LinkType, user: string, version: nat, body: Body)

  datatype DeviceState = DeviceState(
    device: Device, active: bool, how: Method, approvedBy: string, slot: string, addedSeq: nat, revokedSeq: nat)

  datatype SlotState = SlotState(slotId: string, fingerprint: string, expires: Time, version: nat, active: bool)

  datatype DelegateState = DelegateState(delegate: Delegate, active: bool, addedSeq: nat, removedSeq: nat)

  datatype SecurityKeyState = SecurityKeyState(key: SecurityKey, active: bool, added: Time, addedSeq: nat, removedSeq: nat)

  datatype KeyEpoch = KeyEpoch(version: nat, encPub: Key, signPub: Key, seqNo: nat, since: Time)

  /** What the chain has settled so far: the current user key and everything trusted under it. */
  datatype Trust = Trust(
    version: nat, encPub: Key, signPub: Key, masterPub: Key, masterSignPub: Key,
    devices: map<string, DeviceState>, slots: map<string, SlotState>,
    delegates: map<string, DelegateState>, securityKeys: map<string, SecurityKeyState>,
    epochs: seq<KeyEpoch>)

  /** The verified state: the record of the links taken, and what they add up to. */
  datatype ChainState = ChainState(
    user: string, seqNo: nat, hashes: seq<string>, lastTime: Time, links: seq<Link>, trust: Trust)

  /** What the model takes as given: the primitives, JSON decoding, and the format checks on names and ids. */
  datatype Ideal = Ideal(
    crypto: Crypto,
    parseLink: string -> Option<Link>,
    parseProof: string -> Option<DeviceProof>,
    userOk: string -> bool,
    deviceFieldsOk: Device -> bool,
    nameOk: string -> bool,
    slotIdOk: string -> bool,
    fingerprintOk: string -> bool,
    delegateFieldsOk: Delegate -> bool,
    securityKeyOk: SecurityKey -> bool)

  // ----- key encodings -----

  predicate HexDigit(c: char) { '0' <= c <= '9' || 'a' <= c <= 'f' || 'A' <= c <= 'F' }

  function LowerHexDigit(c: char): char {
    if 'A' <= c <= 'F' then c - 'A' + 'a' else c
  }

  function LowerHex(s: string): string {
    seq(|s|, i requires 0 <= i < |s| => LowerHexDigit(s[i]))
  }

  /** A 32-byte hex key that is not all zero, in lower case. */
  function ParseKey(s: string): Option<Key> {
    if |s| == 64 && (forall i | 0 <= i < |s| :: HexDigit(s[i])) && (exists i | 0 <= i < |s| :: s[i] != '0')
    then Some(LowerHex(s)) else None
  }

  function RootStatement(enc: Key, sign: Key, master: Key): string {
    "esec-vault root v1\n" + enc + "\n" + sign + "\n" + master + "\n"
  }

  // ----- validation -----

  predicate DeviceOk(w: Ideal, d: Device) {
    && w.deviceFieldsOk(d)
    && ParseKey(d.encPub).Some?
    && ParseKey(d.signPub).Some?
    && d.created != 0
  }

  function VerifyProof(w: Ideal, proof: Envelope): Option<DeviceProof> {
    if !proof.Check() then None else
    match w.parseProof(proof.body)
    case None => None
    case Some(p) =>
      if !w.userOk(p.user) || !DeviceOk(w, p.device) then None
      else if !Require(w.crypto, proof, KIND_DEVICE_PROOF, [ParseKey(p.device.signPub).value]) then None
      else Some(p)
  }

  /** Delegates never expire; the server's may only sign removals and carries no passkey fields. */
  predicate DelegateOk(w: Ideal, d: Delegate) {
    && w.delegateFieldsOk(d)
    && d.created != 0
    && d.expires == 0
    && match d.kind
       case Server =>
         && d.scope == ScopeRemove && ParseKey(d.signPub).Some?
         && d.alg == 0 && d.publicKey == "" && d.credential == "" && d.rpId == "" && d.origin == ""
       case Passkey =>
         && !d.scope.OtherScope? && d.signPub == "" && 0 < |d.credential| <= 1023
       case OtherKind(_) => false
  }

  // ----- lookups -----

  const NO_TRUST := Trust(0, "", "", "", "", map[], map[], map[], map[], [])

  function New(user: string): ChainState {
    ChainState(user, 0, [], 0, [], NO_TRUST)
  }

  function Head(s: ChainState): string {
    if s.hashes == [] then "" else s.hashes[|s.hashes| - 1]
  }

  function Root(s: ChainState): string {
    if s.hashes == [] then "" else s.hashes[0]
  }

  predicate ActiveDevice(t: Trust, id: string) {
    id in t.devices && t.devices[id].active
  }

  function ActiveDeviceIds(t: Trust): set<string> {
    set id | id in t.devices && t.devices[id].active
  }

  predicate UsableSlot(t: Trust, id: string, now: Time) {
    id in t.slots && t.slots[id].active && now < t.slots[id].expires && t.slots[id].version == t.version
  }

  predicate ActiveDelegate(t: Trust, id: string) {
    id in t.delegates && t.delegates[id].active
  }

  function ActiveDelegateIds(t: Trust): set<string> {
    set id | id in t.delegates && t.delegates[id].active
  }

  function ActiveSecurityKeyIds(t: Trust): set<string> {
    set id | id in t.securityKeys && t.securityKeys[id].active
  }

  // ----- one link -----

  predicate KeysReused(t: Trust, d: Device) {
    exists id | id in t.devices :: t.devices[id].device.signPub == d.signPub || t.devices[id].device.encPub == d.encPub
  }

  predicate MethodAllowed(t: Trust, how: Method, approvedBy: string, slot: string, now: Time) {
    match how
    case First => t.devices == map[] && approvedBy == "" && slot == ""
    case Approval => ActiveDevice(t, approvedBy) && slot == ""
    case Recovery => approvedBy == "" && slot == ""
    case SshAgent => UsableSlot(t, slot, now) && approvedBy == ""
    case OtherMethod(_) => false
  }

  function ApplyDeviceAdd(w: Ideal, user: string, t: Trust, l: Link): Result<Trust> {
    if !l.body.DeviceAddBody? then Err("invalid body") else
    var b := l.body;
    if !DeviceOk(w, b.device) then Err("invalid device")
    else if b.device.id in t.devices then Err("device id reused")
    else if KeysReused(t, b.device) then Err("device keys reused")
    else match VerifyProof(w, b.proof)
    case None => Err("device proof")
    case Some(p) =>
      if p.user != user || p.device != b.device then Err("device proof does not match the device")
      else if !MethodAllowed(t, b.how, b.approvedBy, b.slot, l.ctime) then Err("device method not allowed")
      else Ok(t.(devices := t.devices[b.device.id := DeviceState(b.device, true, b.how, b.approvedBy, b.slot, l.seqNo, 0)]))
  }

  function ApplyDeviceRevoke(t: Trust, l: Link): Result<Trust> {
    if !l.body.DeviceRevokeBody? then Err("invalid body")
    else if !ActiveDevice(t, l.body.revoked) then Err("revoked device is not active")
    else
      var id := l.body.revoked;
      Ok(t.(devices := t.devices[id := t.devices[id].(active := false, revokedSeq := l.seqNo)]))
  }

  function ApplyDeviceRename(w: Ideal, t: Trust, l: Link): Result<Trust> {
    if !l.body.DeviceRenameBody? then Err("invalid body")
    else if !w.nameOk(l.body.newName) then Err("invalid device name")
    else if !ActiveDevice(t, l.body.renamed) then Err("renamed device is not active")
    else
      var id, d := l.body.renamed, t.devices[l.body.renamed];
      Ok(t.(devices := t.devices[id := d.(device := d.device.(name := l.body.newName))]))
  }

  function ApplySlotAdd(w: Ideal, t: Trust, l: Link): Result<Trust> {
    if !l.body.SlotAddBody? then Err("invalid body") else
    var b := l.body;
    if !w.slotIdOk(b.slotId) then Err("invalid slot id")
    else if !w.fingerprintOk(b.fingerprint) then Err("invalid SSH key fingerprint")
    else if b.slotId in t.slots then Err("slot id reused")
    else if b.slotExpires <= l.ctime || b.slotExpires > l.ctime + MAX_SLOT_LIFETIME then Err("slot expiry out of range")
    else Ok(t.(slots := t.slots[b.slotId := SlotState(b.slotId, b.fingerprint, b.slotExpires, t.version, true)]))
  }

  function ApplySlotRemove(t: Trust, l: Link): Result<Trust> {
    if !l.body.SlotRemoveBody? then Err("invalid body")
    else if l.body.removedSlot !in t.slots || !t.slots[l.body.removedSlot].active then Err("removed slot is not active")
    else Ok(t.(slots := t.slots[l.body.removedSlot := t.slots[l.body.removedSlot].(active := false)]))
  }

  /** An active delegate that a new one would duplicate: the same passkey, or a second server key. */
  predicate DelegateTaken(t: Trust, d: Delegate) {
    exists id | id in ActiveDelegateIds(t) :: Duplicates(t.delegates[id].delegate, d)
  }

  predicate Duplicates(o: Delegate, d: Delegate) {
    (d.kind == Passkey && o.credential == d.credential) || (d.kind == Server && o.kind == Server)
  }

  function ApplyDelegateAdd(w: Ideal, t: Trust, l: Link): Result<Trust> {
    if !l.body.DelegateAddBody? then Err("invalid body") else
    var d := l.body.delegate;
    if !DelegateOk(w, d) then Err("invalid delegate")
    else if d.id in t.delegates then Err("delegate id reused")
    else if DelegateTaken(t, d) then Err("that key is a delegate already")
    else if |ActiveDelegateIds(t)| >= MAX_DELEGATES then Err("too many delegates")
    else Ok(t.(delegates := t.delegates[d.id := DelegateState(d, true, l.seqNo, 0)]))
  }

  function ApplyDelegateRemove(t: Trust, l: Link): Result<Trust> {
    if !l.body.DelegateRemoveBody? then Err("invalid body")
    else if !ActiveDelegate(t, l.body.removedDelegate) then Err("removed delegate is not active")
    else
      var id := l.body.removedDelegate;
      Ok(t.(delegates := t.delegates[id := t.delegates[id].(active := false, removedSeq := l.seqNo)]))
  }

  predicate RecipientReused(t: Trust, k: SecurityKey) {
    exists id | id in t.securityKeys :: t.securityKeys[id].key.recipient == k.recipient
  }

  function ApplySecurityKeyAdd(w: Ideal, t: Trust, l: Link): Result<Trust> {
    if !l.body.SecurityKeyAddBody? then Err("invalid body") else
    var k := l.body.securityKey;
    if !w.securityKeyOk(k) then Err("invalid security key")
    else if k.id in t.securityKeys then Err("security key id reused")
    else if RecipientReused(t, k) then Err("security key recipient reused")
    else if |ActiveSecurityKeyIds(t)| >= MAX_SECURITY_KEYS then Err("too many security keys")
    else Ok(t.(securityKeys := t.securityKeys[k.id := SecurityKeyState(k, true, l.ctime, l.seqNo, 0)]))
  }

  function ApplySecurityKeyRemove(t: Trust, l: Link): Result<Trust> {
    if !l.body.SecurityKeyRemoveBody? then Err("invalid body")
    else if l.body.removedKey !in t.securityKeys || !t.securityKeys[l.body.removedKey].active then
      Err("removed security key is not active")
    else
      var id := l.body.removedKey;
      Ok(t.(securityKeys := t.securityKeys[id := t.securityKeys[id].(active := false, removedSeq := l.seqNo)]))
  }

  /** Every listed device is active and no device is listed twice. */
  predicate KeepListOk(t: Trust, kept: seq<string>) {
    && (forall i | 0 <= i < |kept| :: ActiveDevice(t, kept[i]))
    && (forall i, j | 0 <= i < j < |kept| :: kept[i] != kept[j])
  }

  /** A new user key revokes every device it does not list and drops every slot and delegate. */
  function RevokeUnlisted(devices: map<string, DeviceState>, kept: set<string>, at: nat): map<string, DeviceState> {
    map id | id in devices ::
      if devices[id].active && id !in kept then devices[id].(active := false, revokedSeq := at) else devices[id]
  }

  function CloseSlots(slots: map<string, SlotState>): map<string, SlotState> {
    map id | id in slots :: slots[id].(active := false)
  }

  function DropDelegates(delegates: map<string, DelegateState>, at: nat): map<string, DelegateState> {
    map id | id in delegates ::
      if delegates[id].active then delegates[id].(active := false, removedSeq := at) else delegates[id]
  }

  function ApplyRotate(w: Ideal, t: Trust, e: Envelope, l: Link): Result<Trust> {
    if l.version != t.version + 1 then Err("rotation must advance the key version by one")
    else if !l.body.RotateBody? then Err("invalid body")
    else
      var b := l.body;
      match (ParseKey(b.newEnc), ParseKey(b.newSign))
      case (Some(enc), Some(sign)) =>
        if enc == t.encPub || sign == t.signPub then Err("rotation must replace both keys")
        else if !Require(w.crypto, e, KIND_LINK, [t.signPub, sign]) then Err("signature missing or invalid")
        else if b.kept == [] then Err("rotation must keep at least one device")
        else if !KeepListOk(t, b.kept) then Err("rotation lists an inactive or duplicate device")
        else
          Ok(t.(devices := RevokeUnlisted(t.devices, (set id | id in b.kept), l.seqNo),
                slots := CloseSlots(t.slots),
                delegates := DropDelegates(t.delegates, l.seqNo),
                version := l.version, encPub := enc, signPub := sign,
                epochs := t.epochs + [KeyEpoch(l.version, enc, sign, l.seqNo, l.ctime)]))
      case _ => Err("invalid key encoding")
  }

  function ApplyInit(w: Ideal, t: Trust, e: Envelope, l: Link): Result<Trust> {
    if l.typ != TypeInit || l.version != 1 then Err("chain must start with an init link for key version 1")
    else if !l.body.InitBody? then Err("invalid body")
    else
      var b := l.body;
      match (ParseKey(b.encPub), ParseKey(b.signPub), ParseKey(b.masterPub), ParseKey(b.masterSignPub))
      case (Some(enc), Some(sign), Some(master), Some(masterSign)) =>
        if !w.crypto.verify(masterSign, RootStatement(enc, sign, master), b.rootSig) then
          Err("root key is not authorized by the master signing key")
        else if !Require(w.crypto, e, KIND_LINK, [sign]) then Err("signature missing or invalid")
        else
          Ok(t.(version := 1, encPub := enc, signPub := sign, masterPub := master, masterSignPub := masterSign,
                epochs := [KeyEpoch(1, enc, sign, l.seqNo, l.ctime)]))
      case _ => Err("invalid key encoding")
  }

  /** The link types that leave the user key alone. */
  function ApplyUnderKey(w: Ideal, user: string, t: Trust, l: Link): Result<Trust> {
    match l.typ
    case TypeDeviceAdd => ApplyDeviceAdd(w, user, t, l)
    case TypeDeviceRevoke => ApplyDeviceRevoke(t, l)
    case TypeDeviceRename => ApplyDeviceRename(w, t, l)
    case TypeSlotAdd => ApplySlotAdd(w, t, l)
    case TypeSlotRemove => ApplySlotRemove(t, l)
    case TypeDelegateAdd => ApplyDelegateAdd(w, t, l)
    case TypeDelegateRemove => ApplyDelegateRemove(t, l)
    case TypeSecurityKeyAdd => ApplySecurityKeyAdd(w, t, l)
    case TypeSecurityKeyRemove => ApplySecurityKeyRemove(t, l)
    case _ => Err("unknown link type")
  }

  function Apply(w: Ideal, user: string, t: Trust, e: Envelope, l: Link): Result<Trust> {
    if l.typ == TypeInit then Err("init link after the start of the chain")
    else if l.typ == TypeRotate then ApplyRotate(w, t, e, l)
    else if l.version != t.version then Err("link names another key version")
    else if !Require(w.crypto, e, KIND_LINK, [t.signPub]) then Err("signature missing or invalid")
    else ApplyUnderKey(w, user, t, l)
  }

  /** The checks on a link's header: shape, user, position, back link and time. */
  function DecodeNext(w: Ideal, s: ChainState, e: Envelope): Result<Link> {
    if !e.Check() then Err("invalid envelope")
    else if e.kind != KIND_LINK then Err("not a chain link")
    else match w.parseLink(e.body)
    case None => Err("invalid body")
    case Some(l) =>
      if l.user != s.user then Err("link belongs to a different user")
      else if l.seqNo != s.seqNo + 1 || l.prev != Head(s) then Err("link is out of sequence")
      else if l.ctime == 0 then Err("link time missing")
      else if s.lastTime != 0 && l.ctime < s.lastTime - DAY then Err("link time goes backwards")
      else Ok(l)
  }

  /** What a link with a good header changes. */
  function Change(w: Ideal, user: string, t: Trust, e: Envelope, l: Link): Result<Trust> {
    if l.seqNo == 1 then ApplyInit(w, t, e, l) else Apply(w, user, t, e, l)
  }

  function Step(w: Ideal, s: ChainState, e: Envelope): Result<ChainState> {
    match DecodeNext(w, s, e)
    case Err(m) => Err(m)
    case Ok(l) =>
      match Change(w, s.user, s.trust, e, l)
      case Err(m) => Err(m)
      case Ok(t) => Ok(ChainState(s.user, l.seqNo, s.hashes + [Hash(w.crypto, e)], l.ctime, s.links + [l], t))
  }

  /** Every link in order, from the empty state. */
  function Replay(w: Ideal, user: string, links: seq<Envelope>): Result<ChainState> {
    if links == [] then Ok(New(user)) else
    match Replay(w, user, links[..|links| - 1])
    case Err(m) => Err(m)
    case Ok(s) => Step(w, s, links[|links| - 1])
  }

  function Verify(w: Ideal, user: string, links: seq<Envelope>): Result<ChainState> {
    if !w.userOk(user) then Err("invalid user id")
    else if |links| > MAX_LINKS then Err("chain too long")
    else Replay(w, user, links)
  }

  function CheckPin(s: ChainState, at: nat, hash: string): bool
    requires |s.hashes| == s.seqNo
  {
    at == 0 || (at <= s.seqNo && s.hashes[at - 1] == hash)
  }

  /** The user key current once the chain had n links: the newest epoch that starts no later. */
  function EpochAt(s: ChainState, n: nat): Option<KeyEpoch> {
    if n == 0 || n > s.seqNo then None else NewestBy(s.trust.epochs, n)
  }

  function NewestBy(epochs: seq<KeyEpoch>, n: nat): Option<KeyEpoch> {
    if epochs == [] then None
    else if epochs[|epochs| - 1].seqNo <= n then Some(epochs[|epochs| - 1])
    else NewestBy(epochs[..|epochs| - 1], n)
  }

  function DelegateAt(s: ChainState, id: string, n: nat): Option<DelegateState> {
    if id !in s.trust.delegates || n == 0 || n > s.seqNo then None else
    var d := s.trust.delegates[id];
    if d.addedSeq > n || (d.removedSeq != 0 && d.removedSeq <= n) then None else Some(d)
  }
}
