/**
 The hypotheses the main results rest on can be met: for each, one instance. The instances are not secure, only
 consistent; they show that no result holds for want of anything to hold of.
 */
module Witnesses {
  import opened Wrappers
  import E = Envelopes
  import C = DeviceChain
  import H = ChainHistory
  import R = Revocation
  import A = Archive
  import M = ArchiveMerge
  import Account
  import opened KeyVault
  import opened Inventory
  import opened KeyMerge
  import Convergence
  import EnvNames
  import Ordering
  import I = ImportKeys

  // ----- text without NUL, and lists as text -----

  function Escape(s: string): string {
    if s == "" then "" else (if s[0] == '\0' then "\\0" else if s[0] == '\\' then "\\\\" else [s[0]]) + Escape(s[1..])
  }

  function Unescape(t: string): string {
    if t == "" then ""
    else if t[0] == '\\' && |t| >= 2 then [if t[1] == '0' then '\0' else '\\'] + Unescape(t[2..])
    else [t[0]] + Unescape(t[1..])
  }

  lemma {:induction false} EscapeOk(s: string)
    ensures A.Clear(Escape(s)) && Unescape(Escape(s)) == s
  {
    if s != "" {
      EscapeOk(s[1..]);
      var rest := Escape(s[1..]);
      if s[0] == '\0' || s[0] == '\\' {
        assert Escape(s)[2..] == rest;
      } else {
        assert Escape(s)[1..] == rest;
      }
    }
  }

  lemma EscapeInjective(a: string, b: string)
    requires Escape(a) == Escape(b)
    ensures a == b
  {
    EscapeOk(a);
    EscapeOk(b);
  }

  function Flatten(l: seq<string>): string {
    if l == [] then "" else Escape(l[0]) + A.NUL + Flatten(l[1..])
  }

  lemma {:induction false} FlattenInjective(a: seq<string>, b: seq<string>)
    requires Flatten(a) == Flatten(b)
    ensures a == b
  {
    if a != [] && b != [] {
      EscapeOk(a[0]);
      EscapeOk(b[0]);
      A.SplitAtNul(Escape(a[0]), Flatten(a[1..]), Escape(b[0]), Flatten(b[1..]));
      EscapeInjective(a[0], b[0]);
      FlattenInjective(a[1..], b[1..]);
      assert a == [a[0]] + a[1..] && b == [b[0]] + b[1..];
    }
  }

  /** Keys and values in turn. */
  function FromList(l: seq<string>): map<string, string> {
    if |l| < 2 then map[] else FromList(l[2..])[l[0] := l[1]]
  }

  lemma {:induction false} ListExists(m: map<string, string>) returns (l: seq<string>)
    ensures FromList(l) == m
    decreases |m|
  {
    if m == map[] {
      l := [];
    } else {
      var k :| k in m;
      var rest := ListExists(m - {k});
      l := [k, m[k]] + rest;
      assert l[2..] == rest;
    }
  }

  ghost function Listing(m: map<string, string>): (l: seq<string>)
    ensures FromList(l) == m
  {
    assert exists l :: FromList(l) == m by { var l := ListExists(m); }
    var l :| FromList(l) == m;
    l
  }

  // ----- the archive -----

  /** An archive's hypotheses hold of an escaping digest, a listing and a cipher that does nothing. */
  lemma FaithfulIdeal() returns (h: A.Ideal)
    ensures A.Faithful(h) && forall path, kind :: h.safe(path, kind)
  {
    h := A.Ideal((x: string) => "d" + Escape(x), (m: map<string, string>) => Flatten(Listing(m)),
                 (key: string, nonce: string, data: string) => data, (key: string, blob: string) => Some(blob),
                 (path: string, kind: string) => true);
    forall x, y {:trigger h.digest(x), h.digest(y)} | h.digest(x) == h.digest(y) ensures x == y {
      assert ("d" + Escape(x))[1..] == Escape(x) && ("d" + Escape(y))[1..] == Escape(y);
      EscapeInjective(x, y);
    }
    forall x ensures h.digest(x) != "" && A.Clear(h.digest(x)) {
      EscapeOk(x);
    }
    forall x, y {:trigger h.encode(x), h.encode(y)} | h.encode(x) == h.encode(y) ensures x == y {
      FlattenInjective(Listing(x), Listing(y));
    }
  }

  const FILE: map<string, string> := map["esec.toml" := "a"]
  const VISIT := A.Visit(A.Reading("p", "o", FILE, FILE, FILE, FILE, "device", "caption", 1), ["esec.toml"])

  /** And a checkout with a file can be read and recorded under them. */
  lemma RecordedVisit() returns (h: A.Ideal, v: A.Visit)
    ensures A.Faithful(h) && A.VisitOk(h, v) && v.c.contents != map[]
    ensures A.VisitsOk(h, [v]) && A.LastRecorded(h, [v], 0)
  {
    hide A.Faithful, A.Record, A.Run, A.LastRecorded;
    h := FaithfulIdeal();
    v := VISIT;
    assert "esec.toml" in FILE && FILE != map[];
    RecordsFirst(h);
    OnlyVisit(h, v);
  }

  const OTHER_FILE: map<string, string> := map["esec.toml" := "b"]
  const OTHER_VISIT := A.Visit(A.Reading("p", "o", OTHER_FILE, FILE, FILE, FILE, "device", "caption", 2), ["esec.toml"])

  /** Two visits that a lost base lets fork: the server ends with two first captures of one checkout. */
  lemma ForkedServer() returns (h: A.Ideal)
    ensures A.Faithful(h) && A.VisitOk(h, VISIT) && A.VisitOk(h, OTHER_VISIT)
    ensures !A.Numbered(M.CopyOf(M.Run(h, M.LostBase(VISIT, OTHER_VISIT)), "server").captures)
  {
    hide A.Faithful, M.Run, A.Numbered;
    h := FaithfulIdeal();
    assert "esec.toml" in FILE && "esec.toml" in OTHER_FILE && FILE["esec.toml"] != OTHER_FILE["esec.toml"];
    M.LostBaseMerges(h, VISIT, OTHER_VISIT);
  }

  const TWO_FILES: map<string, string> := map["esec.toml" := "a", "b.env" := "b"]
  const LATER_VISIT := A.Visit(A.Reading("p", "o", TWO_FILES, TWO_FILES, TWO_FILES, TWO_FILES, "device", "caption", 2), ["esec.toml", "b.env"])

  /** And two it does not: one file is unchanged, and no merge of the two copies succeeds until one of them is lost. */
  lemma RefusedFork(more: seq<M.Event>) returns (h: A.Ideal)
    requires forall e | e in more :: e != M.Lose("server") && e != M.Lose("device")
    ensures A.Faithful(h) && A.VisitOk(h, VISIT) && A.VisitOk(h, LATER_VISIT)
    ensures var w := M.Run(h, M.LostBase(VISIT, LATER_VISIT)[..4] + more);
      M.Join(M.CopyOf(w, "server"), M.CopyOf(w, "device")).None?
  {
    hide A.Faithful, M.Run, M.Join, M.CopyOf;
    h := FaithfulIdeal();
    assert "esec.toml" in FILE && "b.env" in TWO_FILES && "b.env" !in FILE && "esec.toml" in TWO_FILES;
    SharesFile(h);
    M.LostBaseRefused(h, VISIT, LATER_VISIT);
    var es := M.LostBase(VISIT, LATER_VISIT)[..4] + more;
    assert es[..4] == M.LostBase(VISIT, LATER_VISIT)[..4];
    forall i | 4 <= i < |es| ensures es[i] in more {
      assert es[i] == more[i - 4];
    }
    M.StillRefused(h, es, 4, "server", "device");
  }

  lemma SharesFile(h: A.Ideal)
    ensures M.SharedFile(h, VISIT.c, LATER_VISIT.c, "esec.toml")
  {
  }

  lemma RecordsFirst(h: A.Ideal)
    ensures A.Record(h, A.Store(map[], map[], map[]), VISIT.c, VISIT.order).Ok?
  {
    hide A.Revision, A.CaptureId;
    var nothing := A.Store(map[], map[], map[]);
    assert VISIT.order[..0] == [];
    assert A.ArchiveAll(h, nothing, VISIT.c, ["esec.toml"]) == A.ArchiveRevision(h, nothing, VISIT.c, "esec.toml");
  }

  lemma OnlyVisit(h: A.Ideal, v: A.Visit)
    requires A.VisitOk(h, v) && A.Record(h, A.Store(map[], map[], map[]), v.c, v.order).Ok?
    ensures A.LastRecorded(h, [v], 0)
  {
    hide A.Record;
    assert [v][..0] == [];
    assert A.Run(h, []) == A.Store(map[], map[], map[]);
  }

  // ----- the chain -----

  function Digits(c: char): string {
    seq(64, _ => c)
  }

  lemma DigitsParse(c: char)
    requires '1' <= c <= '9'
    ensures C.ParseKey(Digits(c)) == Some(Digits(c))
  {
    assert Digits(c)[0] != '0';
    assert C.LowerHex(Digits(c)) == Digits(c);
  }

  const FIRST := C.Link(1, "", 1, C.TypeInit, "u", 1, C.InitBody(Digits('1'), Digits('2'), Digits('3'), Digits('4'), "root"))
  const FIRST_ENVELOPE := E.Envelope(1, C.KIND_LINK, "0", [E.Signature(Digits('2'), "s")], true)
  const SECOND := C.Link(2, E.Message(C.KIND_LINK, "0"), 2, C.TypeSlotAdd, "u", 1, C.SlotAddBody("slot", "fp", 10))
  const SECOND_ENVELOPE := E.Envelope(1, C.KIND_LINK, "1", [E.Signature(Digits('2'), "s")], true)

  /** Texts are their own digests, and only the two links and the root statement have signatures. */
  function SmallIdeal(): C.Ideal {
    C.Ideal(
      E.Crypto((x: string) => x,
        (k: E.Key, m: string, s: string) =>
          (s == "s" && (m == E.Message(C.KIND_LINK, "0") || m == E.Message(C.KIND_LINK, "1")))
          || (s == "root" && m == C.RootStatement(Digits('1'), Digits('2'), Digits('3')))),
      (text: string) => if text == "0" then Some(FIRST) else if text == "1" then Some(SECOND) else None,
      (text: string) => None, (user: string) => true, (d: C.Device) => true, (name: string) => true,
      (id: string) => true, (fp: string) => true, (d: C.Delegate) => true, (k: C.SecurityKey) => true)
  }

  lemma LinkKindOk()
    ensures E.KindOk(C.KIND_LINK)
  {
    var k := C.KIND_LINK;
    assert k == ['c', 'h', 'a', 'i', 'n', '-', 'l', 'i', 'n', 'k'];
  }

  lemma InjectiveDigest()
    ensures E.Injective(SmallIdeal().crypto.digest)
  {
  }

  lemma FirstAccepted()
    ensures C.Step(SmallIdeal(), C.New("u"), FIRST_ENVELOPE).Ok?
    ensures var s := C.Step(SmallIdeal(), C.New("u"), FIRST_ENVELOPE).value;
      && s.user == "u" && s.seqNo == 1 && s.hashes == [E.Message(C.KIND_LINK, "0")] && s.lastTime == 1
      && s.trust.version == 1 && s.trust.signPub == Digits('2') && s.trust.slots == map[]
  {
    var w := SmallIdeal();
    LinkKindOk();
    DigitsParse('1');
    DigitsParse('2');
    DigitsParse('3');
    DigitsParse('4');
    hide C.ParseKey, E.KindOk;
    assert E.VerifiedBy(w.crypto, FIRST_ENVELOPE, Digits('2')) by { assert FIRST_ENVELOPE.sigs[0].key == Digits('2'); }
    assert C.DecodeNext(w, C.New("u"), FIRST_ENVELOPE) == Ok(FIRST);
  }

  lemma SecondAccepted(s: C.ChainState)
    requires C.Step(SmallIdeal(), C.New("u"), FIRST_ENVELOPE) == Ok(s)
    ensures C.Step(SmallIdeal(), s, SECOND_ENVELOPE).Ok?
  {
    var w := SmallIdeal();
    LinkKindOk();
    FirstAccepted();
    hide C.ApplyInit, E.KindOk;
    assert E.VerifiedBy(w.crypto, SECOND_ENVELOPE, Digits('2')) by { assert SECOND_ENVELOPE.sigs[0].key == Digits('2'); }
    assert C.DecodeNext(w, s, SECOND_ENVELOPE) == Ok(SECOND);
  }

  /** A chain of two links is accepted, and no other envelope of a link verifies under its keys. */
  lemma HonestChain() returns (w: C.Ideal, honest: seq<E.Envelope>)
    ensures |honest| == 2 && H.Accepts(w, "u", honest) && E.Injective(w.crypto.digest)
    ensures H.Unforgeable(w, H.UserKeys(H.StateOf(w, "u", honest)), honest)
  {
    hide C.Step;
    w, honest := SmallIdeal(), [FIRST_ENVELOPE, SECOND_ENVELOPE];
    FirstAccepted();
    SecondAccepted(C.Step(w, C.New("u"), FIRST_ENVELOPE).value);
    assert honest[..1] == [FIRST_ENVELOPE] && honest[..1][..0] == [];
    assert C.Replay(w, "u", honest[..1]) == C.Step(w, C.New("u"), FIRST_ENVELOPE);
    InjectiveDigest();
    forall e: E.Envelope, k: E.Key {:trigger E.VerifiedBy(w.crypto, e, k)} | e.kind == C.KIND_LINK && E.VerifiedBy(w.crypto, e, k)
      ensures H.Within(e, honest)
    {
      OnlyTwoVerify(e, k);
      assert E.SameMessage(e, honest[0]) || E.SameMessage(e, honest[1]);
    }
  }

  lemma OnlyTwoVerify(e: E.Envelope, k: E.Key)
    requires e.kind == C.KIND_LINK && E.VerifiedBy(SmallIdeal().crypto, e, k)
    ensures e.body == "0" || e.body == "1"
  {
    var m := E.Message(e.kind, e.body);
    LinkKindOk();
    var root := C.RootStatement(Digits('1'), Digits('2'), Digits('3'));
    assert m[10] == '/' && root[10] == ' ';
    if m == E.Message(C.KIND_LINK, "0") {
      E.MessageInjective(e.kind, e.body, C.KIND_LINK, "0");
    } else {
      E.MessageInjective(e.kind, e.body, C.KIND_LINK, "1");
    }
  }

  // ----- building links -----

  function Count(n: nat): string {
    seq(n, _ => '1')
  }

  lemma CountInjective(m: nat, n: nat)
    requires Count(m) == Count(n)
    ensures m == n
  {
    assert |Count(m)| == m && |Count(n)| == n;
  }

  function Signed(i: int): string {
    if i < 0 then "-" + Count(-i) else Count(i)
  }

  lemma SignedInjective(i: int, j: int)
    requires Signed(i) == Signed(j)
    ensures i == j
  {
    assert i >= 0 ==> |Signed(i)| == i && (i > 0 ==> Signed(i)[0] == '1');
    assert j >= 0 ==> |Signed(j)| == j && (j > 0 ==> Signed(j)[0] == '1');
  }

  function Fields(l: C.Link): seq<string>
    requires R.Built(l)
  {
    [Count(l.seqNo), l.prev, Signed(l.ctime), l.user, Count(l.version)] +
    match l.body
    case DeviceRevokeBody(revoked) => ["revoke", revoked]
    case RotateBody(enc, sign, kept) => ["rotate", enc, sign] + kept
  }

  lemma FieldsInjective(l: C.Link, m: C.Link)
    requires R.Built(l) && R.Built(m) && Fields(l) == Fields(m)
    ensures l == m
  {
    var f, g := Fields(l), Fields(m);
    assert f[0] == g[0] && f[1] == g[1] && f[2] == g[2] && f[3] == g[3] && f[4] == g[4] && f[5] == g[5] && f[6] == g[6];
    CountInjective(l.seqNo, m.seqNo);
    SignedInjective(l.ctime, m.ctime);
    CountInjective(l.version, m.version);
    if l.body.RotateBody? {
      assert f[7] == l.body.newSign && g[7] == m.body.newSign;
      assert f[8..] == l.body.kept && g[8..] == m.body.kept;
    }
  }

  function LinkText(l: C.Link): string {
    if R.Built(l) then Flatten(Fields(l)) else ""
  }

  ghost function ReadLink(text: string): Option<C.Link> {
    if exists l :: R.Built(l) && LinkText(l) == text then
      var l :| R.Built(l) && LinkText(l) == text; Some(l)
    else None
  }

  lemma LinkReads(l: C.Link)
    requires R.Built(l)
    ensures ReadLink(LinkText(l)) == Some(l)
  {
    var m := ReadLink(LinkText(l)).value;
    FlattenInjective(Fields(l), Fields(m));
    FieldsInjective(l, m);
  }

  /** Links can be encoded so that decoding gives them back. */
  lemma EncodingSealer() returns (w: C.Ideal, seal: R.Sealer)
    ensures R.Encodes(w, seal)
  {
    w := SmallIdeal().(parseLink := (text: string) => ReadLink(text));
    seal := (l: C.Link, ks: seq<E.Key>) => E.Envelope(1, C.KIND_LINK, LinkText(l), [], true);
    forall l, ks {:trigger seal(l, ks)} | R.Built(l) ensures w.parseLink(seal(l, ks).body) == Some(l) {
      LinkReads(l);
    }
  }

  // ----- the vault -----

  lemma {:induction false} SomeOrder(names: set<string>) returns (order: seq<string>)
    ensures Account.Orders(order, names)
  {
    if n :| n in names {
      var rest := SomeOrder(names - {n});
      order := [n] + rest;
    } else {
      order := [];
    }
  }

  ghost function Ordered(names: set<string>): (order: seq<string>)
    ensures Account.Orders(order, names)
  {
    assert exists order :: Account.Orders(order, names) by { var order := SomeOrder(names); }
    var order :| Account.Orders(order, names);
    order
  }

  /** Names can be put in order. */
  lemma SomeSorter() returns (sort: Account.Sorter)
    ensures Account.Sorts(sort)
  {
    sort := (names: set<string>) => Ordered(names);
  }

  /** A key under an environment's name and its own. */
  function Keyring(env: string, pub: Pub): Entries {
    map[KeyAlias("_" + env) := Private(pub), PubEntry(pub) := Private(pub)]
  }

  lemma KeyringLive(env: string, pub: Pub)
    requires SuffixOk(env)
    ensures Convergence.Live(EMPTY_CATALOG, "p", Keyring(env, pub))
  {
    var e := Keyring(env, pub);
    assert ("_" + env)[1..] == env;
    assert ToFile(e) == {};
    forall n | n in e ensures Convergence.LiveAt(EMPTY_CATALOG, "p", e, n) {
    }
  }

  /** Two devices that each add a key to an empty project have edited it apart. */
  lemma TwoEditors() returns (v: Vault, l: Projects, r: Projects)
    ensures Convergence.Apart(v, l, r) && l != r && l != v.projects && r != v.projects
  {
    v := Vault(map["p" := map[]], Some(EMPTY_CATALOG), 1);
    l, r := map["p" := Keyring("A", "1")], map["p" := Keyring("B", "2")];
    KeyringLive("A", "1");
    KeyringLive("B", "2");
    NothingLive();
    forall p: string ensures Convergence.EditedApart(EntriesOf(v.projects, p), EntriesOf(l, p), EntriesOf(r, p)) {
      if p == "p" { AddedApart(); } else { NothingApart(); }
    }
    assert ("_" + "A")[1] != ("_" + "B")[1];
    assert KeyAlias("_" + "A") in l["p"] && KeyAlias("_" + "A") !in r["p"] && KeyAlias("_" + "B") in r["p"];
  }

  lemma NothingLive()
    ensures Convergence.Live(EMPTY_CATALOG, "p", map[])
  {
    assert ToFile(map[]) == {};
  }

  lemma NothingApart()
    ensures Convergence.EditedApart(map[], map[], map[])
  {
  }

  lemma AddedApart()
    ensures Convergence.EditedApart(map[], Keyring("A", "1"), Keyring("B", "2"))
  {
    assert ("_" + "A")[1] != ("_" + "B")[1] && "1"[0] != "2"[0];
    forall n: Name ensures Convergence.NameApart(map[], Keyring("A", "1"), Keyring("B", "2"), n) {
    }
  }

  // ----- keyrings, vaults and devices -----

  const SEALED: Entries := map[GuardEntry("3") := Plain("sealed")]

  /** Two regular keyrings whose merge changes the first and is written. */
  lemma RegularMerge()
    ensures Regular(Keyring("A", "1")) && Regular(SEALED)
    ensures Changes(Unattended, "p", Keyring("A", "1"), SEALED, map[])
    ensures Kept(Keyring("A", "1"), FileKeys(Merged(Unattended, "p", Keyring("A", "1"), SEALED, map[])))
  {
    var local := Keyring("A", "1");
    WriteAcceptedExactly(Unattended, "p", local, SEALED, map[]);
    assert Decide(Unattended, "p", local, SEALED, map[], GuardEntry("3")) == Take;
    assert GuardEntry("3") in Taken(Unattended, "p", local, SEALED, map[]);
  }

  /** A device with a keyring, a base and a pending revision, of which every key is filed right. */
  lemma UsedDevice(own: set<KeyRecord>) returns (d: Account.Device)
    ensures Account.DeviceOk(own, d) && d.ks != map[] && d.base.Some? && d.pending.Some?
    ensures Collect(d.base, d.pending, None, d.ks, None).Ok?
  {
    var ks := map["p" := Keyring("A", "1")];
    var v := Vault(ks, Some(EMPTY_CATALOG), 1);
    d := Account.Device(ks, Some(v), Some(v), map[], Account.Pin(1, 1), {});
    assert [v, v][..1] == [v] && [v][..0] == [] && Present(d.base) + Present(d.pending) + Present(None) == [v, v];
    assert Gather([v]).Ok?;
    assert "p" in ks;
  }

  // ----- imports -----

  /** A project with one environment, whose key is granted. */
  lemma GrantedKey() returns (t: I.Project, keys: map<string, Value>)
    ensures I.ValidNames(t) && I.Granted(t, keys) && I.OwnSlots(t, keys) && "dev" in keys
  {
    t := I.Project(map["dev" := I.Env("1", [])], env => false);
    keys := map["dev" := Private("1")];
    EnvNames.SlotByName("dev", "1");
  }

  /**
   A project that endangers a key: the development environment had it before, and so had another environment, which
   is called like it. A device that holds it under the first one's name only loses it.
   */
  lemma EndangeredKey() returns (t: I.Project)
    ensures I.ValidNames(t) && I.Endangered(t, Digits('f'))
    ensures I.Endangers(t, "dev", Digits('f'), Digits('f'))
  {
    var x := Digits('f');
    t := I.Project(map["dev" := I.Env("1", [x]), x := I.Env("2", [x])], env => false);
    assert EnvNames.ValidEnv("dev") && EnvNames.ValidEnv(x);
    assert Ordering.Before("dev", x) by { assert "dev"[0] < x[0]; }
    EnvNames.SlotByName("dev", x);
    EnvNames.SlotByName(x, x);
    assert |x| != |"1"| && |x| != |"2"|;
    assert I.GivesUp(t, "dev", x) && I.GivesUp(t, x, x);
    assert I.Endangers(t, "dev", x, x);
  }
}
