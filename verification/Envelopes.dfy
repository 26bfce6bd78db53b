/**
 Signed envelopes: a kind, the exact body bytes that were signed, and signatures over both.
 Ed25519 and SHA-256 are ideal functions handed to the model; what is signed and hashed is not.
 */
module Envelopes {
  import opened Wrappers

  const ENVELOPE_VERSION := 1
  const MAX_BODY := 65536
  const MAX_SIGNATURES := 8

  /** Keys are the hex text of their 32 bytes, in lower case. */
  type Key = string

  datatype Signature = Signature(key: string, sig: string)

  /** passkeyOk says the size limits on an optional passkey assertion hold. */
  datatype Envelope = Envelope(v: int, kind: string, body: string, sigs: seq<Signature>, passkeyOk: bool) {

    /** The structural check every reader makes first. */
    predicate Check() {
      && v == ENVELOPE_VERSION
      && KindOk(kind)
      && 0 < |body| <= MAX_BODY
      && |sigs| <= MAX_SIGNATURES
      && passkeyOk
    }
  }

  /** The two cryptographic primitives: a message digest and signature verification (key, message, signature). */
  datatype Crypto = Crypto(digest: string -> string, verify: (Key, string, string) -> bool)

  predicate LowerLetter(c: char) { 'a' <= c <= 'z' }

  predicate Digit(c: char) { '0' <= c <= '9' }

  predicate KindOk(kind: string) {
    && 1 <= |kind| <= 32
    && LowerLetter(kind[0])
    && forall i | 0 <= i < |kind| :: LowerLetter(kind[i]) || Digit(kind[i]) || kind[i] == '-'
  }

  function Message(kind: string, body: string): string {
    "esec-vault/" + kind + "/v1\n" + body
  }

  function Hash(c: Crypto, e: Envelope): string {
    c.digest(Message(e.kind, e.body))
  }

  predicate VerifiedBy(c: Crypto, e: Envelope, pub: Key) {
    exists i | 0 <= i < |e.sigs| :: e.sigs[i].key == pub && c.verify(pub, Message(e.kind, e.body), e.sigs[i].sig)
  }

  /** Structure, kind, and a valid signature by every key; no key at all is refused. */
  predicate Require(c: Crypto, e: Envelope, kind: string, keys: seq<Key>) {
    && e.Check()
    && e.kind == kind
    && keys != []
    && forall i | 0 <= i < |keys| :: VerifiedBy(c, e, keys[i])
  }

  /** A kind is up to 32 lower-case letters, digits and dashes, a letter first; bodies and signature lists are limited. */
  lemma CheckExactly(e: Envelope)
    ensures e.Check() <==>
      && e.v == 1 && e.passkeyOk && 1 <= |e.body| < 65537 && |e.sigs| < 9
      && 0 < |e.kind| < 33 && 'a' <= e.kind[0] && e.kind[0] <= 'z'
      && forall i | 0 < i < |e.kind| ::
           e.kind[i] == '-' || ('a' <= e.kind[i] && e.kind[i] <= 'z') || ('0' <= e.kind[i] && e.kind[i] <= '9')
  {
  }

  /** A check for signatures needs every one of the keys, and at least one. */
  lemma RequireExactly(c: Crypto, e: Envelope, kind: string, keys: seq<Key>)
    ensures Require(c, e, kind, keys) <==>
      && e.Check() && e.kind == kind && |keys| > 0
      && forall k | k in keys :: exists i | 0 <= i < |e.sigs| :: e.sigs[i].key == k && c.verify(k, "esec-vault/" + e.kind + "/v1\n" + e.body, e.sigs[i].sig)
  {
    if Require(c, e, kind, keys) {
      forall k | k in keys ensures VerifiedBy(c, e, k) {
      }
    } else if e.Check() && e.kind == kind && |keys| > 0 {
      var j :| 0 <= j < |keys| && !VerifiedBy(c, e, keys[j]);
      assert keys[j] in keys;
    }
  }

  /** Two envelopes carry the same signed message; their signature lists may differ. */
  predicate SameMessage(a: Envelope, b: Envelope) {
    a.kind == b.kind && a.body == b.body
  }

  ghost predicate Injective(f: string -> string) {
    forall x, y {:trigger f(x), f(y)} :: f(x) == f(y) ==> x == y
  }

  /**
   Domain separation: a kind holds no '/', so the signed message determines kind and body.
   A signature made for one kind is never one for another.
   */
  lemma MessageInjective(k: string, b: string, k': string, b': string)
    requires KindOk(k) && KindOk(k')
    requires Message(k, b) == Message(k', b')
    ensures k == k' && b == b'
  {
    var head := "esec-vault/";
    var m, m' := k + "/v1\n" + b, k' + "/v1\n" + b';
    assert Message(k, b) == head + m && Message(k', b') == head + m';
    assert m == (head + m)[|head|..] == (head + m')[|head|..] == m';
    assert m[|k|] == '/' && m'[|k'|] == '/';
    assert forall i | 0 <= i < |k| :: m[i] == k[i] != '/';
    assert forall i | 0 <= i < |k'| :: m'[i] == k'[i] != '/';
    assert |k| == |k'|;
    assert k == m[..|k|] == k';
    assert b == m[|k| + 4..];
    assert b' == m'[|k'| + 4..];
  }

  /** Under an injective digest, equal hashes of well-formed envelopes mean the same signed message. */
  lemma HashDeterminesMessage(c: Crypto, a: Envelope, b: Envelope)
    requires Injective(c.digest)
    requires a.Check() && b.Check() && Hash(c, a) == Hash(c, b)
    ensures SameMessage(a, b)
  {
    MessageInjective(a.kind, a.body, b.kind, b.body);
  }

  /** An envelope of the same message by other hands still hashes the same: countersigning changes nothing a chain refers to. */
  lemma CountersigningKeepsHash(c: Crypto, e: Envelope, s: Signature)
    ensures Hash(c, e.(sigs := e.sigs + [s])) == Hash(c, e)
    ensures forall k :: VerifiedBy(c, e, k) ==> VerifiedBy(c, e.(sigs := e.sigs + [s]), k)
  {
    var e' := e.(sigs := e.sigs + [s]);
    forall k | VerifiedBy(c, e, k) ensures VerifiedBy(c, e', k) {
      var i :| 0 <= i < |e.sigs| && e.sigs[i].key == k && c.verify(k, Message(e.kind, e.body), e.sigs[i].sig);
      assert e'.sigs[i] == e.sigs[i];
    }
  }
}
