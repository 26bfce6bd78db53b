/**
 Keyring entry names as text. The rest of the model works on parsed names; here parsing is shown to lose
 nothing, and the kinds of names to be the ones the program tells apart by prefixes and patterns.
 */
module Names {
  import opened KeyVault
  import opened KeyMerge

  const KEY := "ESEC_PRIVATE_KEY"
  const GUARD := "ESEC_GUARD_"
  const GUARD_ENV := "ESEC_GUARD_ENV_"
  const PUB_LENGTH := 64

  predicate UpperHex(c: char) { '0' <= c <= '9' || 'A' <= c <= 'F' }

  predicate LowerHex(c: char) { '0' <= c <= '9' || 'a' <= c <= 'f' }

  /** A public key as it is written everywhere but in entry names. */
  predicate IsPub(pub: string) {
    |pub| == PUB_LENGTH && forall i | 0 <= i < |pub| :: LowerHex(pub[i])
  }

  function UpperChar(c: char): char {
    if 'a' <= c <= 'z' then c - 'a' + 'A' else c
  }

  function Upper(s: string): string {
    seq(|s|, i requires 0 <= i < |s| => UpperChar(s[i]))
  }

  predicate Follows(prefix: string, t: string) {
    |prefix| <= |t| && t[..|prefix|] == prefix
  }

  predicate HexAfter(prefix: string, t: string) {
    Follows(prefix, t) && |t| == |prefix| + PUB_LENGTH && forall i | |prefix| <= i < |t| :: UpperHex(t[i])
  }

  predicate IsPubEntry(t: string) { HexAfter(KEY + "_", t) }

  predicate IsGuardEntry(t: string) { HexAfter(GUARD, t) }

  function Parse(t: string): Name {
    if IsPubEntry(t) then PubEntry(Lower(t[|KEY| + 1..]))
    else if Follows(KEY, t) then KeyAlias(t[|KEY|..])
    else if IsGuardEntry(t) then GuardEntry(Lower(t[|GUARD|..]))
    else if Follows(GUARD_ENV, t) then GuardEnv(t[|GUARD_ENV|..])
    else if t == "ESEC_GUARD_IDENTITY" then GuardIdentity
    else if t == "ESEC_GUARD_RECIPIENT" then GuardRecipient
    else if t == "ESEC_GUARD_HOLDERS" then GuardHolders
    else if Follows(GUARD, t) then GuardOther(t[|GUARD|..])
    else if t == "ESEC_ACTIVE_KEY" then ActiveKey
    else if t == "ESEC_ACTIVE_ENVIRONMENT" then ActiveEnvironment
    else Foreign(t)
  }

  function Render(n: Name): string {
    match n
    case PubEntry(pub) => KEY + "_" + Upper(pub)
    case KeyAlias(rest) => KEY + rest
    case GuardEntry(pub) => GUARD + Upper(pub)
    case GuardEnv(rest) => GUARD_ENV + rest
    case GuardIdentity => "ESEC_GUARD_IDENTITY"
    case GuardRecipient => "ESEC_GUARD_RECIPIENT"
    case GuardHolders => "ESEC_GUARD_HOLDERS"
    case GuardOther(rest) => GUARD + rest
    case ActiveKey => "ESEC_ACTIVE_KEY"
    case ActiveEnvironment => "ESEC_ACTIVE_ENVIRONMENT"
    case Foreign(text) => text
  }

  lemma UpperLower(t: string)
    requires forall i | 0 <= i < |t| :: UpperHex(t[i])
    ensures Upper(Lower(t)) == t
  {
  }

  lemma LowerUpper(pub: string)
    requires forall i | 0 <= i < |pub| :: LowerHex(pub[i])
    ensures Lower(Upper(pub)) == pub && forall i | 0 <= i < |pub| :: UpperHex(Upper(pub)[i])
  {
  }

  lemma Rejoin(prefix: string, t: string)
    requires Follows(prefix, t)
    ensures prefix + t[|prefix|..] == t
  {
  }

  /** Parsing loses nothing: no two texts are one name. */
  lemma RenderParse(t: string)
    ensures Render(Parse(t)) == t
  {
    if IsPubEntry(t) {
      UpperLower(t[|KEY| + 1..]);
      Rejoin(KEY + "_", t);
    } else if Follows(KEY, t) {
      Rejoin(KEY, t);
    } else if IsGuardEntry(t) {
      UpperLower(t[|GUARD|..]);
      Rejoin(GUARD, t);
    } else if Follows(GUARD_ENV, t) {
      Rejoin(GUARD_ENV, t);
    } else if Follows(GUARD, t) {
      Rejoin(GUARD, t);
    }
  }

  lemma FollowsJoin(prefix: string, rest: string)
    ensures Follows(prefix, prefix + rest) && (prefix + rest)[|prefix|..] == rest
  {
  }

  /** The entry that files a key, and the one that holds its guarded form, determine the public key. */
  lemma EntriesDeterminePub(pub: Pub)
    requires IsPub(pub)
    ensures Parse(Render(PubEntry(pub))) == PubEntry(pub)
    ensures Parse(Render(GuardEntry(pub))) == GuardEntry(pub)
  {
    LowerUpper(pub);
    FollowsJoin(KEY + "_", Upper(pub));
    FollowsJoin(GUARD, Upper(pub));
    assert Render(GuardEntry(pub))[0..16] != KEY by { assert Render(GuardEntry(pub))[5] == 'G'; }
  }

  /** The kinds of names are those told apart by prefix and pattern. */
  lemma KindsByText(t: string)
    ensures Parse(t).IsKey() <==> Follows(KEY, t)
    ensures Parse(t).PubEntry? <==> IsPubEntry(t)
    ensures Parse(t).GuardEntry? <==> IsGuardEntry(t)
    ensures Parse(t).IsAlias() <==>
      || (Follows(KEY, t) && !IsPubEntry(t)) || Follows(GUARD_ENV, t) || t == "ESEC_ACTIVE_KEY" || t == "ESEC_ACTIVE_ENVIRONMENT"
    ensures Parse(t).IsGuardUnit() <==> t in {"ESEC_GUARD_IDENTITY", "ESEC_GUARD_RECIPIENT", "ESEC_GUARD_HOLDERS"}
  {
    if IsPubEntry(t) { Shorter(KEY, "_", t); }
    if Follows(GUARD_ENV, t) { assert t[5] == 'G' && t[13] == 'V'; }
    if Follows(GUARD, t) { assert t[5] == 'G'; }
    if Follows(KEY, t) { assert t[5] == 'P'; }
  }

  lemma Shorter(a: string, b: string, t: string)
    requires Follows(a + b, t)
    ensures Follows(a, t)
  {
    assert t[..|a|] == t[..|a + b|][..|a|];
  }

  /** The pattern of names a vault may write: a key, a key's suffix, a guard's suffix, or an active name. */
  predicate Writable(t: string) {
    || t == KEY || (Follows(KEY + "_", t) && SuffixOk(t[|KEY| + 1..]))
    || (Follows(GUARD, t) && SuffixOk(t[|GUARD|..]))
    || t == "ESEC_ACTIVE_KEY" || t == "ESEC_ACTIVE_ENVIRONMENT"
  }

  lemma WritableKey(t: string)
    requires Follows(KEY, t)
    ensures EntryNameOk(Parse(t)) <==> Writable(t)
  {
    hide SuffixOk, Lower;
    assert t[5] == 'P';
    Rejoin(KEY, t);
    if IsPubEntry(t) {
      HexIsSuffix(t[|KEY| + 1..]);
    } else if |t| > |KEY| {
      assert t[|KEY|..][0] == '_' <==> Follows(KEY + "_", t);
      assert t[|KEY|..][1..] == t[|KEY| + 1..];
    } else {
      assert t == KEY;
    }
  }

  lemma WritableGuard(t: string)
    requires Follows(GUARD, t)
    ensures EntryNameOk(Parse(t)) <==> Writable(t)
  {
    hide SuffixOk, Lower;
    assert t[5] == 'G';
    GuardSuffixes();
    if IsGuardEntry(t) {
      HexIsSuffix(t[|GUARD|..]);
    } else if Follows(GUARD_ENV, t) {
      assert t[|GUARD|..] == "ENV_" + t[|GUARD_ENV|..];
    }
  }

  lemma HexIsSuffix(s: string)
    requires |s| == PUB_LENGTH && forall i | 0 <= i < |s| :: UpperHex(s[i])
    ensures SuffixOk(s)
  {
  }

  lemma WritableByText(t: string)
    ensures EntryNameOk(Parse(t)) <==> Writable(t)
  {
    hide SuffixOk, Lower;
    if Follows(KEY, t) {
      WritableKey(t);
    } else if Follows(GUARD, t) {
      WritableGuard(t);
    } else {
      if Follows(GUARD_ENV, t) { Shorter(GUARD, "ENV_", t); }
      if Follows(KEY + "_", t) { Shorter(KEY, "_", t); }
    }
  }

  lemma GuardSuffixes()
    ensures "ESEC_GUARD_IDENTITY"[|GUARD|..] == "IDENTITY" && SuffixOk("IDENTITY")
    ensures "ESEC_GUARD_RECIPIENT"[|GUARD|..] == "RECIPIENT" && SuffixOk("RECIPIENT")
    ensures "ESEC_GUARD_HOLDERS"[|GUARD|..] == "HOLDERS" && SuffixOk("HOLDERS")
    ensures Follows(GUARD, "ESEC_GUARD_IDENTITY") && Follows(GUARD, "ESEC_GUARD_RECIPIENT") && Follows(GUARD, "ESEC_GUARD_HOLDERS")
  {
  }
}
