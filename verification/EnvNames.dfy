/** Names of a project's environments, and the keyring entry that names each one's key. */
module EnvNames {
  import opened KeyVault
  import opened Ordering
  import Names

  const MAX_NAME := 64

  predicate NameChar(c: char) { 'a' <= c <= 'z' || '0' <= c <= '9' }

  /** Dot-separated lower-case letters and digits. */
  predicate ValidEnv(env: string) {
    && 0 < |env| <= MAX_NAME && env[0] != '.' && env[|env| - 1] != '.'
    && (forall i | 0 <= i < |env| :: NameChar(env[i]) || env[i] == '.')
    && forall i | 0 < i < |env| :: env[i - 1] != '.' || env[i] != '.'
  }

  function Underscored(env: string): string {
    seq(|env|, i requires 0 <= i < |env| => if env[i] == '.' then '_' else env[i])
  }

  /** The entry's text: ESEC_PRIVATE_KEY_ and the name in capitals, its dots made underscores. */
  function EnvKey(env: string): string {
    Names.KEY + "_" + Names.Upper(Underscored(env))
  }

  /** The entry: an alias, unless the name reads as a public key. */
  function Slot(env: string): (n: Name)
    ensures n.KeyAlias? || n.PubEntry?
  {
    KeyEntry(EnvKey(env));
    Names.Parse(EnvKey(env))
  }

  lemma KeyEntry(t: string)
    requires Names.Follows(Names.KEY + "_", t)
    ensures Names.Parse(t).KeyAlias? || Names.Parse(t).PubEntry?
  {
    Names.Shorter(Names.KEY, "_", t);
  }

  // ----- the names there are -----

  /** Words with a dot between each two. */
  function Dotted(words: seq<string>): string {
    if |words| == 0 then "" else if |words| == 1 then words[0] else words[0] + "." + Dotted(words[1..])
  }

  ghost predicate Word(s: string) {
    s != "" && forall i | 0 <= i < |s| :: ('a' <= s[i] && s[i] <= 'z') || ('0' <= s[i] && s[i] <= '9')
  }

  /** A name is at most 64 characters: words of lower-case letters and digits, with dots between them. */
  lemma ValidExactly(env: string)
    ensures ValidEnv(env) <==> |env| < 65 && exists words :: words != [] && (forall w | w in words :: Word(w)) && Dotted(words) == env
  {
    if ValidEnv(env) {
      var words := WordsOf(env);
    }
    if words :| words != [] && (forall w | w in words :: Word(w)) && Dotted(words) == env {
      DottedShape(words);
    }
  }

  ghost predicate Shaped(env: string) {
    && env != "" && env[0] != '.' && env[|env| - 1] != '.'
    && (forall i | 0 <= i < |env| :: NameChar(env[i]) || env[i] == '.')
    && forall i | 0 < i < |env| :: env[i - 1] != '.' || env[i] != '.'
  }

  lemma {:induction false} WordsOf(env: string) returns (words: seq<string>)
    requires Shaped(env)
    ensures words != [] && (forall w | w in words :: Word(w)) && Dotted(words) == env
  {
    if i :| 0 < i < |env| && env[i] == '.' && forall j | 0 <= j < i :: env[j] != '.' {
      var rest := WordsOf(env[i + 1..]);
      words := [env[..i]] + rest;
      assert words[1..] == rest && env == env[..i] + "." + env[i + 1..];
    } else {
      NoDot(env);
      words := [env];
    }
  }

  lemma NoDot(env: string)
    requires Shaped(env) && !exists i :: 0 < i < |env| && env[i] == '.' && forall j | 0 <= j < i :: env[j] != '.'
    ensures '.' !in env
  {
    var n := 0;
    while n < |env|
      invariant n <= |env| && forall j | 0 <= j < n :: env[j] != '.'
    {
      assert n > 0 ==> env[n] != '.';
      n := n + 1;
    }
  }

  lemma {:induction false} DottedShape(words: seq<string>)
    requires words != [] && forall w | w in words :: Word(w)
    ensures Shaped(Dotted(words))
  {
    assert words[0] in words;
    if |words| > 1 {
      forall w | w in words[1..] ensures Word(w) {
        assert w in words;
      }
      DottedShape(words[1..]);
    }
  }

  // ----- what the entry tells -----

  /** Different environments have different entries. */
  lemma SlotInjective(a: string, b: string)
    requires ValidEnv(a) && ValidEnv(b) && Slot(a) == Slot(b)
    ensures a == b
  {
    hide Names.Parse, Names.Render, EnvKey;
    Names.RenderParse(EnvKey(a));
    Names.RenderParse(EnvKey(b));
    TextInjective(a, b);
  }

  lemma TextInjective(a: string, b: string)
    requires ValidEnv(a) && ValidEnv(b) && EnvKey(a) == EnvKey(b)
    ensures a == b
  {
    var x, y := Names.Upper(Underscored(a)), Names.Upper(Underscored(b));
    assert EnvKey(a)[|Names.KEY| + 1..] == x && EnvKey(b)[|Names.KEY| + 1..] == y;
    assert |a| == |x| && |b| == |y|;
    forall i | 0 <= i < |a| ensures a[i] == b[i] {
      assert x[i] == y[i];
    }
  }

  /** An environment's entry is the record of a key exactly when its name is that key's. */
  lemma SlotByName(env: string, pub: Pub)
    requires ValidEnv(env)
    ensures Slot(env) == PubEntry(pub) <==> Names.IsPub(env) && pub == env
    ensures Slot(env).PubEntry? <==> Names.IsPub(env)
  {
    var t, rest := EnvKey(env), Names.Upper(Underscored(env));
    assert Names.Follows(Names.KEY + "_", t) && t[|Names.KEY| + 1..] == rest;
    Names.Shorter(Names.KEY, "_", t);
    forall i | 0 <= i < |env| ensures t[|Names.KEY| + 1 + i] == rest[i] && (Names.UpperHex(rest[i]) <==> Names.LowerHex(env[i])) {
    }
    if Names.IsPubEntry(t) {
      forall i | 0 <= i < |env| ensures Names.LowerHex(env[i]) {
        assert Names.UpperHex(t[|Names.KEY| + 1 + i]);
      }
    }
    if Names.IsPub(env) {
      assert Underscored(env) == env;
      Names.LowerUpper(env);
      assert Names.IsPubEntry(t);
    }
  }
}
