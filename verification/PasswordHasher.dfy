/**
 Password hashes (src/utils/security/PasswordHasher.cpp): key derivation by the loops of
 deriveKey against the definition in section 5.2 of RFC 8018, and the stored form
 algorithm$iterations$salt$key. HMAC-SHA-256 and Base64 (section 4 of RFC 4648) are foreign:
 of the first only its length is used, of the second that decoding undoes encoding and that
 its alphabet has no separator.
 */
module PasswordHasher {
  import opened Prelude
  import opened Octets

  datatype Foreign = Foreign(hmac: (Bytes, Bytes) -> Bytes, toBase64: Bytes -> string, fromBase64: string -> Bytes)

  const HASH_LEN := 32
  const ALGORITHM := "pbkdf2-sha256"
  const SEPARATOR := '$'
  const MAX_ITERATIONS := 10_000_000

  ghost predicate HmacOk(f: Foreign) { forall k, d :: |f.hmac(k, d)| == HASH_LEN }

  ghost predicate Base64Ok(f: Foreign) { forall b :: f.fromBase64(f.toBase64(b)) == b && SEPARATOR !in f.toBase64(b) }

  // ---- Equality in constant time -------------------------------------------------------

  lemma DiffAccumulates(diff: bv8, x: bv8, y: bv8)
    ensures diff | (x ^ y) == 0 <==> diff == 0 && x == y
  {}

  method ConstantTimeEquals(a: Bytes, b: Bytes) returns (equal: bool)
    ensures equal <==> a == b
  {
    if |a| != |b| { return false; }
    var diff: bv8 := 0;
    for i := 0 to |a|
      invariant diff == 0 <==> a[..i] == b[..i]
    {
      DiffAccumulates(diff, a[i], b[i]);
      diff := diff | (a[i] ^ b[i]);
      assert a[..i + 1] == a[..i] + [a[i]] && b[..i + 1] == b[..i] + [b[i]];
    }
    assert a[..|a|] == a && b[..|b|] == b;
    equal := diff == 0;
  }

  // ---- Section 5.2 of RFC 8018 ------------------------------------------------------------

  function Xor(a: Bytes, b: Bytes): Bytes
    requires |a| == |b|
  {
    seq(|a|, i requires 0 <= i < |a| => a[i] ^ b[i])
  }

  /** U_j of block i. */
  function U(f: Foreign, password: Bytes, salt: Bytes, i: nat, j: nat): Bytes
    requires j >= 1
  {
    if j == 1 then f.hmac(password, salt + Int32(i)) else f.hmac(password, U(f, password, salt, i, j - 1))
  }

  /** Blocks with different numbers begin with different inputs to the function. */
  lemma BlocksBeginApart(salt: Bytes, v: bv32, w: bv32)
    ensures salt + Spell(v) == salt + Spell(w) <==> v == w
  {
    if salt + Spell(v) == salt + Spell(w) {
      assert Spell(v) == (salt + Spell(v))[|salt|..] == (salt + Spell(w))[|salt|..] == Spell(w);
      SpellsOut(v);
      SpellsOut(w);
    }
  }

  /** F (P, S, c, i) = U_1 xor U_2 xor ... xor U_c. */
  ghost function F(f: Foreign, password: Bytes, salt: Bytes, c: nat, i: nat): (t: Bytes)
    requires HmacOk(f) && c >= 1
    ensures |t| == HASH_LEN
  {
    if c == 1 then U(f, password, salt, i, 1) else Xor(F(f, password, salt, c - 1, i), U(f, password, salt, i, c))
  }

  /** T_1 || T_2 || ... || T_l. */
  ghost function Blocks(f: Foreign, password: Bytes, salt: Bytes, c: nat, l: nat): (t: Bytes)
    requires HmacOk(f) && c >= 1
    ensures |t| == l * HASH_LEN
  {
    if l == 0 then [] else Blocks(f, password, salt, c, l - 1) + F(f, password, salt, c, l)
  }

  function BlockCount(keyBytes: nat): nat { (keyBytes + HASH_LEN - 1) / HASH_LEN }

  ghost function Pbkdf2(f: Foreign, password: Bytes, salt: Bytes, c: nat, keyBytes: nat): (key: Bytes)
    requires HmacOk(f) && c >= 1
    ensures |key| == keyBytes
  {
    Blocks(f, password, salt, c, BlockCount(keyBytes))[..keyBytes]
  }

  lemma {:induction false} MoreBlocks(f: Foreign, password: Bytes, salt: Bytes, c: nat, l: nat, m: nat)
    requires HmacOk(f) && c >= 1 && l <= m
    ensures Blocks(f, password, salt, c, m)[..l * HASH_LEN] == Blocks(f, password, salt, c, l)
    decreases m
  {
    if l < m {
      MoreBlocks(f, password, salt, c, l, m - 1);
    }
  }

  /** A shorter key is the beginning of a longer one. */
  lemma ShorterKeyIsPrefix(f: Foreign, password: Bytes, salt: Bytes, c: nat, short: nat, long: nat)
    requires HmacOk(f) && c >= 1 && short <= long
    ensures Pbkdf2(f, password, salt, c, long)[..short] == Pbkdf2(f, password, salt, c, short)
  {
    MoreBlocks(f, password, salt, c, BlockCount(short), BlockCount(long));
  }

  /** The exclusive or of u into t, in place. */
  method XorInto(t: array<bv8>, u: Bytes)
    requires t.Length == |u| == HASH_LEN
    modifies t
    ensures t[..] == Xor(old(t[..]), u)
  {
    for k := 0 to HASH_LEN
      invariant forall j :: 0 <= j < k ==> t[j] == old(t[j]) ^ u[j]
      invariant forall j :: k <= j < HASH_LEN ==> t[j] == old(t[j])
    {
      t[k] := t[k] ^ u[k];
    }
  }

  /** One block: the first U, then the others folded into it. */
  method DeriveBlock(f: Foreign, password: Bytes, salt: Bytes, iterations: nat, block: nat) returns (t: array<bv8>)
    requires HmacOk(f) && iterations >= 1
    ensures fresh(t) && t[..] == F(f, password, salt, iterations, block)
  {
    var u := f.hmac(password, salt + Int32(block));
    t := new bv8[HASH_LEN](i requires 0 <= i < HASH_LEN => u[i]);
    assert t[..] == u;
    for i := 1 to iterations
      invariant u == U(f, password, salt, block, i) && |u| == HASH_LEN
      invariant t[..] == F(f, password, salt, i, block)
    {
      u := f.hmac(password, u);
      XorInto(t, u);
    }
  }

  /** deriveKey: the derived key, or nothing for arguments it refuses. */
  method DeriveKey(f: Foreign, password: Bytes, salt: Bytes, iterations: int, keyBytes: int) returns (key: Bytes)
    requires HmacOk(f)
    ensures key == if password == [] || salt == [] || iterations < 1 || keyBytes < 1 then []
                   else Pbkdf2(f, password, salt, iterations, keyBytes)
  {
    if password == [] || salt == [] || iterations < 1 || keyBytes < 1 { return []; }
    var blockCount := BlockCount(keyBytes);
    key := [];
    for block := 1 to blockCount + 1
      invariant key == Blocks(f, password, salt, iterations, block - 1)
    {
      var t := DeriveBlock(f, password, salt, iterations, block);
      key := key + t[..];
    }
    key := key[..keyBytes];
  }

  // ---- Text ------------------------------------------------------------------------------

  function Decimal(n: nat): string { if n < 10 then [Digit(n)] else Decimal(n / 10) + [Digit(n % 10)] }

  function Digit(d: nat): char requires d < 10 { "0123456789"[d] }

  predicate IsDigit(c: char) { '0' <= c <= '9' }

  /** Plain decimal digits; None when there are none or another character. */
  function ParseDecimal(s: string): Option<nat> {
    if s == [] || !IsDigit(s[|s| - 1]) then None
    else
      var d := (s[|s| - 1] - '0') as nat;
      if |s| == 1 then Some(d)
      else
        var front := ParseDecimal(s[..|s| - 1]);
        if front.None? then None else Some(10 * front.value + d)
  }

  lemma {:induction false} DecimalReadsBack(n: nat)
    ensures ParseDecimal(Decimal(n)) == Some(n) && SEPARATOR !in Decimal(n) && Decimal(n) != []
  {
    if n >= 10 {
      DecimalReadsBack(n / 10);
      assert Decimal(n)[..|Decimal(n)| - 1] == Decimal(n / 10);
    }
  }

  function Split(s: string, sep: char): (parts: seq<string>)
    ensures |parts| >= 1
  {
    if s == [] then [[]]
    else
      var rest := Split(s[1..], sep);
      if s[0] == sep then [[]] + rest else [[s[0]] + rest[0]] + rest[1..]
  }

  lemma {:induction false} SplitTakesFirst(a: string, rest: string, sep: char)
    requires sep !in a
    ensures Split(a + [sep] + rest, sep) == [a] + Split(rest, sep)
    ensures Split(a, sep) == [a]
  {
    if a == [] {
      assert a + [sep] + rest == [sep] + rest;
      assert ([sep] + rest)[1..] == rest;
    } else {
      SplitTakesFirst(a[1..], rest, sep);
      assert (a + [sep] + rest)[1..] == a[1..] + [sep] + rest;
      assert [a[0]] + a[1..] == a;
    }
  }

  function Format(f: Foreign, iterations: nat, salt: Bytes, key: Bytes): string {
    ALGORITHM + [SEPARATOR] + (Decimal(iterations) + [SEPARATOR] + (f.toBase64(salt) + [SEPARATOR] + f.toBase64(key)))
  }

  lemma FourParts(a: string, b: string, c: string, d: string, sep: char)
    requires sep !in a && sep !in b && sep !in c && sep !in d
    ensures Split(a + [sep] + (b + [sep] + (c + [sep] + d)), sep) == [a, b, c, d]
  {
    SplitTakesFirst(d, "", sep);
    SplitTakesFirst(c, d, sep);
    SplitTakesFirst(b, c + [sep] + d, sep);
    SplitTakesFirst(a, b + [sep] + (c + [sep] + d), sep);
  }

  lemma FormatReadsBack(f: Foreign, iterations: nat, salt: Bytes, key: Bytes)
    requires Base64Ok(f)
    ensures Split(Format(f, iterations, salt, key), SEPARATOR) ==
            [ALGORITHM, Decimal(iterations), f.toBase64(salt), f.toBase64(key)]
  {
    DecimalReadsBack(iterations);
    FourParts(ALGORITHM, Decimal(iterations), f.toBase64(salt), f.toBase64(key), SEPARATOR);
  }

  // ---- Hash and verify -----------------------------------------------------------------------

  datatype Params = Params(iterations: int, saltBytes: int, keyBytes: int)

  const DEFAULTS := Params(600_000, 16, 32)

  predicate ParamsOk(p: Params) { 1 <= p.iterations <= MAX_ITERATIONS && p.saltBytes >= 8 && p.keyBytes >= 16 }

  /** The stored form, or "" for arguments it refuses. The password is normalised UTF-8, the salt random. */
  method Hash(f: Foreign, password: Bytes, salt: Bytes, p: Params) returns (encoded: string)
    requires HmacOk(f) && (p.saltBytes >= 0 ==> |salt| == p.saltBytes)
    ensures encoded ==
            if password != [] && ParamsOk(p)
            then Format(f, p.iterations, salt, Pbkdf2(f, password, salt, p.iterations, p.keyBytes))
            else ""
  {
    if password == [] || p.iterations < 1 || p.saltBytes < 8 || p.keyBytes < 16 || p.iterations > MAX_ITERATIONS {
      return "";
    }
    var key := DeriveKey(f, password, salt, p.iterations, p.keyBytes);
    if key == [] { return ""; }
    encoded := Format(f, p.iterations, salt, key);
  }

  /** What a stored form says, when it is well formed. */
  function Parse(f: Foreign, encoded: string): Option<(nat, Bytes, Bytes)> {
    var parts := Split(encoded, SEPARATOR);
    if |parts| != 4 || parts[0] != ALGORITHM then None
    else
      var iterations := ParseDecimal(parts[1]);
      if iterations.None? || iterations.value < 1 || iterations.value > MAX_ITERATIONS then None
      else
        var salt, expected := f.fromBase64(parts[2]), f.fromBase64(parts[3]);
        if salt == [] || |expected| < 16 then None else Some((iterations.value, salt, expected))
  }

  ghost predicate Accepts(f: Foreign, password: Bytes, encoded: string)
    requires HmacOk(f)
  {
    password != [] && Parse(f, encoded).Some? &&
    var (iterations, salt, expected) := Parse(f, encoded).value;
    iterations >= 1 && Pbkdf2(f, password, salt, iterations, |expected|) == expected
  }

  method Verify(f: Foreign, password: Bytes, encoded: string) returns (ok: bool, needsRehash: bool)
    requires HmacOk(f)
    ensures ok <==> Accepts(f, password, encoded)
    ensures needsRehash <==> ok && var (iterations, salt, expected) := Parse(f, encoded).value;
                             iterations < DEFAULTS.iterations || |salt| < DEFAULTS.saltBytes
                               || |expected| < DEFAULTS.keyBytes
  {
    ok, needsRehash := false, false;
    if password == [] || encoded == "" { return; }
    var parts := Split(encoded, SEPARATOR);
    if |parts| != 4 || parts[0] != ALGORITHM { return; }
    var iterations := ParseDecimal(parts[1]);
    if iterations.None? || iterations.value < 1 || iterations.value > MAX_ITERATIONS { return; }
    var salt, expected := f.fromBase64(parts[2]), f.fromBase64(parts[3]);
    if salt == [] || expected == [] || |expected| < 16 { return; }
    var actual := DeriveKey(f, password, salt, iterations.value, |expected|);
    ok := ConstantTimeEquals(actual, expected);
    if ok {
      needsRehash := iterations.value < DEFAULTS.iterations || |salt| < DEFAULTS.saltBytes
        || |expected| < DEFAULTS.keyBytes;
    }
  }

  /**
   What was hashed is accepted, whatever the accepted parameters; any other password is
   accepted exactly when it derives the same key; and a hash with the present defaults is
   not asked to be renewed.
   */
  lemma HashedIsAccepted(f: Foreign, password: Bytes, other: Bytes, salt: Bytes, p: Params)
    requires HmacOk(f) && Base64Ok(f) && password != [] && other != [] && ParamsOk(p) && |salt| == p.saltBytes
    ensures var encoded := Format(f, p.iterations, salt, Pbkdf2(f, password, salt, p.iterations, p.keyBytes));
            && Accepts(f, password, encoded)
            && (Accepts(f, other, encoded) <==>
                  Pbkdf2(f, other, salt, p.iterations, p.keyBytes) ==
                    Pbkdf2(f, password, salt, p.iterations, p.keyBytes))
            && Parse(f, encoded) == Some((p.iterations, salt, Pbkdf2(f, password, salt, p.iterations, p.keyBytes)))
  {
    FormatReadsBack(f, p.iterations, salt, Pbkdf2(f, password, salt, p.iterations, p.keyBytes));
    DecimalReadsBack(p.iterations);
  }

  method HashThenVerify(f: Foreign, password: Bytes, salt: Bytes, p: Params) returns (ok: bool, needsRehash: bool)
    requires HmacOk(f) && Base64Ok(f) && (p.saltBytes >= 0 ==> |salt| == p.saltBytes)
    ensures ok <==> password != [] && ParamsOk(p)
    ensures p == DEFAULTS ==> !needsRehash
  {
    var encoded := Hash(f, password, salt, p);
    ok, needsRehash := Verify(f, password, encoded);
    if password != [] && ParamsOk(p) {
      HashedIsAccepted(f, password, password, salt, p);
    } else {
      assert Split("", SEPARATOR) == [""];
    }
  }
}
