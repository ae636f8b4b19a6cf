/**
 The chained block hash that names a prefix.

 A Go string is a byte string here, so salts and hashes are `Str`. SHA-256 is a parameter: any
 function with 32-byte results. Nothing below assumes that it is injective (no such function is);
 the theorems say instead that two different prefixes with one name exhibit a collision among the
 inputs of their two chains.
 */
module Hashing {
  import opened Spans

  type Byte = x: int | 0 <= x < 256
  type Str = seq<Byte>
  type Token = x: int | 0 <= x < 0x1_0000_0000
  /** A block hash: 64 hexadecimal digits, or none at all. */
  datatype Hash = Hash(hex: Str)

  ghost predicate IsSha256(sha: Str -> Str) {
    forall x: Str :: |sha(x)| == 32
  }

  // ---------------------------------------------------------------- byte encodings

  /** binary.BigEndian.PutUint32 */
  function BigEndian(t: Token): (b: Str)
    ensures |b| == 4
  {
    [t / 0x100_0000, t / 0x1_0000 % 256, t / 256 % 256, t % 256]
  }

  function EncodeTokens(ts: seq<Token>): (b: Str)
    ensures |b| == 4 * |ts|
  {
    if ts == [] then [] else EncodeTokens(ts[..|ts| - 1]) + BigEndian(ts[|ts| - 1])
  }

  function HexDigit(n: int): Byte
    requires 0 <= n < 16
  {
    if n < 10 then 48 + n else 87 + n
  }

  function HexByte(b: Byte): Str {
    [HexDigit(b / 16), HexDigit(b % 16)]
  }

  /** hex.EncodeToString */
  function HexEncode(b: Str): (h: Str)
    ensures |h| == 2 * |b|
  {
    if b == [] then []
    else HexEncode(b[..|b| - 1]) + HexByte(b[|b| - 1])
  }

  predicate IsHexDigit(c: Byte) {
    48 <= c <= 57 || 97 <= c <= 102
  }

  function HashBlock(sha: Str -> Str, prev: Str, tokens: seq<Token>): Hash {
    Hash(HexEncode(sha(prev + EncodeTokens(tokens))))
  }

  function Number(hi: int, midHi: int, midLo: int, lo: int): int {
    hi * 0x100_0000 + midHi * 0x1_0000 + midLo * 256 + lo
  }

  lemma BigEndianValue(t: Token)
    ensures t == Number(BigEndian(t)[0], BigEndian(t)[1], BigEndian(t)[2], BigEndian(t)[3])
  {
    assert t == t / 256 * 256 + t % 256;
    assert t / 256 == t / 256 / 256 * 256 + t / 256 % 256;
    assert t / 256 / 256 == t / 0x1_0000;
    assert t / 0x1_0000 == t / 0x1_0000 / 256 * 256 + t / 0x1_0000 % 256;
    assert t / 0x1_0000 / 256 == t / 0x100_0000;
  }

  lemma BigEndianInjective(t: Token, u: Token)
    requires BigEndian(t) == BigEndian(u)
    ensures t == u
  {
    BigEndianValue(t);
    BigEndianValue(u);
  }

  lemma {:induction false} EncodeTokensInjective(a: seq<Token>, b: seq<Token>)
    requires |a| == |b| && EncodeTokens(a) == EncodeTokens(b)
    ensures a == b
  {
    if a != [] {
      var n := |a| - 1;
      var ea, eb := EncodeTokens(a[..n]), EncodeTokens(b[..n]);
      SplitEqual(ea, BigEndian(a[n]), eb, BigEndian(b[n]));
      EncodeTokensInjective(a[..n], b[..n]);
      BigEndianInjective(a[n], b[n]);
      assert a == a[..n] + [a[n]] && b == b[..n] + [b[n]];
    }
  }

  lemma SplitEqual(a: Str, x: Str, b: Str, y: Str)
    requires a + x == b + y && |x| == |y|
    ensures a == b && x == y
  {
    assert a == (a + x)[..|a|] && b == (b + y)[..|b|];
    assert x == (a + x)[|a|..] && y == (b + y)[|b|..];
  }

  lemma HexByteInjective(a: Byte, b: Byte)
    requires HexByte(a) == HexByte(b)
    ensures a == b
  {
    assert HexByte(a)[0] == HexByte(b)[0] && HexByte(a)[1] == HexByte(b)[1];
    assert a == a / 16 * 16 + a % 16 && b == b / 16 * 16 + b % 16;
  }

  lemma {:induction false} HexEncodeInjective(a: Str, b: Str)
    requires |a| == |b| && HexEncode(a) == HexEncode(b)
    ensures a == b
  {
    if a != [] {
      var n := |a| - 1;
      SplitEqual(HexEncode(a[..n]), HexByte(a[n]), HexEncode(b[..n]), HexByte(b[n]));
      HexEncodeInjective(a[..n], b[..n]);
      HexByteInjective(a[n], b[n]);
      assert a == a[..n] + [a[n]] && b == b[..n] + [b[n]];
    }
  }

  lemma {:induction false} HexEncodeIsHex(b: Str, i: nat)
    requires i < 2 * |b|
    ensures IsHexDigit(HexEncode(b)[i])
  {
    if i < 2 * (|b| - 1) {
      HexEncodeIsHex(b[..|b| - 1], i);
    }
  }

  // ---------------------------------------------------------------- the chain

  /** The hash of block i of a prompt: the hash of the previous block, or the salt, then the block's tokens. */
  function ChainHash(sha: Str -> Str, bs: nat, salt: Str, tokens: seq<Token>, i: nat): Hash
    requires Span(i + 1, bs) <= |tokens|
    decreases i
  {
    Hash(HexEncode(sha(ChainInput(sha, bs, salt, tokens, i))))
  }

  /** The byte string SHA-256 is applied to for block i. */
  function ChainInput(sha: Str -> Str, bs: nat, salt: Str, tokens: seq<Token>, i: nat): Str
    requires Span(i + 1, bs) <= |tokens|
    decreases i, 0
  {
    (if i == 0 then salt else ChainHash(sha, bs, salt, tokens, i - 1).hex) + EncodeTokens(BlockTokens(bs, tokens, i))
  }

  function BlockTokens(bs: nat, tokens: seq<Token>, i: nat): (b: seq<Token>)
    requires Span(i + 1, bs) <= |tokens|
    ensures |b| == bs
  {
    tokens[Span(i, bs)..Span(i + 1, bs)]
  }

  /** The hashes of the first n blocks. */
  function HashesTo(sha: Str -> Str, bs: nat, salt: Str, tokens: seq<Token>, n: nat): (hs: seq<Hash>)
    requires Span(n, bs) <= |tokens|
    ensures |hs| == n
  {
    if n == 0 then [] else HashesTo(sha, bs, salt, tokens, n - 1) + [ChainHash(sha, bs, salt, tokens, n - 1)]
  }

  lemma {:induction false} HashAt(sha: Str -> Str, bs: nat, salt: Str, tokens: seq<Token>, n: nat, i: nat)
    requires Span(n, bs) <= |tokens| && i < n
    ensures Span(i + 1, bs) <= |tokens|
    ensures HashesTo(sha, bs, salt, tokens, n)[i] == ChainHash(sha, bs, salt, tokens, i)
  {
    if i < n - 1 {
      HashAt(sha, bs, salt, tokens, n - 1, i);
    }
  }

  /** Hashing a block after the last hash so far gives the next hash of the chain. */
  lemma NextLink(sha: Str -> Str, bs: nat, salt: Str, tokens: seq<Token>, i: nat, hashes: seq<Hash>, prev: Str)
    requires Span(i + 1, bs) <= |tokens|
    requires hashes == HashesTo(sha, bs, salt, tokens, i) && prev == if i == 0 then salt else hashes[i - 1].hex
    ensures HashBlock(sha, prev, BlockTokens(bs, tokens, i)) == ChainHash(sha, bs, salt, tokens, i)
  {
    if i > 0 {
      HashAt(sha, bs, salt, tokens, i, i - 1);
    }
  }

  /** All the hashes of a prompt's full blocks (blockHashes). */
  function BlockHashes(sha: Str -> Str, bs: nat, salt: Str, tokens: seq<Token>): (hs: seq<Hash>)
    requires bs > 0
    ensures |hs| == |tokens| / bs
  {
    SpanOfQuotient(|tokens|, bs);
    HashesTo(sha, bs, salt, tokens, |tokens| / bs)
  }

  /** How many full blocks may be reused: never the block that holds the last prompt token. */
  function MaxMatched(bs: nat, n: nat): nat
    requires bs > 0
  {
    if n == 0 then 0 else (n - 1) / bs
  }

  /** matchableBlockHashes, second result. */
  function Matchable(sha: Str -> Str, bs: nat, salt: Str, tokens: seq<Token>): (hs: seq<Hash>)
    requires bs > 0
    ensures |hs| == MaxMatched(bs, |tokens|)
  {
    MaxMatchedFits(bs, |tokens|);
    BlockHashes(sha, bs, salt, tokens)[..MaxMatched(bs, |tokens|)]
  }

  lemma MaxMatchedFits(bs: nat, n: nat)
    requires bs > 0
    ensures MaxMatched(bs, n) <= n / bs
    ensures n > 0 ==> Span(MaxMatched(bs, n), bs) < n
  {
    if n > 0 {
      SpanOfQuotient(n - 1, bs);
      SpanOfQuotient(n, bs);
      if n / bs < (n - 1) / bs {
        SpanMonotone(n / bs + 1, (n - 1) / bs, bs);
      }
    }
  }

  /** As many blocks as leave a token to compute, and no fewer. */
  lemma MaxMatchedIs(bs: nat, n: nat)
    requires bs > 0
    ensures n > 0 ==> Span(MaxMatched(bs, n), bs) < n <= Span(MaxMatched(bs, n), bs) + bs
    ensures n == 0 ==> MaxMatched(bs, n) == 0
  {
    if n > 0 {
      SpanOfQuotient(n - 1, bs);
    }
  }

  /** The salts ProtoMsgToModel builds: "user:" or "request:" and an identifier. */
  predicate IsSalt(s: Str) {
    || (|s| >= 5 && s[..5] == [117, 115, 101, 114, 58])
    || (|s| >= 8 && s[..8] == [114, 101, 113, 117, 101, 115, 116, 58])
  }

  /** No two different inputs among those hashed for the two chains (up to blocks i and j) have one digest. */
  ghost predicate NoCollision(sha: Str -> Str, bs: nat, s: Str, a: seq<Token>, i: nat, t: Str, b: seq<Token>, j: nat) {
    forall m: nat, n: nat {:trigger ChainInput(sha, bs, s, a, m), ChainInput(sha, bs, t, b, n)} ::
      m <= i && n <= j && Span(m + 1, bs) <= |a| && Span(n + 1, bs) <= |b| &&
      sha(ChainInput(sha, bs, s, a, m)) == sha(ChainInput(sha, bs, t, b, n)) ==>
        ChainInput(sha, bs, s, a, m) == ChainInput(sha, bs, t, b, n)
  }

  lemma SaltIsNoHash(sha: Str -> Str, bs: nat, tokens: seq<Token>, s: Str, t: Str, i: nat)
    requires IsSha256(sha) && IsSalt(s) && Span(i + 1, bs) <= |tokens|
    ensures s != ChainHash(sha, bs, t, tokens, i).hex
  {
    HexEncodeIsHex(sha(ChainInput(sha, bs, t, tokens, i)), 0);
    if |s| >= 5 && s[..5] == [117, 115, 101, 114, 58] {
      assert s[0] == s[..5][0];
    } else {
      assert s[0] == s[..8][0];
    }
  }

  /** What a chain input starts with: the previous name. */
  function Previous(sha: Str -> Str, bs: nat, salt: Str, tokens: seq<Token>, i: nat): Str
    requires Span(i + 1, bs) <= |tokens|
  {
    if i == 0 then salt else ChainHash(sha, bs, salt, tokens, i - 1).hex
  }

  lemma EqualHashEqualParts(sha: Str -> Str, bs: nat, s: Str, a: seq<Token>, i: nat, t: Str, b: seq<Token>, j: nat)
    requires IsSha256(sha)
    requires Span(i + 1, bs) <= |a| && Span(j + 1, bs) <= |b|
    requires NoCollision(sha, bs, s, a, i, t, b, j)
    requires ChainHash(sha, bs, s, a, i) == ChainHash(sha, bs, t, b, j)
    ensures Previous(sha, bs, s, a, i) == Previous(sha, bs, t, b, j)
    ensures BlockTokens(bs, a, i) == BlockTokens(bs, b, j)
  {
    var x, y := ChainInput(sha, bs, s, a, i), ChainInput(sha, bs, t, b, j);
    HexEncodeInjective(sha(x), sha(y));
    assert x == y;
    var u, v := BlockTokens(bs, a, i), BlockTokens(bs, b, j);
    SplitEqual(Previous(sha, bs, s, a, i), EncodeTokens(u), Previous(sha, bs, t, b, j), EncodeTokens(v));
    EncodeTokensInjective(u, v);
  }

  lemma AppendBlock(bs: nat, tokens: seq<Token>, i: nat)
    requires Span(i + 1, bs) <= |tokens|
    ensures tokens[..Span(i + 1, bs)] == tokens[..Span(i, bs)] + BlockTokens(bs, tokens, i)
  {
  }

  lemma EqualPrefixGrows(bs: nat, a: seq<Token>, b: seq<Token>, i: nat)
    requires Span(i + 1, bs) <= |a| && Span(i + 1, bs) <= |b|
    requires a[..Span(i, bs)] == b[..Span(i, bs)] && BlockTokens(bs, a, i) == BlockTokens(bs, b, i)
    ensures a[..Span(i + 1, bs)] == b[..Span(i + 1, bs)]
  {
    AppendBlock(bs, a, i);
    AppendBlock(bs, b, i);
  }

  /** The previous names are both salts or both hashes. */
  lemma SaltMeetsSalt(sha: Str -> Str, bs: nat, s: Str, a: seq<Token>, i: nat, t: Str, b: seq<Token>, j: nat)
    requires IsSha256(sha) && IsSalt(s) && IsSalt(t) && Span(i + 1, bs) <= |a| && Span(j + 1, bs) <= |b|
    requires Previous(sha, bs, s, a, i) == Previous(sha, bs, t, b, j)
    ensures i == 0 <==> j == 0
  {
    if i == 0 && j > 0 {
      SaltIsNoHash(sha, bs, b, s, t, j - 1);
    } else if i > 0 && j == 0 {
      SaltIsNoHash(sha, bs, a, t, s, i - 1);
    }
  }

  lemma NoCollisionBefore(sha: Str -> Str, bs: nat, s: Str, a: seq<Token>, i: nat, t: Str, b: seq<Token>, j: nat)
    requires i > 0 && j > 0 && NoCollision(sha, bs, s, a, i, t, b, j)
    ensures NoCollision(sha, bs, s, a, i - 1, t, b, j - 1)
  {
  }

  /** Equal block hashes name the same block index, the same salt and the same whole token prefix. */
  lemma {:induction false} ChainIdentifiesPrefix(sha: Str -> Str, bs: nat, s: Str, a: seq<Token>, i: nat, t: Str, b: seq<Token>, j: nat)
    requires IsSha256(sha) && IsSalt(s) && IsSalt(t)
    requires Span(i + 1, bs) <= |a| && Span(j + 1, bs) <= |b|
    requires NoCollision(sha, bs, s, a, i, t, b, j)
    requires ChainHash(sha, bs, s, a, i) == ChainHash(sha, bs, t, b, j)
    ensures i == j && s == t && a[..Span(i + 1, bs)] == b[..Span(i + 1, bs)]
    decreases i
  {
    EqualHashEqualParts(sha, bs, s, a, i, t, b, j);
    SaltMeetsSalt(sha, bs, s, a, i, t, b, j);
    if i > 0 {
      NoCollisionBefore(sha, bs, s, a, i, t, b, j);
      ChainIdentifiesPrefix(sha, bs, s, a, i - 1, t, b, j - 1);
    }
    EqualPrefixGrows(bs, a, b, i);
  }
}
