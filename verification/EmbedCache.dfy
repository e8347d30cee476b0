/** The embedding service with its cache, keyed by the hex text of a 32-bit hash. */
module EmbedCache {
  import opened Embedding
  import T = Text

  /** `toString(16)`: no leading zeros. */
  function Hex(n: nat): (s: string)
    ensures s != ""
  {
    if n < 16 then [T.HexDigit(n)] else Hex(n / 16) + [T.HexDigit(n % 16)]
  }

  function PadStart(s: string, width: nat): string
    decreases width - |s|
  {
    if |s| >= width then s else PadStart("0" + s, width)
  }

  /** What a hex text denotes; leading zeros do not count. */
  function Denoted(s: string): nat {
    if s == "" then 0
    else Denoted(s[..|s| - 1]) * 16 + DigitValue(s[|s| - 1])
  }

  function DigitValue(c: char): nat {
    if '0' <= c <= '9' then c as nat - '0' as nat
    else if 'a' <= c <= 'f' then c as nat - 'a' as nat + 10
    else 0
  }

  lemma {:induction false} HexDenotes(n: nat)
    ensures Denoted(Hex(n)) == n
  {
    if n >= 16 {
      HexDenotes(n / 16);
      assert Hex(n)[..|Hex(n)| - 1] == Hex(n / 16);
    } else {
      assert Hex(n)[..0] == "";
    }
  }

  lemma {:induction false} ZeroDenotesNothing(s: string)
    ensures Denoted("0" + s) == Denoted(s)
  {
    if s == "" {
      assert ("0" + s)[..0] == "";
    } else {
      assert ("0" + s)[..|s|] == "0" + s[..|s| - 1];
      ZeroDenotesNothing(s[..|s| - 1]);
    }
  }

  lemma {:induction false} PadDenotes(s: string, width: nat)
    ensures Denoted(PadStart(s, width)) == Denoted(s)
    decreases width - |s|
  {
    if |s| < width {
      ZeroDenotesNothing(s);
      PadDenotes("0" + s, width);
    }
  }

  function FnvHex(n: nat): string {
    PadStart(Hex(n), 8)
  }

  function CacheKey(normalize: Chars -> Chars, text: Chars): string {
    "emb:" + FnvHex(Seed(normalize, text))
  }

  function HexOf(h: bv32): string {
    FnvHex(h as nat)
  }

  lemma FnvStep(h: bv32, input: Chars, i: nat)
    requires i < |input|
    ensures Fnv(h, input[i..]) == Fnv(Mix(h, input[i]), input[i + 1..])
  {
    hide Mix;
    assert input[i..][0] == input[i] && input[i..][1..] == input[i + 1..];
  }

  lemma FnvEnd(h: bv32, input: Chars)
    ensures Fnv(h, input[|input|..]) == h
  {
    hide Mix;
  }

  predicate HexChar(c: char) { '0' <= c <= '9' || 'a' <= c <= 'f' }

  predicate Canonical(s: string) {
    s != "" && s[0] != '0' && forall c :: c in s ==> HexChar(c)
  }

  lemma CanonicalInit(s: string)
    requires Canonical(s)
    ensures var init, c := s[..|s| - 1], s[|s| - 1];
      && s == init + [c] && HexChar(c) && (init == "" ==> c != '0') && (init != "" ==> Canonical(init))
  {
    hide HexChar;
    var init, c := s[..|s| - 1], s[|s| - 1];
    assert c in s;
    assert forall d :: d in init ==> d in s;
  }

  /** A text of hex digits without a leading zero is how the number it denotes is written. */
  lemma {:induction false} HexWrites(s: string)
    requires Canonical(s)
    ensures Hex(Denoted(s)) == s && Denoted(s) > 0
  {
    var init, c := s[..|s| - 1], s[|s| - 1];
    CanonicalInit(s);
    DigitWritten(c);
    hide Canonical, HexChar, DigitValue, T.HexDigit;
    if init == "" {
      assert s[..0] == "" && s == [c];
    } else {
      HexWrites(init);
      hide Hex;
      HexSnoc(Denoted(init), DigitValue(c));
    }
  }

  lemma HexSnoc(n: nat, d: nat)
    requires n > 0 && d < 16
    ensures Hex(n * 16 + d) == Hex(n) + [T.HexDigit(d)]
  {
    assert (n * 16 + d) / 16 == n && (n * 16 + d) % 16 == d;
  }

  lemma DigitWritten(c: char)
    requires HexChar(c)
    ensures DigitValue(c) < 16 && T.HexDigit(DigitValue(c)) == c && (c != '0' ==> DigitValue(c) > 0)
  {
  }

  lemma {:induction false} Zeros(s: string, width: nat)
    requires |s| <= width
    ensures |PadStart(s, width)| == width && PadStart(s, width)[width - |s|..] == s
    ensures forall k :: 0 <= k < width - |s| ==> PadStart(s, width)[k] == '0'
    decreases width - |s|
  {
    if |s| < width {
      Zeros("0" + s, width);
    }
  }

  lemma DenotedSnoc(s: string, k: nat)
    requires k < |s|
    ensures Denoted(s[..k + 1]) == Denoted(s[..k]) * 16 + DigitValue(s[k])
  {
    assert s[..k + 1][..k] == s[..k];
  }

  lemma FourDigits(s: string, k: nat)
    requires k + 4 <= |s|
    ensures Denoted(s[..k + 4]) ==
            (((Denoted(s[..k]) * 16 + DigitValue(s[k])) * 16 + DigitValue(s[k + 1])) * 16 + DigitValue(s[k + 2])) * 16 + DigitValue(s[k + 3])
  {
    hide Denoted, DigitValue;
    DenotedSnoc(s, k);
    DenotedSnoc(s, k + 1);
    DenotedSnoc(s, k + 2);
    DenotedSnoc(s, k + 3);
  }

  lemma DenotedNothing()
    ensures Denoted("") == 0
  {
  }

  lemma EightDigits(s: string, high: nat, low: nat)
    requires |s| == 8 && Canonical(s)
    requires ((DigitValue(s[0]) * 16 + DigitValue(s[1])) * 16 + DigitValue(s[2])) * 16 + DigitValue(s[3]) == high
    requires ((DigitValue(s[4]) * 16 + DigitValue(s[5])) * 16 + DigitValue(s[6])) * 16 + DigitValue(s[7]) == low
    ensures FnvHex(high * 65536 + low) == s
  {
    hide Denoted, DigitValue, Canonical, Hex, FnvHex;
    HexWrites(s);
    FourDigits(s, 0);
    FourDigits(s, 4);
    DenotedNothing();
    assert s[..0] == "" && s[..8] == s;
    assert Denoted(s) == high * 65536 + low;
    Unpadded(Denoted(s), s);
  }

  lemma Unpadded(n: nat, s: string)
    requires Hex(n) == s && |s| == 8
    ensures FnvHex(n) == s
  {
    hide Hex;
  }

  lemma ReferenceHex()
    ensures HexOf(0x811c9dc5) == "811c9dc5" && HexOf(0xe40c292c) == "e40c292c" && HexOf(0xbf9cf968) == "bf9cf968"
  {
    hide FnvHex;
    EightDigits("811c9dc5", 0x811c, 0x9dc5);
    EightDigits("e40c292c", 0xe40c, 0x292c);
    EightDigits("bf9cf968", 0xbf9c, 0xf968);
  }

  /** Every hash is written in exactly eight lower-case hex digits. */
  lemma HexOfShape(h: bv32)
    ensures |HexOf(h)| == 8 && (forall c :: c in HexOf(h) ==> HexChar(c)) && Denoted(HexOf(h)) == h as nat
  {
    HexShape(h as nat);
    HexDenotes(h as nat);
    PadDenotes(Hex(h as nat), 8);
    hide Hex, HexChar, Denoted;
  }

  lemma HexShape(n: nat)
    requires n < 0x1_0000_0000
    ensures |FnvHex(n)| == 8 && forall c :: c in FnvHex(n) ==> HexChar(c)
  {
    HexDigits(n, 8);
    Zeros(Hex(n), 8);
    hide Hex, PadStart;
    var s := PadStart(Hex(n), 8);
    forall k | 0 <= k < 8 ensures HexChar(s[k]) {
      if k >= 8 - |Hex(n)| {
        assert s[k] == s[8 - |Hex(n)|..][k - (8 - |Hex(n)|)];
      }
    }
  }

  function Power(n: nat): nat {
    if n == 0 then 1 else 16 * Power(n - 1)
  }

  lemma {:induction false} HexDigits(n: nat, width: nat)
    requires n < Power(width) && width > 0
    ensures |Hex(n)| <= width && forall c :: c in Hex(n) ==> HexChar(c)
  {
    assert forall d: nat :: d < 16 ==> HexChar(T.HexDigit(d));
    if n >= 16 {
      HexDigits(n / 16, width - 1);
    }
  }

  /** The cache's own hash loop, written apart from the embedder's: it computes the same hash, so a
      key determines the seed of the vector it caches. */
  method Fnv1aHex(input: Chars) returns (hex: string)
    ensures hex == HexOf(Fnv(OFFSET, input))
    ensures (input == [] ==> hex == "811c9dc5") && (input == LETTER_A ==> hex == "e40c292c") && (input == FOOBAR ==> hex == "bf9cf968")
  {
    ReferenceHashes();
    ReferenceHex();
    hide Fnv, HexOf, TimesPrime;
    var h: bv32 := 0x811c9dc5;
    assert input[0..] == input;
    for i := 0 to |input|
      invariant Fnv(OFFSET, input) == Fnv(h, input[i..])
    {
      FnvStep(h, input, i);
      h := h ^ (input[i] as bv32);
      h := TimesPrime(h);
    }
    FnvEnd(h, input);
    hex := HexOf(h);
  }

  /** Different hashes are written differently. */
  lemma HexTells(h: bv32, g: bv32)
    requires h as nat != g as nat
    ensures HexOf(h) != HexOf(g)
  {
    HexDenotes(h as nat);
    HexDenotes(g as nat);
    PadDenotes(Hex(h as nat), 8);
    PadDenotes(Hex(g as nat), 8);
  }

  lemma NumbersTell(h: bv32, g: bv32)
    requires h as nat == g as nat
    ensures h == g
  {
    assert (h as nat) as bv32 == h;
  }

  /** Two keys: texts that differ in one unit only do not share one. */
  method HexBoth(a: Chars, b: Chars) returns (h: string, g: string)
    ensures OneUnitApart(a, b) ==> h != g
    ensures a == b ==> h == g
  {
    h := Fnv1aHex(a);
    g := Fnv1aHex(b);
    if OneUnitApart(a, b) {
      OneUnitTells(OFFSET, a, b);
      hide Fnv;
      if Fnv(OFFSET, a) as nat == Fnv(OFFSET, b) as nat {
        NumbersTell(Fnv(OFFSET, a), Fnv(OFFSET, b));
      }
      HexTells(Fnv(OFFSET, a), Fnv(OFFSET, b));
    }
  }

  /** Two texts share a key exactly when they share the hash, and then they share the vector: a
      collision of the key cannot return a wrong embedding. */
  lemma KeyDeterminesVector(normalize: Chars -> Chars, sqrt: real -> real, a: Chars, b: Chars, dim: nat)
    ensures CacheKey(normalize, a) == CacheKey(normalize, b) <==> Seed(normalize, a) == Seed(normalize, b)
    ensures CacheKey(normalize, a) == CacheKey(normalize, b) ==>
            HashEmbedding(normalize, sqrt, a, dim) == HashEmbedding(normalize, sqrt, b, dim)
  {
    var m, n := Seed(normalize, a), Seed(normalize, b);
    HexDenotes(m);
    HexDenotes(n);
    PadDenotes(Hex(m), 8);
    PadDenotes(Hex(n), 8);
    assert CacheKey(normalize, a)[4..] == FnvHex(m) && CacheKey(normalize, b)[4..] == FnvHex(n);
  }

  /** The keyspace: a fixed prefix and eight hex digits that denote the hash. */
  lemma KeyShape(normalize: Chars -> Chars, text: Chars)
    ensures var key := CacheKey(normalize, text);
      && key[..4] == "emb:" && |key| == 12 && (forall c :: c in key[4..] ==> HexChar(c))
      && Denoted(key[4..]) == Fnv(OFFSET, normalize(text)) as nat
  {
    hide HexChar;
    HexOfShape(Fnv(OFFSET, normalize(text)));
    assert CacheKey(normalize, text)[4..] == HexOf(Fnv(OFFSET, normalize(text)));
  }

  type Cache = map<string, seq<real>>

  ghost predicate CacheOk(normalize: Chars -> Chars, sqrt: real -> real, cache: Cache) {
    forall text :: CacheKey(normalize, text) in cache ==>
      cache[CacheKey(normalize, text)] == HashEmbedding(normalize, sqrt, text, EMBEDDING_DIM)
  }

  class EmbedService {
    const normalize: Chars -> Chars
    const sqrt: real -> real
    var cache: Cache

    constructor (normalize: Chars -> Chars, sqrt: real -> real)
      ensures this.normalize == normalize && this.sqrt == sqrt && cache == map[]
    {
      this.normalize, this.sqrt, this.cache := normalize, sqrt, map[];
    }

    /** Reads the cache, else computes and writes it. */
    method Embed(text: Chars) returns (embedding: seq<real>, cached: bool)
      requires IsSqrt(sqrt) && CacheOk(normalize, sqrt, cache)
      modifies this`cache
      ensures CacheOk(normalize, sqrt, cache)
      ensures embedding == HashEmbedding(normalize, sqrt, text, EMBEDDING_DIM) && |embedding| == 384
      ensures cached <==> CacheKey(normalize, text) in old(cache)
      ensures cache == old(cache)[CacheKey(normalize, text) := embedding]
    {
      var hex := Fnv1aHex(normalize(text));
      var key := "emb:" + hex;
      if key in cache {
        return cache[key], true;
      }
      var v := ComputeEmbedding(normalize, sqrt, text, EMBEDDING_DIM);
      embedding, cached := v[..], false;
      WriteKeepsCache(normalize, sqrt, cache, text);
      cache := cache[key := embedding];
    }

    /** Any entries may expire at any time. */
    method Expire(keys: set<string>)
      requires CacheOk(normalize, sqrt, cache)
      modifies this`cache
      ensures CacheOk(normalize, sqrt, cache) && cache == old(cache) - keys
    {
      cache := cache - keys;
    }
  }

  lemma WriteKeepsCache(normalize: Chars -> Chars, sqrt: real -> real, cache: Cache, text: Chars)
    requires CacheOk(normalize, sqrt, cache)
    ensures CacheOk(normalize, sqrt, cache[CacheKey(normalize, text) := HashEmbedding(normalize, sqrt, text, EMBEDDING_DIM)])
  {
    forall other | CacheKey(normalize, other) == CacheKey(normalize, text)
      ensures HashEmbedding(normalize, sqrt, other, EMBEDDING_DIM) == HashEmbedding(normalize, sqrt, text, EMBEDDING_DIM)
    {
      KeyDeterminesVector(normalize, sqrt, other, text, EMBEDDING_DIM);
    }
  }

  // ---- whole histories ----

  datatype Op = Request(text: Chars) | Expiry(keys: set<string>)

  function CacheAfter(normalize: Chars -> Chars, sqrt: real -> real, ops: seq<Op>): Cache {
    if ops == [] then map[]
    else
      var cache := CacheAfter(normalize, sqrt, ops[..|ops| - 1]);
      match ops[|ops| - 1]
      case Expiry(keys) => cache - keys
      case Request(text) => cache[CacheKey(normalize, text) := Answer(normalize, sqrt, cache, text)]
  }

  /** The reply to a request: the cached vector if there is one. */
  function Answer(normalize: Chars -> Chars, sqrt: real -> real, cache: Cache, text: Chars): seq<real> {
    var key := CacheKey(normalize, text);
    if key in cache then cache[key] else HashEmbedding(normalize, sqrt, text, EMBEDDING_DIM)
  }

  /** After any requests and expiries, every reply is what recomputation would give. */
  lemma {:induction false} CacheIsTransparent(normalize: Chars -> Chars, sqrt: real -> real, ops: seq<Op>, text: Chars)
    ensures CacheOk(normalize, sqrt, CacheAfter(normalize, sqrt, ops))
    ensures Answer(normalize, sqrt, CacheAfter(normalize, sqrt, ops), text) == HashEmbedding(normalize, sqrt, text, EMBEDDING_DIM)
  {
    if ops != [] {
      var init, last := ops[..|ops| - 1], ops[|ops| - 1];
      CacheIsTransparent(normalize, sqrt, init, if last.Request? then last.text else text);
      if last.Request? {
        WriteKeepsCache(normalize, sqrt, CacheAfter(normalize, sqrt, init), last.text);
      }
    }
  }

  predicate Asks(normalize: Chars -> Chars, op: Op, key: string) {
    op.Request? && CacheKey(normalize, op.text) == key
  }

  predicate Expires(op: Op, key: string) { op.Expiry? && key in op.keys }

  /** And a request finds its key in the cache exactly when one with that key came before, and it has not
      expired since. */
  lemma {:induction false} HeldIff(normalize: Chars -> Chars, sqrt: real -> real, ops: seq<Op>, key: string)
    ensures key in CacheAfter(normalize, sqrt, ops) <==>
            exists j :: 0 <= j < |ops| && Asks(normalize, ops[j], key) && forall k :: j < k < |ops| ==> !Expires(ops[k], key)
  {
    if ops != [] {
      var n := |ops| - 1;
      var init := ops[..n];
      HeldIff(normalize, sqrt, init, key);
      hide CacheKey, Answer;
      assert forall k :: 0 <= k < n ==> init[k] == ops[k];
      assert key in CacheAfter(normalize, sqrt, ops) <==>
          Asks(normalize, ops[n], key) || (key in CacheAfter(normalize, sqrt, init) && !Expires(ops[n], key));
    }
  }
}
