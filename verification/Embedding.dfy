/** The deterministic embedder: FNV-1a, a 32-bit PRNG, a normalised vector, and the cosine.
    Reals stand for the doubles; the square root is a parameter with its defining property. */
module Embedding {
  /** UTF-16 code units. */
  type Chars = seq<bv16>

  const EMBEDDING_DIM := 384
  const OFFSET: bv32 := 0x811c9dc5

  // ---- hashing ----

  /** `Math.imul` by the prime: the low 32 bits of the product. */
  function TimesPrime(h: bv32): bv32 { h * 0x01000193 }

  function Mix(h: bv32, c: bv16): bv32 {
    TimesPrime(h ^ (c as bv32))
  }

  function Fnv(h: bv32, input: Chars): bv32
    decreases |input|
  {
    if input == [] then h else Fnv(Mix(h, input[0]), input[1..])
  }

  lemma {:induction false} FnvPlus(h: bv32, a: Chars, b: Chars)
    ensures Fnv(h, a + b) == Fnv(Fnv(h, a), b)
    decreases |a|
  {
    hide Mix;
    if a == [] {
      assert a + b == b;
    } else {
      FnvPlus(Mix(h, a[0]), a[1..], b);
      assert (a + b)[1..] == a[1..] + b;
    }
  }

  lemma FnvOne(h: bv32, c: bv16)
    ensures Fnv(h, [c]) == TimesPrime(h ^ (c as bv32))
  {
    hide TimesPrime;
    assert [c][1..] == [];
  }

  lemma Product(h: bv32)
    ensures TimesPrime(h) == h * 16777619
  {
  }

  /** Read from the other end: one more unit is xored in and the whole multiplied by the prime. */
  lemma FnvSnoc(h: bv32, a: Chars, c: bv16)
    ensures Fnv(h, []) == h && Fnv(h, a + [c]) == TimesPrime(Fnv(h, a) ^ (c as bv32))
  {
    hide TimesPrime;
    FnvPlus(h, a, [c]);
    FnvOne(Fnv(h, a), c);
  }

  predicate Apart(h: bv32, g: bv32) { h != g }

  /** The prime is odd, so multiplying by it loses nothing. */
  lemma ProductsApart(h: bv32, g: bv32)
    requires h != g
    ensures Apart(h * 16777619, g * 16777619)
  {
  }

  lemma PrimeTells(h: bv32, g: bv32)
    requires h != g
    ensures Apart(TimesPrime(h), TimesPrime(g))
  {
    ProductsApart(h, g);
    Product(h);
    Product(g);
    hide Apart, TimesPrime;
  }

  lemma XorTells(h: bv32, g: bv32, c: bv16, d: bv16)
    ensures h != g ==> h ^ (c as bv32) != g ^ (c as bv32)
    ensures c != d ==> h ^ (c as bv32) != h ^ (d as bv32)
  {
  }

  lemma MixTellsStart(h: bv32, g: bv32, c: bv16)
    requires h != g
    ensures Mix(h, c) != Mix(g, c)
  {
    hide TimesPrime;
    XorTells(h, g, c, c);
    PrimeTells(h ^ (c as bv32), g ^ (c as bv32));
  }

  lemma MixTellsUnit(h: bv32, c: bv16, d: bv16)
    requires c != d
    ensures Mix(h, c) != Mix(h, d)
  {
    hide TimesPrime;
    XorTells(h, h, c, d);
    PrimeTells(h ^ (c as bv32), h ^ (d as bv32));
  }

  /** Hashes that have parted stay apart over the same text. */
  lemma {:induction false} FnvKeepsApart(h: bv32, g: bv32, input: Chars)
    requires h != g
    ensures Fnv(h, input) != Fnv(g, input)
    decreases |input|
  {
    hide Mix;
    if input != [] {
      MixTellsStart(h, g, input[0]);
      FnvKeepsApart(Mix(h, input[0]), Mix(g, input[0]), input[1..]);
    }
  }

  predicate OneUnitApart(a: Chars, b: Chars) {
    |a| == |b| && exists i :: 0 <= i < |a| && a[i] != b[i] && a[..i] == b[..i] && a[i + 1..] == b[i + 1..]
  }

  /** Two texts of one length that differ in one unit only have different hashes. */
  lemma OneUnitTells(h: bv32, a: Chars, b: Chars)
    requires OneUnitApart(a, b)
    ensures Fnv(h, a) != Fnv(h, b)
  {
    var i :| 0 <= i < |a| && a[i] != b[i] && a[..i] == b[..i] && a[i + 1..] == b[i + 1..];
    hide Mix;
    FnvParts(h, a, i);
    FnvParts(h, b, i);
    hide Fnv;
    MixTellsUnit(Fnv(h, a[..i]), a[i], b[i]);
    FnvKeepsApart(Mix(Fnv(h, a[..i]), a[i]), Mix(Fnv(h, a[..i]), b[i]), a[i + 1..]);
  }

  lemma FnvParts(h: bv32, a: Chars, i: nat)
    requires i < |a|
    ensures Fnv(h, a) == Fnv(Mix(Fnv(h, a[..i]), a[i]), a[i + 1..])
  {
    hide TimesPrime;
    assert a == a[..i] + ([a[i]] + a[i + 1..]);
    FnvPlus(h, a[..i], [a[i]] + a[i + 1..]);
    FnvPlus(Fnv(h, a[..i]), [a[i]], a[i + 1..]);
    FnvOne(Fnv(h, a[..i]), a[i]);
  }

  const LETTER_A: Chars := [0x61]
  const FOOBAR: Chars := [0x66, 0x6f, 0x6f, 0x62, 0x61, 0x72]

  lemma ReferenceProducts()
    ensures TimesPrime(0x811c9dc5 ^ 0x61) == 0xe40c292c && TimesPrime(0x811c9dc5 ^ 0x66) == 0xe30c2799
    ensures TimesPrime(0xe30c2799 ^ 0x6f) == 0x6222e842 && TimesPrime(0x6222e842 ^ 0x6f) == 0xa9f37ed7
    ensures TimesPrime(0xa9f37ed7 ^ 0x62) == 0x3f5076ef && TimesPrime(0x3f5076ef ^ 0x61) == 0x39aaa18a
    ensures TimesPrime(0x39aaa18a ^ 0x72) == 0xbf9cf968
  {
  }

  /** The published test values of the 32-bit FNV-1a hash. */
  lemma ReferenceHashes()
    ensures Fnv(OFFSET, []) == 0x811c9dc5 && Fnv(OFFSET, LETTER_A) == 0xe40c292c && Fnv(OFFSET, FOOBAR) == 0xbf9cf968
  {
    ReferenceProducts();
    hide Fnv, TimesPrime;
    FnvSnoc(OFFSET, [], 0x61);
    assert LETTER_A == [] + [0x61];
    FnvSnoc(OFFSET, [], 0x66);
    assert FOOBAR[..1] == [] + [0x66];
    FnvSnoc(OFFSET, FOOBAR[..1], 0x6f);
    assert FOOBAR[..2] == FOOBAR[..1] + [0x6f];
    FnvSnoc(OFFSET, FOOBAR[..2], 0x6f);
    assert FOOBAR[..3] == FOOBAR[..2] + [0x6f];
    FnvSnoc(OFFSET, FOOBAR[..3], 0x62);
    assert FOOBAR[..4] == FOOBAR[..3] + [0x62];
    FnvSnoc(OFFSET, FOOBAR[..4], 0x61);
    assert FOOBAR[..5] == FOOBAR[..4] + [0x61];
    FnvSnoc(OFFSET, FOOBAR[..5], 0x72);
    assert FOOBAR == FOOBAR[..5] + [0x72];
  }

  /** The embedder's loop. */
  method Fnv1a(input: Chars) returns (h: bv32)
    ensures h == Fnv(OFFSET, input)
    ensures (input == [] ==> h == 0x811c9dc5) && (input == LETTER_A ==> h == 0xe40c292c) && (input == FOOBAR ==> h == 0xbf9cf968)
  {
    ReferenceHashes();
    h := OFFSET;
    for i := 0 to |input|
      invariant Fnv(OFFSET, input) == Fnv(h, input[i..])
    {
      assert input[i..][1..] == input[i + 1..];
      h := Mix(h, input[i]);
    }
  }

  /** Two hashes: texts that differ in one unit only are told apart. */
  method HashBoth(a: Chars, b: Chars) returns (h: bv32, g: bv32)
    ensures OneUnitApart(a, b) ==> h != g
    ensures a == b ==> h == g
  {
    h := Fnv1a(a);
    g := Fnv1a(b);
    if OneUnitApart(a, b) {
      OneUnitTells(OFFSET, a, b);
    }
  }

  /** The hash as the unsigned number that seeds the generator. */
  function Seed(normalize: Chars -> Chars, text: Chars): (n: nat)
    ensures n < 0x1_0000_0000
  {
    Fnv(OFFSET, normalize(text)) as nat
  }

  // ---- the generator ----

  function Advance(s: bv32): bv32 {
    s + 0x6d2b79f5
  }

  function Scramble(s: bv32): bv32 {
    var t := (s ^ (s >> 15)) * (1 | s);
    var u := (t + (t ^ (t >> 7)) * (61 | t)) ^ t;
    u ^ (u >> 14)
  }

  /** One draw in [-1, 1) from an advanced state. */
  function Draw(s: bv32): real {
    (Scramble(s) as int as real) / 4294967296.0 * 2.0 - 1.0
  }

  lemma DrawInRange(s: bv32)
    ensures -1.0 <= Draw(s) < 1.0
  {
    hide Scramble;
    var n := Scramble(s) as int;
    assert 0 <= n < 0x1_0000_0000;
    assert 0.0 <= (n as real) / 4294967296.0 < 1.0;
  }

  /** The state after `k` draws. */
  function State(seed: bv32, k: nat): bv32
    decreases k
  {
    if k == 0 then seed else Advance(State(seed, k - 1))
  }

  function Draws(seed: bv32, n: nat): (v: seq<real>)
    ensures |v| == n
  {
    seq(n, i requires 0 <= i < n => Draw(State(seed, i + 1)))
  }

  /** Every draw lies in [-1, 1). */
  lemma DrawsInRange(seed: bv32, n: nat)
    ensures |Draws(seed, n)| == n && forall i :: 0 <= i < n ==> -1.0 <= Draws(seed, n)[i] < 1.0
  {
    hide Draw, State;
    forall i | 0 <= i < n ensures -1.0 <= Draws(seed, n)[i] < 1.0 {
      DrawInRange(State(seed, i + 1));
    }
  }

  lemma ReferenceState(s: bv32)
    ensures s == 0x811c9dc5 ==> Advance(s) == 0xee4817ba && Scramble(Advance(s)) == 0x9c7a8434
    ensures s == 0xee4817ba ==> Advance(s) == 0x5b7391af && Scramble(Advance(s)) == 0x7e579ba5
    ensures s == 0x5b7391af ==> Advance(s) == 0xc89f0ba4 && Scramble(Advance(s)) == 0xc6267ea9
  {
  }

  /** The first three draws for the empty text. */
  lemma ReferenceDraws()
    ensures var v := Draws(0x811c9dc5, 3);
      && v[0] == (0x9c7a8434 as real) / 2147483648.0 - 1.0
      && v[1] == (0x7e579ba5 as real) / 2147483648.0 - 1.0
      && v[2] == (0xc6267ea9 as real) / 2147483648.0 - 1.0
  {
    ReferenceState(0x811c9dc5);
    ReferenceState(0xee4817ba);
    ReferenceState(0x5b7391af);
    hide Scramble, Advance;
    assert State(0x811c9dc5, 1) == Advance(0x811c9dc5);
    assert State(0x811c9dc5, 2) == Advance(State(0x811c9dc5, 1));
    assert State(0x811c9dc5, 3) == Advance(State(0x811c9dc5, 2));
  }

  // ---- sums ----

  function Dot(a: seq<real>, b: seq<real>): real
    requires |a| == |b|
  {
    if a == [] then 0.0 else Dot(a[..|a| - 1], b[..|b| - 1]) + a[|a| - 1] * b[|b| - 1]
  }

  function SumSq(v: seq<real>): real {
    Dot(v, v)
  }

  function Scale(v: seq<real>, k: real): seq<real> {
    seq(|v|, i requires 0 <= i < |v| => v[i] * k)
  }

  lemma Square(x: real)
    ensures x * x >= 0.0
  {
    if x < 0.0 {
      assert x * x == (-x) * (-x);
    }
  }

  lemma {:induction false} SumSqNonNegative(v: seq<real>)
    ensures SumSq(v) >= 0.0
  {
    if v != [] {
      SumSqNonNegative(v[..|v| - 1]);
      Square(v[|v| - 1]);
    }
  }

  lemma ScaleTerm(d: real, x: real, k: real)
    ensures (k * k) * d + (x * k) * (x * k) == (k * k) * (d + x * x)
  {
    assert (x * k) * (x * k) == (k * k) * (x * x) by {
      assert (x * k) * (x * k) == x * (k * (x * k));
      assert k * (x * k) == (k * k) * x;
      assert x * ((k * k) * x) == (k * k) * (x * x);
    }
  }

  lemma {:induction false} ScaleSumSq(v: seq<real>, k: real)
    ensures SumSq(Scale(v, k)) == (k * k) * SumSq(v)
  {
    if v != [] {
      var init := v[..|v| - 1];
      ScaleSumSq(init, k);
      assert forall j :: 0 <= j < |init| ==> Scale(v, k)[j] == Scale(init, k)[j];
      assert |Scale(init, k)| == |init| && |Scale(v, k)| == |v|;
      assert Scale(v, k)[..|v| - 1] == Scale(init, k);
      ScaleTerm(SumSq(init), v[|v| - 1], k);
    }
  }

  // ---- the embedding ----

  ghost predicate IsSqrt(sqrt: real -> real) {
    forall x :: x >= 0.0 ==> sqrt(x) >= 0.0 && sqrt(x) * sqrt(x) == x
  }

  function Inverse(sqrt: real -> real, sumSq: real): real {
    if sumSq > 0.0 && sqrt(sumSq) != 0.0 then 1.0 / sqrt(sumSq) else 0.0
  }

  /** The vector as a function of the seed alone. */
  function VectorOf(sqrt: real -> real, seed: nat, dim: nat): (v: seq<real>)
    requires seed < 0x1_0000_0000
    ensures |v| == dim
  {
    var raw := Draws(seed as bv32, dim);
    Scale(raw, Inverse(sqrt, SumSq(raw)))
  }

  function HashEmbedding(normalize: Chars -> Chars, sqrt: real -> real, text: Chars, dim: nat): seq<real> {
    VectorOf(sqrt, Seed(normalize, text), dim)
  }

  lemma SumSqSnoc(v: seq<real>, x: real)
    ensures SumSq(v + [x]) == SumSq(v) + x * x
  {
    assert (v + [x])[..|v|] == v;
  }

  /** The first loop: fills the vector with draws and accumulates its square sum. */
  method FillDraws(seed: bv32, v: array<real>) returns (sumSq: real)
    modifies v
    ensures v[..] == Draws(seed, v.Length) && sumSq == SumSq(v[..])
  {
    var s := seed;
    sumSq := 0.0;
    for i := 0 to v.Length
      invariant s == State(seed, i)
      invariant forall j :: 0 <= j < i ==> v[j] == Draw(State(seed, j + 1))
      invariant sumSq == SumSq(v[..i])
    {
      s := Advance(s);
      var x := Draw(s);
      SumSqSnoc(v[..i], x);
      v[i] := x;
      assert v[..i + 1] == v[..i] + [x];
      sumSq := sumSq + x * x;
    }
    assert v[..v.Length] == v[..];
    assert forall j :: 0 <= j < v.Length ==> v[..][j] == Draws(seed, v.Length)[j];
  }

  /** The second loop: normalises in place. */
  method ScaleInPlace(v: array<real>, k: real)
    modifies v
    ensures v[..] == Scale(old(v[..]), k)
  {
    for i := 0 to v.Length
      invariant forall j :: 0 <= j < i ==> v[j] == old(v[..])[j] * k
      invariant forall j :: i <= j < v.Length ==> v[j] == old(v[..])[j]
    {
      v[i] := v[i] * k;
    }
    assert forall j :: 0 <= j < v.Length ==> v[..][j] == Scale(old(v[..]), k)[j];
  }

  method ComputeEmbedding(normalize: Chars -> Chars, sqrt: real -> real, text: Chars, dim: nat) returns (v: array<real>)
    requires IsSqrt(sqrt)
    ensures fresh(v) && v[..] == HashEmbedding(normalize, sqrt, text, dim)
  {
    var h := Fnv1a(normalize(text));
    v := new real[dim];
    var sumSq := FillDraws((h as nat) as bv32, v);
    assert sumSq > 0.0 ==> sqrt(sumSq) != 0.0;
    ScaleInPlace(v, if sumSq > 0.0 then 1.0 / sqrt(sumSq) else 0.0);
  }

  lemma InverseSquare(r: real, n: real)
    requires r * r == n && n > 0.0 && r >= 0.0
    ensures r != 0.0 && ((1.0 / r) * (1.0 / r)) * n == 1.0
  {
    var k := 1.0 / r;
    assert k * r == 1.0;
    assert (k * k) * n == (k * k) * (r * r);
    assert (k * k) * (r * r) == (k * r) * (k * r) by {
      assert (k * k) * (r * r) == k * (k * (r * r));
      assert k * (r * r) == (k * r) * r;
    }
  }

  lemma InverseOf(sqrt: real -> real, n: real)
    requires IsSqrt(sqrt) && n >= 0.0
    ensures var k := Inverse(sqrt, n); (k * k) * n == if n > 0.0 then 1.0 else 0.0
  {
    if n > 0.0 {
      InverseSquare(sqrt(n), n);
    }
  }

  lemma ScaledIsUnit(sqrt: real -> real, raw: seq<real>)
    requires IsSqrt(sqrt)
    ensures SumSq(Scale(raw, Inverse(sqrt, SumSq(raw)))) == if SumSq(raw) > 0.0 then 1.0 else 0.0
  {
    hide SumSq, Scale, Inverse;
    SumSqNonNegative(raw);
    ScaleSumSq(raw, Inverse(sqrt, SumSq(raw)));
    InverseOf(sqrt, SumSq(raw));
  }

  /** Unless every draw is zero the vector has length one. */
  lemma EmbeddingIsUnit(normalize: Chars -> Chars, sqrt: real -> real, text: Chars, dim: nat)
    requires IsSqrt(sqrt)
    ensures var raw := Draws(Seed(normalize, text) as bv32, dim);
            SumSq(HashEmbedding(normalize, sqrt, text, dim)) == if SumSq(raw) > 0.0 then 1.0 else 0.0
  {
    hide SumSq, Scale, Inverse, Draws, Seed, IsSqrt;
    ScaledIsUnit(sqrt, Draws(Seed(normalize, text) as bv32, dim));
  }

  // ---- cosine ----

  /** The combination (x a_i + y b_i) summed in squares, expanded. */
  lemma {:induction false} ExpandedSquares(a: seq<real>, b: seq<real>, x: real, y: real)
    requires |a| == |b|
    ensures (x * x) * SumSq(a) + 2.0 * ((x * y) * Dot(a, b)) + (y * y) * SumSq(b) >= 0.0
  {
    if a != [] {
      var p, q := a[|a| - 1], b[|b| - 1];
      var a', b' := a[..|a| - 1], b[..|b| - 1];
      ExpandedSquares(a', b', x, y);
      SquareOfSum(x, p, y, q);
      Distribute(x * x, SumSq(a'), p * p);
      Distribute(x * y, Dot(a', b'), p * q);
      Distribute(y * y, SumSq(b'), q * q);
    }
  }

  lemma Distribute(k: real, u: real, v: real)
    ensures k * (u + v) == k * u + k * v
  {
  }

  lemma SquareOfSum(x: real, p: real, y: real, q: real)
    ensures (x * x) * (p * p) + 2.0 * ((x * y) * (p * q)) + (y * y) * (q * q) >= 0.0
  {
    var u, v := x * p, y * q;
    Square(u + v);
    assert (u + v) * (u + v) == u * u + 2.0 * (u * v) + v * v;
    Regroup(x, p, x, p);
    Regroup(y, q, y, q);
    Regroup(x, p, y, q);
  }

  lemma Regroup(x: real, p: real, y: real, q: real)
    ensures (x * p) * (y * q) == (x * y) * (p * q)
  {
    assert (x * p) * (y * q) == x * (p * (y * q));
    assert p * (y * q) == y * (p * q);
    assert x * (y * (p * q)) == (x * y) * (p * q);
  }

  lemma DividePositive(k: real, x: real)
    requires k > 0.0 && k * x >= 0.0
    ensures x >= 0.0
  {
  }

  lemma BoundFromFirst(d: real, na: real, nb: real)
    requires na > 0.0 && (d * d) * na + 2.0 * ((d * (-na)) * d) + ((-na) * (-na)) * nb >= 0.0
    ensures d * d <= na * nb
  {
    assert (d * (-na)) * d == -((d * d) * na);
    assert ((-na) * (-na)) * nb == na * (na * nb);
    assert na * (na * nb - d * d) == na * (na * nb) - na * (d * d);
    DividePositive(na, na * nb - d * d);
  }

  lemma BoundFromSecond(d: real, na: real, nb: real)
    requires nb > 0.0 && ((-nb) * (-nb)) * na + 2.0 * (((-nb) * d) * d) + (d * d) * nb >= 0.0
    ensures d * d <= na * nb
  {
    assert ((-nb) * d) * d == -((d * d) * nb);
    assert ((-nb) * (-nb)) * na == nb * (na * nb);
    assert nb * (na * nb - d * d) == nb * (na * nb) - nb * (d * d);
    DividePositive(nb, na * nb - d * d);
  }

  /** Cauchy-Schwarz. */
  lemma CauchySchwarz(a: seq<real>, b: seq<real>)
    requires |a| == |b|
    ensures Dot(a, b) * Dot(a, b) <= SumSq(a) * SumSq(b)
  {
    hide Dot, SumSq;
    var d, na, nb := Dot(a, b), SumSq(a), SumSq(b);
    SumSqNonNegative(a);
    SumSqNonNegative(b);
    if na > 0.0 {
      ExpandedSquares(a, b, d, -na);
      BoundFromFirst(d, na, nb);
    } else if nb > 0.0 {
      ExpandedSquares(a, b, -nb, d);
      BoundFromSecond(d, na, nb);
    } else {
      ExpandedSquares(a, b, 1.0, 1.0);
      ExpandedSquares(a, b, 1.0, -1.0);
      assert d == 0.0;
    }
  }

  datatype Similarity = Score(value: real) | LengthMismatch

  function Cosine(sqrt: real -> real, a: seq<real>, b: seq<real>): real
    requires |a| == |b|
  {
    var denom := sqrt(SumSq(a)) * sqrt(SumSq(b));
    if denom == 0.0 then 0.0 else Dot(a, b) / denom
  }

  method CosineSimilarity(sqrt: real -> real, a: seq<real>, b: seq<real>) returns (r: Similarity)
    ensures r == if |a| == |b| then Score(Cosine(sqrt, a, b)) else LengthMismatch
  {
    if |a| != |b| {
      return LengthMismatch;
    }
    var dot, na, nb := 0.0, 0.0, 0.0;
    for i := 0 to |a|
      invariant dot == Dot(a[..i], b[..i]) && na == SumSq(a[..i]) && nb == SumSq(b[..i])
    {
      assert a[..i + 1][..i] == a[..i] && b[..i + 1][..i] == b[..i];
      dot := dot + a[i] * b[i];
      na := na + a[i] * a[i];
      nb := nb + b[i] * b[i];
    }
    assert a[..|a|] == a && b[..|b|] == b;
    var denom := sqrt(na) * sqrt(nb);
    r := Score(if denom == 0.0 then 0.0 else dot / denom);
  }

  lemma SquareMonotone(d: real, m: real)
    requires d > m > 0.0
    ensures d * d > m * m
  {
    assert (d - m) * (d + m) == d * d - m * m;
  }

  lemma QuotientBounded(d: real, m: real)
    requires m > 0.0 && d * d <= m * m
    ensures -1.0 <= d / m <= 1.0
  {
    if d > m {
      SquareMonotone(d, m);
    }
    if -d > m {
      SquareMonotone(-d, m);
    }
    assert (d / m) * m == d;
  }

  lemma ProductOfRoots(r: real, s: real, na: real, nb: real)
    requires r * r == na && s * s == nb
    ensures (r * s) * (r * s) == na * nb
  {
    Regroup(r, s, r, s);
  }

  lemma ZeroProduct(x: real, y: real)
    ensures x * y == 0.0 <==> x == 0.0 || y == 0.0
  {
    if x != 0.0 {
      assert (x * y) / x == y;
    }
  }

  lemma RootZero(r: real, s: real)
    ensures r * s == 0.0 <==> r * r == 0.0 || s * s == 0.0
  {
    ZeroProduct(r, s);
    ZeroProduct(r, r);
    ZeroProduct(s, s);
  }

  lemma QuotientZero(d: real, m: real)
    requires m != 0.0
    ensures d / m == 0.0 <==> d == 0.0
  {
    assert (d / m) * m == d;
  }

  /** The similarity always lies in [-1, 1]. */
  lemma CosineBounded(sqrt: real -> real, a: seq<real>, b: seq<real>)
    requires IsSqrt(sqrt) && |a| == |b|
    ensures -1.0 <= Cosine(sqrt, a, b) <= 1.0
  {
    var r, s := sqrt(SumSq(a)), sqrt(SumSq(b));
    SumSqNonNegative(a);
    SumSqNonNegative(b);
    CauchySchwarz(a, b);
    ProductOfRoots(r, s, SumSq(a), SumSq(b));
    if r * s != 0.0 {
      ProductPositive(r, s);
      QuotientBounded(Dot(a, b), r * s);
      assert Cosine(sqrt, a, b) == Dot(a, b) / (r * s);
    }
  }

  lemma ProductPositive(r: real, s: real)
    requires r >= 0.0 && s >= 0.0 && r * s != 0.0
    ensures r * s > 0.0
  {
  }

  lemma SelfQuotient(x: real)
    requires x != 0.0
    ensures x / x == 1.0
  {
  }

  /** It is 0 exactly when a vector is zero or the two are orthogonal, and 1 between a non-zero
      vector and itself: so two embeddings of one text score 1. */
  lemma CosineExtremes(sqrt: real -> real, a: seq<real>, b: seq<real>)
    requires IsSqrt(sqrt) && |a| == |b|
    ensures Cosine(sqrt, a, b) == 0.0 <==> SumSq(a) == 0.0 || SumSq(b) == 0.0 || Dot(a, b) == 0.0
    ensures SumSq(a) > 0.0 ==> Cosine(sqrt, a, a) == 1.0
  {
    var r, s := sqrt(SumSq(a)), sqrt(SumSq(b));
    SumSqNonNegative(a);
    SumSqNonNegative(b);
    RootZero(r, s);
    if r * s != 0.0 {
      QuotientZero(Dot(a, b), r * s);
    }
    if SumSq(a) > 0.0 {
      assert r * r == SumSq(a);
      SelfQuotient(SumSq(a));
      assert Cosine(sqrt, a, a) == SumSq(a) / SumSq(a);
    }
  }
}
