/** Prefixes, joining, stripping and substring search, with the small facts that the text protocols need. */
module Text {
  function HexDigit(n: nat): char
    requires n < 16
  {
    "0123456789abcdef"[n]
  }

  predicate StartsWith(s: string, p: string) { p <= s }

  function Join(parts: seq<string>, sep: string): string {
    if parts == [] then "" else if |parts| == 1 then parts[0] else parts[0] + sep + Join(parts[1..], sep)
  }

  /** White space, as `strip` understands it. */
  predicate IsSpace(c: char) {
    '\U{9}' <= c <= '\U{d}' || '\U{1c}' <= c <= '\U{20}' || c == '\U{85}' || c == '\U{a0}' || c == '\U{1680}'
    || '\U{2000}' <= c <= '\U{200a}' || c == '\U{2028}' || c == '\U{2029}' || c == '\U{202f}' || c == '\U{205f}' || c == '\U{3000}'
  }

  lemma SpacesAre(c: char)
    ensures IsSpace(c) <==>
            || c in "\t\n\U{b}\U{c}\r\U{1c}\U{1d}\U{1e}\U{1f} \U{85}\U{a0}\U{1680}"
            || c in "\U{2000}\U{2001}\U{2002}\U{2003}\U{2004}\U{2005}\U{2006}\U{2007}\U{2008}\U{2009}\U{200a}"
            || c in "\U{2028}\U{2029}\U{202f}\U{205f}\U{3000}"
  {
  }

  function LStrip(s: string): (r: string)
    ensures |r| <= |s| && (r != [] ==> !IsSpace(r[0]))
  {
    if s != [] && IsSpace(s[0]) then LStrip(s[1..]) else s
  }

  function RStrip(s: string): (r: string)
    ensures r <= s && (r != [] ==> !IsSpace(r[|r| - 1]))
  {
    if s != [] && IsSpace(s[|s| - 1]) then RStrip(s[..|s| - 1]) else s
  }

  function Strip(s: string): string { RStrip(LStrip(s)) }

  /** `m` occurs in `s` at position `k`. */
  predicate At(s: string, m: string, k: int) {
    0 <= k <= |s| - |m| && s[k..k + |m|] == m
  }

  ghost predicate Contains(s: string, m: string) {
    exists k :: At(s, m, k)
  }

  /** The language's `in` / `indexOf`: the first occurrence, or -1. */
  method IndexOf(s: string, m: string) returns (k: int)
    ensures k == -1 <==> !Contains(s, m)
    ensures k != -1 ==> At(s, m, k) && forall j :: At(s, m, j) ==> k <= j
  {
    k := 0;
    while k + |m| <= |s|
      invariant 0 <= k
      invariant forall j :: At(s, m, j) ==> k <= j
    {
      if s[k..k + |m|] == m {
        assert At(s, m, k);
        return;
      }
      k := k + 1;
    }
    k := -1;
  }

  lemma Within(s: string, m: string, k: int, p: int)
    requires At(s, m, k) && k <= p < k + |m|
    ensures s[p] in m
  {
    assert s[k..k + |m|][p - k] == s[p];
  }

  lemma AtAfter(a: string, b: string, m: string, k: nat)
    ensures At(a + b, m, |a| + k) <==> At(b, m, k)
  {
    if k + |m| <= |b| {
      assert (a + b)[|a| + k..|a| + k + |m|] == b[k..k + |m|];
    }
  }

  lemma AtBefore(a: string, b: string, m: string, k: nat)
    requires k + |m| <= |a|
    ensures At(a + b, m, k) <==> At(a, m, k)
  {
    assert (a + b)[k..k + |m|] == a[k..k + |m|];
  }

  /** An occurrence of a text without line breaks lies on one side of a line break. */
  lemma ContainsAcrossBreak(a: string, b: string, m: string)
    requires '\n' !in m && m != ""
    ensures Contains(a + "\n" + b, m) <==> Contains(a, m) || Contains(b, m)
  {
    var s := a + "\n" + b;
    assert s == a + ("\n" + b);
    if Contains(s, m) {
      var k :| At(s, m, k);
      if k + |m| <= |a| {
        AtBefore(a, "\n" + b, m, k);
      } else if k <= |a| {
        Within(s, m, k, |a|);
      } else {
        AtAfter(a + "\n", b, m, k - |a| - 1);
      }
    }
    if Contains(a, m) {
      var k :| At(a, m, k);
      AtBefore(a, "\n" + b, m, k);
    }
    if Contains(b, m) {
      var k :| At(b, m, k);
      AtAfter(a + "\n", b, m, k);
    }
  }

  lemma ContainsSelf(m: string)
    ensures Contains(m, m)
  {
    assert m[0..|m|] == m;
    assert At(m, m, 0);
  }
}
