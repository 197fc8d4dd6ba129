/** The parts of Python's `str.strip()` and `str.lower()` that the trainer's
    choice normalisation relies on. */
module Text {

  /** Python's `str.isspace` for one character: the ASCII whitespace and
      separator controls, NEL, NO-BREAK SPACE and the Unicode space separators. */
  predicate IsSpace(c: char) {
    || c == ' '
    || ('\t' <= c <= '\r')
    || ('\U{001C}' <= c <= '\U{001F}')
    || c == '\U{0085}'
    || c == '\U{00A0}'
    || c == '\U{1680}'
    || ('\U{2000}' <= c <= '\U{200A}')
    || c == '\U{2028}'
    || c == '\U{2029}'
    || c == '\U{202F}'
    || c == '\U{205F}'
    || c == '\U{3000}'
  }

  predicate AllSpace(s: string) {
    forall i :: 0 <= i < |s| ==> IsSpace(s[i])
  }

  /** `str.lstrip()`: drops the leading whitespace. */
  function TrimLeft(s: string): string {
    if |s| > 0 && IsSpace(s[0]) then TrimLeft(s[1..]) else s
  }

  /** `str.rstrip()`: drops the trailing whitespace. */
  function TrimRight(s: string): string {
    if |s| > 0 && IsSpace(s[|s| - 1]) then TrimRight(s[..|s| - 1]) else s
  }

  /** TrimLeft removes a whitespace prefix, and the longest one: the lemma
      returns where the kept suffix starts. */
  lemma {:induction false} TrimLeftShape(s: string) returns (i: nat)
    ensures i <= |s| && TrimLeft(s) == s[i..]
    ensures AllSpace(s[..i])
    ensures i == |s| || !IsSpace(s[i])
  {
    if |s| > 0 && IsSpace(s[0]) {
      var k := TrimLeftShape(s[1..]);
      i := k + 1;
      assert s[1..][k..] == s[i..];
      assert s[..i] == [s[0]] + s[1..][..k];
    } else {
      i := 0;
    }
  }

  /** TrimRight removes a whitespace suffix, and the longest one: the lemma
      returns where the kept prefix ends. */
  lemma {:induction false} TrimRightShape(s: string) returns (j: nat)
    ensures j <= |s| && TrimRight(s) == s[..j]
    ensures AllSpace(s[j..])
    ensures j == 0 || !IsSpace(s[j - 1])
  {
    if |s| > 0 && IsSpace(s[|s| - 1]) {
      var t := s[..|s| - 1];
      j := TrimRightShape(t);
      assert t[..j] == s[..j];
      assert s[j..] == t[j..] + [s[|s| - 1]];
    } else {
      j := |s|;
    }
  }

  /** `str.strip()`: whitespace trimmed at both ends. */
  function Strip(s: string): string {
    TrimRight(TrimLeft(s))
  }

  /** The capital letters of the Latin and the Russian alphabets. */
  predicate IsUpper(c: char) {
    ('A' <= c <= 'Z') || ('\U{0410}' <= c <= '\U{042F}') || c == '\U{0401}'
  }

  /** `str.lower()` on one character, for the Latin and the Russian alphabets. */
  function LowerChar(c: char): (l: char)
    ensures IsSpace(l) <==> IsSpace(c)
    ensures !IsUpper(l)
    ensures !IsUpper(c) ==> l == c
  {
    if 'A' <= c <= 'Z' then (c as int + 32) as char
    else if '\U{0410}' <= c <= '\U{042F}' then (c as int + 32) as char  // А..Я to а..я
    else if c == '\U{0401}' then '\U{0451}'                            // Ё to ё
    else c
  }

  /** `str.lower()`: each character lowered on its own. */
  function Lower(s: string): string {
    seq(|s|, i requires 0 <= i < |s| => LowerChar(s[i]))
  }

  /** Leading whitespace, however much there is, does not change the result of TrimLeft. */
  lemma {:induction false} TrimLeftSkipsSpace(a: string, t: string)
    requires AllSpace(a)
    ensures TrimLeft(a + t) == TrimLeft(t)
  {
    if a != [] {
      assert (a + t)[1..] == a[1..] + t;
      TrimLeftSkipsSpace(a[1..], t);
    } else {
      assert a + t == t;
    }
  }

  /** Trailing whitespace, however much there is, does not change the result of TrimRight. */
  lemma {:induction false} TrimRightSkipsSpace(t: string, b: string)
    requires AllSpace(b)
    ensures TrimRight(t + b) == TrimRight(t)
  {
    if b != [] {
      assert (t + b)[..|t + b| - 1] == t + b[..|b| - 1];
      TrimRightSkipsSpace(t, b[..|b| - 1]);
    } else {
      assert t + b == t;
    }
  }

  /** Strip is determined by its shape: whatever sits between two runs of
      whitespace and neither begins nor ends with whitespace is the stripped string. */
  lemma StripUnique(a: string, w: string, b: string)
    requires AllSpace(a) && AllSpace(b)
    requires w == [] || (!IsSpace(w[0]) && !IsSpace(w[|w| - 1]))
    ensures Strip(a + w + b) == w
  {
    assert a + w + b == a + (w + b);
    TrimLeftSkipsSpace(a, w + b);
    if w == [] {
      assert w + b == b;
      var i := TrimLeftShape(b);
      assert TrimLeft(b) == [];
    } else {
      assert TrimLeft(w + b) == w + b;
      TrimRightSkipsSpace(w, b);
    }
  }

  /** The stripped string sits in the input between two runs of whitespace,
      and it neither begins nor ends with whitespace. */
  lemma StripSplit(s: string) returns (i: nat, j: nat)
    ensures i <= j <= |s| && Strip(s) == s[i..j]
    ensures AllSpace(s[..i]) && AllSpace(s[j..])
    ensures Strip(s) == [] || (!IsSpace(Strip(s)[0]) && !IsSpace(Strip(s)[|Strip(s)| - 1]))
  {
    i := TrimLeftShape(s);
    var l := s[i..];
    var k := TrimRightShape(l);
    j := i + k;
    assert Strip(s) == s[i..j] by {
      assert l[..k] == s[i..j];
    }
    assert AllSpace(s[j..]) by {
      assert s[j..] == l[k..];
    }
  }

  /** Lowering and stripping commute: this is what makes the extra `.lower()`
      in the choice handler harmless. */
  lemma LowerStrip(s: string)
    ensures Strip(Lower(s)) == Lower(Strip(s))
  {
    var i, j := StripSplit(s);
    var a, w, b := s[..i], s[i..j], s[j..];
    assert s == a + w + b;
    LowerConcat(a, w, b);
    assert AllSpace(Lower(a)) && AllSpace(Lower(b));
    StripUnique(Lower(a), Lower(w), Lower(b));
  }

  /** Lowering twice is lowering once. */
  lemma LowerIdempotent(s: string)
    ensures Lower(Lower(s)) == Lower(s)
  {
  }

  lemma LowerConcat(a: string, w: string, b: string)
    ensures Lower(a + w + b) == Lower(a) + Lower(w) + Lower(b)
  {
    var l, r := Lower(a + w + b), Lower(a) + Lower(w) + Lower(b);
    assert |l| == |r|;
    forall k | 0 <= k < |l| ensures l[k] == r[k] {
      if k < |a| {
      } else if k < |a| + |w| {
        assert r[k] == Lower(w)[k - |a|];
      } else {
        assert r[k] == Lower(b)[k - |a| - |w|];
      }
    }
  }

}
