/** `normalize_choice`: one answer letter, Latin or its Cyrillic look-alike,
    in either case and with surrounding whitespace, mapped to `a`..`d`. */
module Choice {
  import opened Text

  /** The canonical answers, and `""` for "not an answer". */
  const Canonical: set<string> := {"a", "b", "c", "d", ""}

  /** The lookup table: each Latin letter and its Cyrillic look-alike
      (а U+0430, в U+0432, с U+0441, д U+0434) to the Latin letter. */
  const Mapping: map<string, string> := map[
    "a" := "a", "\U{0430}" := "a",
    "b" := "b", "\U{0432}" := "b",
    "c" := "c", "\U{0441}" := "c",
    "d" := "d", "\U{0434}" := "d"
  ]

  function NormalizeChoice(s: string): (r: string)
    ensures r in Canonical
  {
    var key := Lower(Strip(s));
    if key in Mapping then Mapping[key] else ""
  }

  /** The characters a user may type for answer `k`: the Latin letter and
      the Cyrillic look-alike, each in lower and upper case. */
  function Variants(k: char): set<char> {
    match k
    case 'a' => {'a', 'A', '\U{0430}', '\U{0410}'}
    case 'b' => {'b', 'B', '\U{0432}', '\U{0412}'}
    case 'c' => {'c', 'C', '\U{0441}', '\U{0421}'}
    case 'd' => {'d', 'D', '\U{0434}', '\U{0414}'}
    case _ => {}
  }

  /** The Cyrillic look-alike of a Latin answer letter. */
  function LookAlike(k: char): char {
    match k
    case 'a' => '\U{0430}'
    case 'b' => '\U{0432}'
    case 'c' => '\U{0441}'
    case 'd' => '\U{0434}'
    case _ => k
  }

  /** The one-character keys of the table that lead to answer `k`. */
  lemma MappingKey(x: char, k: char)
    requires k in "abcd"
    ensures ([x] in Mapping && Mapping[[x]] == [k]) <==> (x == k || x == LookAlike(k))
  {
    assert [x] in Mapping ==> x in {'a', '\U{0430}', 'b', '\U{0432}', 'c', '\U{0441}', 'd', '\U{0434}'};
  }

  /** The characters whose lowered form is a key for `k` are exactly Variants(k). */
  lemma LowerCharKey(c: char, k: char)
    requires k in "abcd"
    ensures (LowerChar(c) == k || LowerChar(c) == LookAlike(k)) <==> c in Variants(k)
  {
  }

  /** Through the stripped input: answer `k` exactly when one character of
      Variants(k) is left after stripping. */
  lemma NormalizeChoiceStripped(s: string, k: char)
    requires k in "abcd"
    ensures NormalizeChoice(s) == [k] <==> |Strip(s)| == 1 && Strip(s)[0] in Variants(k)
  {
    var w := Strip(s);
    var key := Lower(w);
    assert |key| == |w|;
    if |w| == 1 {
      assert key == [LowerChar(w[0])];
      MappingKey(LowerChar(w[0]), k);
      LowerCharKey(w[0], k);
    } else {
      assert forall m :: m in Mapping ==> |m| == 1;
      assert key !in Mapping;
    }
  }

  /** One character of Variants(k) with only whitespace around it is answer `k`. */
  lemma PaddedVariant(s: string, i: nat, k: char)
    requires k in "abcd" && i < |s| && s[i] in Variants(k)
    requires AllSpace(s[..i]) && AllSpace(s[i + 1..])
    ensures NormalizeChoice(s) == [k]
  {
    var a, w, b := s[..i], [s[i]], s[i + 1..];
    assert s == a + w + b;
    StripUnique(a, w, b);
    NormalizeChoiceStripped(s, k);
  }

  /** Answer `k` comes only from one character of Variants(k) with only
      whitespace around it; the lemma returns its position. */
  lemma VariantOfAnswer(s: string, k: char) returns (i: nat)
    requires k in "abcd" && NormalizeChoice(s) == [k]
    ensures i < |s| && s[i] in Variants(k)
    ensures AllSpace(s[..i]) && AllSpace(s[i + 1..])
  {
    NormalizeChoiceStripped(s, k);
    var j;
    i, j := StripSplit(s);
    assert s[i] == Strip(s)[0] && j == i + 1;
  }

  /** The answer is `k` exactly when the input is one character from
      Variants(k) with nothing but whitespace around it. */
  lemma NormalizeChoiceExactly(s: string, k: char)
    requires k in "abcd"
    ensures NormalizeChoice(s) == [k] <==>
      exists i :: 0 <= i < |s| && s[i] in Variants(k) && AllSpace(s[..i]) && AllSpace(s[i + 1..])
  {
    if NormalizeChoice(s) == [k] {
      var i := VariantOfAnswer(s, k);
    }
    if exists i :: 0 <= i < |s| && s[i] in Variants(k) && AllSpace(s[..i]) && AllSpace(s[i + 1..]) {
      var i :| 0 <= i < |s| && s[i] in Variants(k) && AllSpace(s[..i]) && AllSpace(s[i + 1..]);
      PaddedVariant(s, i, k);
    }
  }

  /** The canonical answers normalise to themselves. */
  lemma CanonicalFixed(r: string)
    requires r in Canonical
    ensures NormalizeChoice(r) == r
  {
    if r == "" {
      assert TrimLeft(r) == r && Strip(r) == r && Lower(r) == r;
    } else {
      assert |r| == 1 && r[0] in "abcd";
      PaddedVariant(r, 0, r[0]);
    }
  }

  /** Every result is a fixed point: normalising an answer again changes nothing. */
  lemma NormalizeChoiceIdempotent(s: string)
    ensures NormalizeChoice(NormalizeChoice(s)) == NormalizeChoice(s)
  {
    CanonicalFixed(NormalizeChoice(s));
  }

  /** Lowering the input first, as the choice handler does, changes nothing. */
  lemma NormalizeChoiceLowered(s: string)
    ensures NormalizeChoice(Lower(s)) == NormalizeChoice(s)
  {
    LowerStrip(s);
    LowerIdempotent(Strip(s));
  }
}
