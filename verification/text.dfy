/** The two string operations the add prompt applies to the typed kind:
    Python's `str.strip()` with no argument, and `str.lower()` on the
    letters that matter here. */
module Text {

  /** Python's `str.isspace()` for one Unicode scalar value: the characters
      `str.strip()` removes. */
  predicate IsSpace(c: char) {
    var n := c as int;
    || (0x09 <= n <= 0x0D) || (0x1C <= n <= 0x20)
    || n == 0x85 || n == 0xA0 || n == 0x1680
    || (0x2000 <= n <= 0x200A) || n == 0x2028 || n == 0x2029
    || n == 0x202F || n == 0x205F || n == 0x3000
  }

  /** The number of whitespace characters `s` starts with. */
  function LeadingSpace(s: string): (n: nat)
    ensures n <= |s|
    ensures forall i :: 0 <= i < n ==> IsSpace(s[i])
    ensures n < |s| ==> !IsSpace(s[n])
  {
    if |s| > 0 && IsSpace(s[0]) then 1 + LeadingSpace(s[1..]) else 0
  }

  /** Drops trailing whitespace. */
  function TrimEnd(s: string): (r: string)
    ensures |r| <= |s| && r == s[..|r|]
    ensures forall i :: |r| <= i < |s| ==> IsSpace(s[i])
    ensures |r| > 0 ==> !IsSpace(r[|r| - 1])
  {
    if |s| > 0 && IsSpace(s[|s| - 1]) then TrimEnd(s[..|s| - 1]) else s
  }

  /** `str.strip()`: the slice of `s` left after cutting the leading and the
      trailing whitespace, which neither starts nor ends with whitespace. */
  function Strip(s: string): (r: string)
    ensures LeadingSpace(s) + |r| <= |s|
    ensures r == s[LeadingSpace(s)..LeadingSpace(s) + |r|]
    ensures forall i :: LeadingSpace(s) + |r| <= i < |s| ==> IsSpace(s[i])
    ensures |r| > 0 ==> !IsSpace(r[0]) && !IsSpace(r[|r| - 1])
  {
    var lo := LeadingSpace(s);
    var r := TrimEnd(s[lo..]);
    assert r == s[lo..lo + |r|];
    r
  }

  /** Whitespace padding around a word that neither starts nor ends with
      whitespace is exactly what `Strip` removes. */
  lemma StripRemovesPadding(pre: string, w: string, post: string)
    requires forall i :: 0 <= i < |pre| ==> IsSpace(pre[i])
    requires forall i :: 0 <= i < |post| ==> IsSpace(post[i])
    requires |w| > 0 && !IsSpace(w[0]) && !IsSpace(w[|w| - 1])
    ensures Strip(pre + w + post) == w
  {
    var s := pre + w + post;
    var lo := LeadingSpace(s);
    assert s[|pre|] == w[0];
    assert lo == |pre|;
    var r := Strip(s);
    var hi := lo + |r|;
    assert s[|pre| + |w| - 1] == w[|w| - 1];
    assert hi == |pre| + |w|;
    assert s[|pre|..|pre| + |w|] == w;
  }

  /** `str.lower()` on one character, for ASCII letters. */
  function LowerChar(c: char): char {
    if 'A' <= c <= 'Z' then (c as int + 32) as char else c
  }

  /** `str.lower()`, character by character, on ASCII letters. */
  function Lower(s: string): (r: string)
    ensures |r| == |s|
    ensures forall i :: 0 <= i < |s| ==> r[i] == LowerChar(s[i])
  {
    if |s| == 0 then [] else [LowerChar(s[0])] + Lower(s[1..])
  }

  /** `raw` is whitespace, then `word` in any mix of ASCII case, then
      whitespace. */
  predicate PaddedCaseVariant(raw: string, word: string) {
    var lo := LeadingSpace(raw);
    && lo + |word| <= |raw|
    && (forall i :: 0 <= i < |word| ==> LowerChar(raw[lo + i]) == word[i])
    && (forall i :: lo + |word| <= i < |raw| ==> IsSpace(raw[i]))
  }

  /** Stripping and lower-casing gives a word that neither starts nor ends
      with whitespace exactly when the text is that word, in any case,
      padded with whitespace. */
  lemma StripLowerSpells(raw: string, word: string)
    requires |word| > 0 && !IsSpace(word[0]) && !IsSpace(word[|word| - 1])
    ensures Lower(Strip(raw)) == word <==> PaddedCaseVariant(raw, word)
  {
  }
}
