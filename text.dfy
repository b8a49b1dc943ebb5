// String helpers that the chat handlers rely on: JavaScript's
// String.prototype.trim and the case-insensitive test /img/i.

module Text {

  /** The code points String.prototype.trim strips: ECMAScript WhiteSpace
      (tab, vertical tab, form feed, space, no-break space, byte order mark and
      the Unicode space separators) and LineTerminator. */
  predicate IsSpace(c: char) {
    c == '\t' || c == '\n' || c == '\U{000B}' || c == '\U{000C}' || c == '\r'
    || c == ' ' || c == '\U{00A0}' || c == '\U{1680}'
    || ('\U{2000}' <= c && c <= '\U{200A}')
    || c == '\U{2028}' || c == '\U{2029}' || c == '\U{202F}' || c == '\U{205F}'
    || c == '\U{3000}' || c == '\U{FEFF}'
  }

  predicate AllSpace(s: string) {
    forall i :: 0 <= i < |s| ==> IsSpace(s[i])
  }

  predicate IsSuffix(r: string, s: string) {
    |r| <= |s| && r == s[|s| - |r|..]
  }

  predicate IsPrefix(r: string, s: string) {
    |r| <= |s| && r == s[..|r|]
  }

  /** Drops the leading white space; what is left starts with a non-space. */
  function TrimStart(s: string): (r: string)
    ensures |r| <= |s|
    ensures r == [] || !IsSpace(r[0])
  {
    if s != [] && IsSpace(s[0]) then TrimStart(s[1..]) else s
  }

  /** Drops the trailing white space; what is left ends with a non-space. */
  function TrimEnd(s: string): (r: string)
    ensures |r| <= |s|
    ensures r == [] || !IsSpace(r[|r| - 1])
  {
    if s != [] && IsSpace(s[|s| - 1]) then TrimEnd(s[..|s| - 1]) else s
  }

  /** TrimStart keeps a suffix and everything it drops is white space. */
  lemma {:induction false} TrimStartDropsSpace(s: string)
    ensures IsSuffix(TrimStart(s), s)
    ensures AllSpace(s[..|s| - |TrimStart(s)|])
  {
    if s != [] && IsSpace(s[0]) {
      TrimStartDropsSpace(s[1..]);
      var k := |s| - |TrimStart(s)|;
      assert s[..k] == [s[0]] + s[1..][..k - 1];
    }
  }

  /** TrimEnd keeps a prefix and everything it drops is white space. */
  lemma {:induction false} TrimEndDropsSpace(s: string)
    ensures IsPrefix(TrimEnd(s), s)
    ensures AllSpace(s[|TrimEnd(s)|..])
  {
    if s != [] && IsSpace(s[|s| - 1]) {
      var front := s[..|s| - 1];
      TrimEndDropsSpace(front);
      var k := |TrimEnd(s)|;
      assert s[k..] == front[k..] + [s[|s| - 1]];
    }
  }

  /** String.prototype.trim. */
  function Trim(s: string): (r: string)
    ensures r == [] || (!IsSpace(r[0]) && !IsSpace(r[|r| - 1]))
  {
    TrimEndDropsSpace(TrimStart(s));
    TrimEnd(TrimStart(s))
  }

  /** The handlers' `!text.trim()` test. */
  predicate IsBlank(s: string) {
    Trim(s) == []
  }

  /** A string trims to nothing exactly when every character is white space. */
  lemma {:induction false} BlankIffAllSpace(s: string)
    ensures IsBlank(s) <==> AllSpace(s)
  {
    var t := TrimStart(s);
    TrimStartDropsSpace(s);
    TrimEndDropsSpace(t);
    if !AllSpace(s) {
      var i :| 0 <= i < |s| && !IsSpace(s[i]);
      assert t != [] && TrimEnd(t) != [];
    }
  }

  /** Leading white space is exactly what TrimStart removes. */
  lemma {:induction false} TrimStartPadded(pad: string, w: string)
    requires AllSpace(pad)
    requires w == [] || !IsSpace(w[0])
    ensures TrimStart(pad + w) == w
  {
    if pad != [] {
      assert (pad + w)[1..] == pad[1..] + w;
      TrimStartPadded(pad[1..], w);
    }
  }

  /** Trailing white space is exactly what TrimEnd removes. */
  lemma {:induction false} TrimEndPadded(w: string, pad: string)
    requires AllSpace(pad)
    requires w == [] || !IsSpace(w[|w| - 1])
    ensures TrimEnd(w + pad) == w
  {
    if pad != [] {
      var shorter := pad[..|pad| - 1];
      assert (w + pad)[..|w + pad| - 1] == w + shorter;
      TrimEndPadded(w, shorter);
    }
  }

  /** Trim undoes any white-space padding around a word with non-space ends:
      this is why "  cut " is read as the command "cut". */
  lemma TrimPadded(before: string, w: string, after: string)
    requires AllSpace(before) && AllSpace(after)
    requires w != [] && !IsSpace(w[0]) && !IsSpace(w[|w| - 1])
    ensures Trim(before + w + after) == w
  {
    assert before + w + after == before + (w + after);
    TrimStartPadded(before, w + after);
    TrimEndPadded(w, after);
  }

  predicate IsLetter(c: char, lower: char, upper: char) {
    c == lower || c == upper
  }

  /** "img" in any letter case starts at index k of s. */
  predicate ImgAt(s: string, k: nat)
    requires k + 3 <= |s|
  {
    IsLetter(s[k], 'i', 'I') && IsLetter(s[k + 1], 'm', 'M') && IsLetter(s[k + 2], 'g', 'G')
  }

  /** `s.match(/img/i)` is not null. Without the u flag, JavaScript folds case
      only within ASCII for these three letters. */
  predicate MentionsImg(s: string) {
    exists k: nat :: k + 3 <= |s| && ImgAt(s, k)
  }

  /** A message that mentions img still does once more text is put on
      either side of it. */
  lemma MentionsImgExtends(s: string, before: string, after: string)
    requires MentionsImg(s)
    ensures MentionsImg(before + s + after)
  {
    var k: nat :| k + 3 <= |s| && ImgAt(s, k);
    var t := before + s + after;
    assert t[|before| + k] == s[k] && t[|before| + k + 1] == s[k + 1] && t[|before| + k + 2] == s[k + 2];
    assert ImgAt(t, |before| + k);
  }
}
