/**
 * The two string operations of Python that the test-case generator relies
 * on: str.strip() without arguments, and str.format with keyword fields on
 * a template that holds no escaped braces.
 */
module PyText {
  import opened Optional

  /**
   * Python's str.isspace for one character: general category Zs, or
   * bidirectional class WS, B or S. On ASCII it is string.whitespace plus
   * the four separators U+001C..U+001F.
   */
  predicate IsSpace(c: char)
    ensures c < '\U{80}' ==> (IsSpace(c) <==> c in " \t\n\r\U{0B}\U{0C}\U{1C}\U{1D}\U{1E}\U{1F}")
  {
    || ('\t' <= c <= '\r')
    || ('\U{1C}' <= c <= ' ')
    || c == '\U{85}' || c == '\U{A0}' || c == '\U{1680}'
    || ('\U{2000}' <= c <= '\U{200A}')
    || c == '\U{2028}' || c == '\U{2029}' || c == '\U{202F}' || c == '\U{205F}' || c == '\U{3000}'
  }

  /** Index of the first character at or after i that is not in the class `strip`. */
  function SkipFrom(s: string, strip: char -> bool, i: nat): (n: nat)
    requires i <= |s|
    ensures i <= n <= |s|
    ensures forall k :: i <= k < n ==> strip(s[k])
    ensures n < |s| ==> !strip(s[n])
    decreases |s| - i
  {
    if i < |s| && strip(s[i]) then SkipFrom(s, strip, i + 1) else i
  }

  /** Index just past the last character before j, and not before lo, that is not in the class `strip`. */
  function SkipBackTo(s: string, strip: char -> bool, lo: nat, j: nat): (m: nat)
    requires lo <= j <= |s|
    ensures lo <= m <= j
    ensures forall k :: m <= k < j ==> strip(s[k])
    ensures m > lo ==> !strip(s[m - 1])
    decreases j - lo
  {
    if j > lo && strip(s[j - 1]) then SkipBackTo(s, strip, lo, j - 1) else j
  }

  /** s without leading and trailing characters of the class `strip`. */
  function StripBy(s: string, strip: char -> bool): string
  {
    var i := SkipFrom(s, strip, 0);
    s[i..SkipBackTo(s, strip, i, |s|)]
  }

  /**
   * str.strip(): the slice of s between its leading and its trailing run of
   * whitespace; everything removed is whitespace and what is left neither
   * starts nor ends with it.
   */
  function Strip(s: string): (r: string)
    ensures var i := SkipFrom(s, IsSpace, 0);
      && i + |r| <= |s| && r == s[i..i + |r|]
      && (forall k :: 0 <= k < i ==> IsSpace(s[k]))
      && (forall k :: i + |r| <= k < |s| ==> IsSpace(s[k]))
      && (r != [] ==> !IsSpace(r[0]) && !IsSpace(r[|r| - 1]))
  {
    StripSlice(s, IsSpace);
    StripBy(s, IsSpace)
  }

  /**
   * Stripping leaves the slice of s between its leading and its trailing run
   * of the class: everything removed belongs to the class, and what is left
   * neither starts nor ends with a character of it.
   */
  lemma StripSlice(s: string, strip: char -> bool)
    ensures var r := StripBy(s, strip); var i := SkipFrom(s, strip, 0);
      && i + |r| <= |s| && r == s[i..i + |r|]
      && (forall k :: 0 <= k < i ==> strip(s[k]))
      && (forall k :: i + |r| <= k < |s| ==> strip(s[k]))
      && (r != [] ==> !strip(r[0]) && !strip(r[|r| - 1]))
  {
    var i := SkipFrom(s, strip, 0);
    var j := SkipBackTo(s, strip, i, |s|);
    assert j == i + |StripBy(s, strip)|;
    if i < j {
      assert StripBy(s, strip)[0] == s[i];
      assert StripBy(s, strip)[j - i - 1] == s[j - 1];
    }
  }

  /** Stripping twice is stripping once. */
  lemma StripIdempotent(s: string, strip: char -> bool)
    ensures StripBy(StripBy(s, strip), strip) == StripBy(s, strip)
  {
    var r := StripBy(s, strip);
    StripSlice(s, strip);
    StripKeepsTrimmed(r, strip);
  }

  /** A string with no character of the class at either end is left unchanged. */
  lemma StripKeepsTrimmed(s: string, strip: char -> bool)
    requires s != [] ==> !strip(s[0]) && !strip(s[|s| - 1])
    ensures StripBy(s, strip) == s
  {
    assert SkipFrom(s, strip, 0) == 0;
    assert SkipBackTo(s, strip, 0, |s|) == |s|;
  }

  /** One piece of a str.format template: literal text, or a named replacement field. */
  datatype Piece = Text(text: string) | Field(key: string)

  /** What one piece renders to; a field whose name args lacks is a KeyError. */
  function Render(p: Piece, args: map<string, string>): Option<string>
  {
    match p
    case Text(t) => Some(t)
    case Field(k) => if k in args then Some(args[k]) else None
  }

  /**
   * template.format(**args): the pieces rendered and joined; a KeyError
   * (None) exactly when some field's name is not among the arguments.
   */
  function Format(template: seq<Piece>, args: map<string, string>): (r: Option<string>)
    ensures r.Some? <==>
      forall i :: 0 <= i < |template| && template[i].Field? ==> template[i].key in args
  {
    if template == [] then Some("")
    else
      var head, tail := Render(template[0], args), Format(template[1..], args);
      assert forall i :: 1 <= i < |template| ==> template[i] == template[1..][i - 1];
      if head.Some? && tail.Some? then Some(head.value + tail.value) else None
  }

  /** A template of one piece renders as that piece. */
  lemma FormatPiece(p: Piece, args: map<string, string>)
    ensures Format([p], args) == Render(p, args)
  {
    assert [p][1..] == [];
    assert forall x: string :: x + "" == x;
  }
}
