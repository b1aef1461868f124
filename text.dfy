/**
  String operations the handlers rely on: `String.prototype.trim` (used to
  reject blank text) and `split(' ')` (used to take the token out of the
  `authorization` header), together with the reference definitions they
  are proved against.
 */
module Text {

  /** The ECMAScript WhiteSpace and LineTerminator code points, which `trim` strips. */
  predicate IsWhitespace(c: char)
  {
    || c == '\t' || c == '\n' || c == '\U{000B}' || c == '\U{000C}' || c == '\r'
    || c == ' ' || c == '\U{00A0}' || c == '\U{1680}' || ('\U{2000}' <= c <= '\U{200A}')
    || c == '\U{2028}' || c == '\U{2029}' || c == '\U{202F}' || c == '\U{205F}'
    || c == '\U{3000}' || c == '\U{FEFF}'
  }

  /** Reference definition of a blank string: nothing but whitespace. */
  predicate AllWhitespace(s: string)
  {
    forall i :: 0 <= i < |s| ==> IsWhitespace(s[i])
  }

  /** The number of whitespace characters `s` starts with. */
  function LeadingWhitespace(s: string): (k: nat)
    ensures k <= |s|
    ensures forall i :: 0 <= i < k ==> IsWhitespace(s[i])
    ensures k < |s| ==> !IsWhitespace(s[k])
  {
    if s != [] && IsWhitespace(s[0]) then 1 + LeadingWhitespace(s[1..]) else 0
  }

  /** Where the trailing whitespace of `s` begins, looking no further left than `lo`. */
  function TrailingStart(s: string, lo: nat): (e: nat)
    requires lo <= |s|
    ensures lo <= e <= |s|
    ensures forall i :: e <= i < |s| ==> IsWhitespace(s[i])
    ensures e > lo ==> !IsWhitespace(s[e - 1])
  {
    if |s| > lo && IsWhitespace(s[|s| - 1]) then TrailingStart(s[..|s| - 1], lo) else |s|
  }

  /**
    `s.trim()`: the slice of `s` left once the whitespace at both ends is
    removed. Only whitespace is dropped; what is kept is empty exactly when
    `s` is blank, and otherwise begins and ends with a non-whitespace
    character.
   */
  function Trim(s: string): (r: string)
    ensures var k := LeadingWhitespace(s);
      && k + |r| <= |s| && r == s[k..k + |r|]
      && (forall i :: 0 <= i < k ==> IsWhitespace(s[i]))
      && (forall i :: k + |r| <= i < |s| ==> IsWhitespace(s[i]))
    ensures r == [] <==> AllWhitespace(s)
    ensures r != [] ==> !IsWhitespace(r[0]) && !IsWhitespace(r[|r| - 1])
  {
    var k := LeadingWhitespace(s);
    var e := TrailingStart(s, k);
    assert k < |s| ==> e > k;
    s[k..e]
  }

  /** `s.split(' ')`: the pieces between single spaces, empty pieces included; never empty. */
  function Split(s: string): (r: seq<string>)
    ensures |r| >= 1
    ensures forall i :: 0 <= i < |r| ==> ' ' !in r[i]
  {
    if s == [] then [""]
    else
      var rest := Split(s[1..]);
      if s[0] == ' ' then [""] + rest
      else [[s[0]] + rest[0]] + rest[1..]
  }

  /** `pieces.join(' ')`, the inverse of `Split`. */
  function Join(pieces: seq<string>): string
  {
    if |pieces| == 0 then ""
    else if |pieces| == 1 then pieces[0]
    else pieces[0] + " " + Join(pieces[1..])
  }

  /** Splitting and joining again gives back the original string. */
  lemma {:induction false} JoinSplit(s: string)
    ensures Join(Split(s)) == s
  {
    if s != [] {
      var rest := Split(s[1..]);
      JoinSplit(s[1..]);
      if s[0] == ' ' {
        assert Split(s) == [""] + rest;
        assert Join(Split(s)) == "" + " " + Join(rest);
        assert s == [s[0]] + s[1..];
      } else if |rest| == 1 {
        assert Join(Split(s)) == [s[0]] + rest[0];
        assert s == [s[0]] + s[1..];
      } else {
        var r := Split(s);
        assert r[1..] == rest[1..];
        assert Join(r) == [s[0]] + rest[0] + " " + Join(rest[1..]);
        assert s == [s[0]] + s[1..];
      }
    }
  }

  /** A word without spaces splits into itself. */
  lemma {:induction false} SplitWord(w: string)
    requires ' ' !in w
    ensures Split(w) == [w]
  {
    if w != [] {
      SplitWord(w[1..]);
      assert w == [w[0]] + w[1..];
    }
  }

  /** A space-free word followed by a space splits off as the first piece. */
  lemma {:induction false} SplitAfterWord(w: string, s: string)
    requires ' ' !in w
    ensures Split(w + " " + s) == [w] + Split(s)
  {
    if w == [] {
      assert w + " " + s == [' '] + s;
      assert (w + " " + s)[1..] == s;
    } else {
      SplitAfterWord(w[1..], s);
      var x := w + " " + s;
      assert x[0] == w[0];
      assert x[1..] == w[1..] + " " + s;
      assert [w[0]] + w[1..] == w;
    }
  }

  /** Joining space-free pieces and splitting again gives back the pieces. */
  lemma {:induction false} SplitJoin(pieces: seq<string>)
    requires |pieces| >= 1
    requires forall i :: 0 <= i < |pieces| ==> ' ' !in pieces[i]
    ensures Split(Join(pieces)) == pieces
  {
    if |pieces| == 1 {
      SplitWord(pieces[0]);
    } else {
      SplitJoin(pieces[1..]);
      SplitAfterWord(pieces[0], Join(pieces[1..]));
      assert [pieces[0]] + pieces[1..] == pieces;
    }
  }
}
