/** The part of ECMAScript's `String.prototype.trim` that the chat widget
    relies on: strip the longest leading and the longest trailing run of
    white-space characters. Characters are Unicode scalar values. */
module Text {

  /** ECMAScript WhiteSpace and LineTerminator code points: tab, line
      tabulation, form feed, space, no-break space, the byte order mark,
      the space separators of category Zs, line feed, carriage return, and
      the line and paragraph separators. */
  predicate IsWhiteSpace(c: char) {
    || c == '\t' || c == '\n' || c == '\U{000B}' || c == '\U{000C}' || c == '\r'
    || c == ' ' || c == '\U{00A0}' || c == '\U{1680}'
    || ('\U{2000}' <= c <= '\U{200A}')
    || c == '\U{2028}' || c == '\U{2029}' || c == '\U{202F}' || c == '\U{205F}'
    || c == '\U{3000}' || c == '\U{FEFF}'
  }

  /** Every character of `s` is white space (vacuously so for ""). */
  predicate Blank(s: string)
    decreases |s|
  {
    s == [] || (IsWhiteSpace(s[0]) && Blank(s[1..]))
  }

  /** `Blank` read character by character. */
  lemma {:induction false} BlankAt(s: string, i: int)
    requires Blank(s) && 0 <= i < |s|
    ensures IsWhiteSpace(s[i])
    decreases |s|
  {
    if i > 0 {
      BlankAt(s[1..], i - 1);
    }
  }

  /** A blank string stays blank when a white-space character is appended. */
  lemma {:induction false} BlankSnoc(s: string, c: char)
    requires Blank(s) && IsWhiteSpace(c)
    ensures Blank(s + [c])
    decreases |s|
  {
    if s != [] {
      assert (s + [c])[1..] == s[1..] + [c];
      BlankSnoc(s[1..], c);
    }
  }

  /** `s` begins and ends with a character that is not white space. */
  predicate Trimmed(s: string) {
    s == [] || (!IsWhiteSpace(s[0]) && !IsWhiteSpace(s[|s| - 1]))
  }

  /** Drops the leading white space: the result is a suffix of `s`, what was
      dropped is blank, and the result does not start with white space. */
  function TrimStart(s: string): (r: string)
    ensures |r| <= |s| && r == s[|s| - |r|..]
    ensures Blank(s[..|s| - |r|])
    ensures r == [] || !IsWhiteSpace(r[0])
  {
    if s != [] && IsWhiteSpace(s[0]) then
      var r := TrimStart(s[1..]);
      var k := |s| - |r|;
      assert s[k..] == s[1..][k - 1..];
      assert s[..k][1..] == s[1..][..k - 1];
      r
    else
      s
  }

  /** Drops the trailing white space: the result is a prefix of `s`, what was
      dropped is blank, and the result does not end with white space. */
  function TrimEnd(s: string): (r: string)
    ensures |r| <= |s| && r == s[..|r|]
    ensures Blank(s[|r|..])
    ensures r == [] || !IsWhiteSpace(r[|r| - 1])
  {
    if s != [] && IsWhiteSpace(s[|s| - 1]) then
      var r := TrimEnd(s[..|s| - 1]);
      assert s[..|r|] == s[..|s| - 1][..|r|];
      assert s[|r|..] == s[..|s| - 1][|r|..] + [s[|s| - 1]];
      BlankSnoc(s[..|s| - 1][|r|..], s[|s| - 1]);
      r
    else
      s
  }

  /** `String.prototype.trim`: `s` with both white-space runs removed. The
      result is the infix of `s` that starts at `TrimOffset(s)`, and it
      neither starts nor ends with white space (`TrimCutsBlank` shows that
      what lies around it is blank). */
  function Trim(s: string): (r: string)
    ensures |r| <= |s| - TrimOffset(s)
    ensures r == s[TrimOffset(s)..TrimOffset(s) + |r|]
    ensures Trimmed(r)
  {
    var t := TrimStart(s);
    var r := TrimEnd(t);
    assert s[TrimOffset(s)..TrimOffset(s) + |r|] == t[..|r|];
    r
  }

  /** What `Trim` cuts off on either side is white space. */
  lemma TrimCutsBlank(s: string)
    ensures Blank(s[..TrimOffset(s)]) && Blank(s[TrimOffset(s) + |Trim(s)|..])
  {
    var t := TrimStart(s);
    var k := TrimOffset(s);
    var r := TrimEnd(t);
    assert s[k + |r|..] == t[|r|..];
  }

  /** How many leading white-space characters `Trim` removes. */
  function TrimOffset(s: string): (k: nat)
    ensures k <= |s|
  {
    |s| - |TrimStart(s)|
  }

  /** The empty-input guard of the chat widget: trimming yields "" exactly
      when the input is blank. */
  lemma TrimEmptyIffBlank(s: string)
    ensures Trim(s) == [] <==> Blank(s)
  {
    var t := TrimStart(s);
    if Trim(s) == [] {
      // TrimEnd leaves a non-blank string non-empty, so nothing survived TrimStart
      assert t == [];
      assert s[..|s|] == s;
    } else if Blank(s) {
      BlankAt(s, TrimOffset(s));
    }
  }

  /** A string that neither starts nor ends with white space is its own trim. */
  lemma TrimOfTrimmed(s: string)
    requires Trimmed(s)
    ensures Trim(s) == s
  {
    assert TrimStart(s) == s;
    assert TrimEnd(s) == s;
  }

  /** Trimming twice is trimming once. */
  lemma TrimIdempotent(s: string)
    ensures Trim(Trim(s)) == Trim(s)
  {
    TrimOfTrimmed(Trim(s));
  }
}
