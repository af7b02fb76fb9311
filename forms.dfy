/**
 * The naive form validators of the site: `validateEmail` and `exists`,
 * together with the `UNSET` value of an empty field.
 *
 * Both validators are total predicates over strings built from
 * `String.prototype.indexOf`, `length` and `String.prototype.trim`; those
 * three are modelled here first. Positions count characters (Unicode scalar
 * values) rather than UTF-16 code units; neither validator's answer depends
 * on that choice, since each only asks whether a position is 0, whether it is
 * the last one, and whether a length is positive.
 */
module Forms {

  /** The value of a form field that has not been filled in. */
  const UNSET: string := ""

  // ---------------------------------------------------------------------------
  // indexOf
  // ---------------------------------------------------------------------------

  /** `s.indexOf(c)`: the first position of `c` in `s`, or -1 when there is none. */
  function IndexOf(s: string, c: char): (r: int)
    ensures -1 <= r < |s|
    ensures r == -1 <==> c !in s
    ensures 0 <= r ==> s[r] == c && c !in s[..r]
  {
    if |s| == 0 then -1
    else if s[0] == c then 0
    else
      var k := IndexOf(s[1..], c);
      if k == -1 then -1 else k + 1
  }

  // ---------------------------------------------------------------------------
  // trim
  // ---------------------------------------------------------------------------

  /**
   * The characters `trim` removes: the ECMAScript WhiteSpace and
   * LineTerminator code points (tab, vertical tab, form feed, space,
   * no-break space, byte order mark, the Unicode space separators, line feed,
   * carriage return, line separator and paragraph separator).
   */
  predicate IsWhitespace(c: char)
    ensures IsWhitespace(c) ==>
      c != '@' && c != '.' && !('0' <= c <= '9') && !('a' <= c <= 'z') && !('A' <= c <= 'Z')
  {
    c == '\t' || c == '\n' || c == '\U{000B}' || c == '\U{000C}' || c == '\r' ||
    c == ' ' || c == '\U{00A0}' || c == '\U{1680}' ||
    ('\U{2000}' <= c <= '\U{200A}') ||
    c == '\U{2028}' || c == '\U{2029}' || c == '\U{202F}' || c == '\U{205F}' ||
    c == '\U{3000}' || c == '\U{FEFF}'
  }

  /** Every character of `s` is whitespace. */
  predicate AllWhitespace(s: string)
  {
    forall k :: 0 <= k < |s| ==> IsWhitespace(s[k])
  }

  /** `s` is `r` at position `i` with only whitespace before and after it. */
  predicate PaddedBy(s: string, r: string, i: int)
  {
    0 <= i && i + |r| <= |s| && r == s[i..i + |r|] &&
    AllWhitespace(s[..i]) && AllWhitespace(s[i + |r|..])
  }

  /** `s` with its longest whitespace prefix removed. */
  function TrimStart(s: string): (r: string)
    ensures |r| <= |s| && r == s[|s| - |r|..]
    ensures AllWhitespace(s[..|s| - |r|])
    ensures r == [] || !IsWhitespace(r[0])
    decreases |s|
  {
    if |s| > 0 && IsWhitespace(s[0]) then
      var r := TrimStart(s[1..]);
      assert s[..|s| - |r|] == [s[0]] + s[1..][..|s| - 1 - |r|];
      r
    else s
  }

  /** `s` with its longest whitespace suffix removed. */
  function TrimEnd(s: string): (r: string)
    ensures |r| <= |s| && r == s[..|r|]
    ensures AllWhitespace(s[|r|..])
    ensures r == [] || !IsWhitespace(r[|r| - 1])
    decreases |s|
  {
    if |s| > 0 && IsWhitespace(s[|s| - 1]) then
      var r := TrimEnd(s[..|s| - 1]);
      assert s[|r|..] == s[..|s| - 1][|r|..] + [s[|s| - 1]];
      r
    else s
  }

  /** `s.trim()`: whitespace removed from both ends. */
  function Trim(s: string): (r: string)
    ensures |r| <= |s|
    ensures exists i :: PaddedBy(s, r, i)
    ensures r == [] <==> AllWhitespace(s)
    ensures r == [] || (!IsWhitespace(r[0]) && !IsWhitespace(r[|r| - 1]))
  {
    var t := TrimStart(s);
    var r := TrimEnd(t);
    TrimParts(s, t, r);
    r
  }

  /** What `Trim` ensures, from the contracts of TrimStart (giving `t`) and TrimEnd (giving `r`). */
  lemma TrimParts(s: string, t: string, r: string)
    requires |t| <= |s| && t == s[|s| - |t|..] && AllWhitespace(s[..|s| - |t|])
    requires t == [] || !IsWhitespace(t[0])
    requires |r| <= |t| && r == t[..|r|] && AllWhitespace(t[|r|..])
    requires r == [] || !IsWhitespace(r[|r| - 1])
    ensures |r| <= |s|
    ensures exists i :: PaddedBy(s, r, i)
    ensures r == [] <==> AllWhitespace(s)
    ensures r == [] || (!IsWhitespace(r[0]) && !IsWhitespace(r[|r| - 1]))
  {
    TrimInfix(s, t, r);
    TrimEmpty(s, t, r);
    TrimEnds(t, r);
  }

  /** Trimming the end of a string that starts with a non-whitespace character keeps that start. */
  lemma TrimEnds(t: string, r: string)
    requires t == [] || !IsWhitespace(t[0])
    requires |r| <= |t| && r == t[..|r|]
    requires r == [] || !IsWhitespace(r[|r| - 1])
    ensures r == [] || (!IsWhitespace(r[0]) && !IsWhitespace(r[|r| - 1]))
  {
  }

  /** The end of `t` trimmed after the start of `s`: what is left sits in `s` padded by whitespace. */
  lemma TrimInfix(s: string, t: string, r: string)
    requires |t| <= |s| && t == s[|s| - |t|..] && AllWhitespace(s[..|s| - |t|])
    requires |r| <= |t| && r == t[..|r|] && AllWhitespace(t[|r|..])
    ensures PaddedBy(s, r, |s| - |t|)
  {
  }

  /** Nothing is left after trimming both ends exactly when everything was whitespace. */
  lemma TrimEmpty(s: string, t: string, r: string)
    requires |t| <= |s| && t == s[|s| - |t|..] && AllWhitespace(s[..|s| - |t|])
    requires t == [] || !IsWhitespace(t[0])
    requires |r| <= |t| && r == t[..|r|] && AllWhitespace(t[|r|..])
    ensures r == [] <==> AllWhitespace(s)
  {
  }

  // ---------------------------------------------------------------------------
  // The validators
  // ---------------------------------------------------------------------------

  /**
   * `validateEmail`: the first '@' is past the start, the first '.' is past
   * the start, and that first '.' is not the last character. Nothing relates
   * the '@' to the '.'.
   */
  predicate ValidateEmail(x: string)
    ensures ValidateEmail(x) ==> 3 <= |x| && '@' in x && '.' in x
  {
    var dot := IndexOf(x, '.');
    IndexOf(x, '@') > 0 && dot > 0 && dot != |x| - 1
  }

  /** `exists`: something other than whitespace is left after trimming. */
  predicate Exists(x: string)
    ensures Exists(x) <==> !AllWhitespace(x)
  {
    |Trim(x)| > 0
  }

  // ---------------------------------------------------------------------------
  // Properties of validateEmail
  // ---------------------------------------------------------------------------

  /**
   * What `ValidateEmail` accepts, without `IndexOf`: a string that does not
   * start with '@' or '.', contains an '@' somewhere, and contains a '.'
   * somewhere before its last character.
   */
  lemma ValidateEmailIff(x: string)
    ensures ValidateEmail(x) <==>
      |x| > 0 && x[0] != '@' && x[0] != '.' && '@' in x && '.' in x[..|x| - 1]
  {
  }

  /** A string without an '@', or whose first '@' is its first character, is rejected. */
  lemma RejectsWithoutAtAfterStart(x: string)
    requires '@' !in x || x[0] == '@'
    ensures !ValidateEmail(x)
  {
  }

  /** A string without a '.', or whose first '.' is its first character, is rejected. */
  lemma RejectsWithoutDotAfterStart(x: string)
    requires '.' !in x || x[0] == '.'
    ensures !ValidateEmail(x)
  {
  }

  /** A string whose only '.' is its last character is rejected, so "a@b." is. */
  lemma RejectsFirstDotLast(x: string)
    requires |x| > 0 && x[|x| - 1] == '.' && '.' !in x[..|x| - 1]
    ensures !ValidateEmail(x)
  {
  }

  /**
   * Only the first '.' and the first '@' matter: whatever is appended to an
   * accepted string, later dots and a trailing one included, it stays
   * accepted.
   */
  lemma ValidateEmailFirstDotOnly(x: string, tail: string)
    requires ValidateEmail(x)
    ensures ValidateEmail(x + tail)
  {
    ValidateEmailIff(x);
    ValidateEmailIff(x + tail);
    var j :| 0 <= j < |x| - 1 && x[..|x| - 1][j] == '.';
    assert (x + tail)[..|x + tail| - 1][j] == '.';
    var i :| 0 <= i < |x| && x[i] == '@';
    assert (x + tail)[i] == '@';
  }

  /**
   * `validateEmail` does not trim its input: whitespace in front of a string
   * with an '@' and a '.' before its last character makes it acceptable,
   * even when the string itself starts with '@' or '.'.
   */
  lemma {:induction false} LeadingWhitespaceAccepted(p: string, x: string)
    requires p != [] && AllWhitespace(p)
    requires '@' in x && |x| > 0 && '.' in x[..|x| - 1]
    ensures ValidateEmail(p + x)
  {
    var y := p + x;
    assert IsWhitespace(y[0]) by { assert y[0] == p[0]; }
    var i :| 0 <= i < |x| && x[i] == '@';
    assert y[|p| + i] == '@';
    var j :| 0 <= j < |x| - 1 && x[..|x| - 1][j] == '.';
    assert y[..|y| - 1][|p| + j] == '.';
    ValidateEmailIff(y);
  }

  /** "@a.b" is rejected, yet " @a.b" is accepted. */
  lemma LeadingWhitespaceExample()
    ensures !ValidateEmail("@a.b")
    ensures ValidateEmail(" @a.b")
  {
    var x := "@a.b";
    assert x[..|x| - 1][2] == '.';
    LeadingWhitespaceAccepted(" ", x);
    assert " " + x == " @a.b";
  }

  /** The quirks, on concrete strings. */
  lemma ValidateEmailExamples()
    ensures !ValidateEmail("")
    ensures !ValidateEmail(UNSET)
    ensures ValidateEmail("a.b@c")
    ensures ValidateEmail("a@b.c.")
    ensures !ValidateEmail("a@b.")
    ensures !ValidateEmail("@a.b")
    ensures !ValidateEmail(".a@b")
    ensures ValidateEmail("a.@")
  {
  }

  // ---------------------------------------------------------------------------
  // Properties of exists
  // ---------------------------------------------------------------------------

  /** `Exists(x)` holds exactly when `x` has a character that is not whitespace. */
  lemma ExistsIff(x: string)
    ensures Exists(x) <==> exists k :: 0 <= k < |x| && !IsWhitespace(x[k])
  {
  }

  /** An unset field does not exist. */
  lemma UnsetDoesNotExist()
    ensures !Exists(UNSET)
  {
  }

  /** TrimStart of `p + x`, when `p` is whitespace, ignores `p`. */
  lemma {:induction false} TrimStartPadded(p: string, x: string)
    requires AllWhitespace(p)
    ensures TrimStart(p + x) == TrimStart(x)
    decreases |p|
  {
    if p != [] {
      assert (p + x)[1..] == p[1..] + x;
      TrimStartPadded(p[1..], x);
    } else {
      assert p + x == x;
    }
  }

  /** Trimming the end of `x + q`, when `q` is whitespace, ignores `q`. */
  lemma {:induction false} TrimEndPadded(x: string, q: string)
    requires AllWhitespace(q)
    ensures TrimEnd(x + q) == TrimEnd(x)
    decreases |q|
  {
    if q != [] {
      assert (x + q)[..|x + q| - 1] == x + q[..|q| - 1];
      TrimEndPadded(x, q[..|q| - 1]);
    } else {
      assert x + q == x;
    }
  }

  /** Once `x` has a character that is not whitespace, what follows it is kept by TrimStart. */
  lemma {:induction false} TrimStartAppend(x: string, q: string)
    requires !AllWhitespace(x)
    ensures TrimStart(x + q) == TrimStart(x) + q
    decreases |x|
  {
    if IsWhitespace(x[0]) {
      assert (x + q)[1..] == x[1..] + q;
      TrimStartAppend(x[1..], q);
    }
  }

  /** `trim` gives the same string when whitespace is added at either end. */
  lemma TrimPadded(p: string, x: string, q: string)
    requires AllWhitespace(p) && AllWhitespace(q)
    ensures Trim(p + x + q) == Trim(x)
  {
    assert p + x + q == p + (x + q);
    TrimStartPadded(p, x + q);
    if AllWhitespace(x) {
      TrimStartPadded(x, q);
      assert TrimStart(q) == [];
    } else {
      TrimStartAppend(x, q);
      TrimEndPadded(TrimStart(x), q);
    }
  }

  /** `exists` gives the same answer when whitespace is added at either end. */
  lemma ExistsPadded(p: string, x: string, q: string)
    requires AllWhitespace(p) && AllWhitespace(q)
    ensures Exists(p + x + q) == Exists(x)
  {
    TrimPadded(p, x, q);
  }
}
