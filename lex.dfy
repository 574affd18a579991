/** Character classes and matching steps shared by the two line grammars.

    The classes are ASCII: Python's `\s`, `\d` and `\w` on `str` also accept
    non-ASCII whitespace, digits and letters, which this model leaves out.
    Positions are indices into the line; a run is a half-open range [i, j). */
module Lex {
  import opened Wrappers

  datatype CharClass = Space | Digit | NonSpace | Word | Letter | NotNewline

  /** `\s`: space, tab, line feed, vertical tab, form feed, carriage return. */
  predicate IsSpace(c: char) {
    c == ' ' || '\t' <= c <= '\r'
  }

  /** `\d` */
  predicate IsDigit(c: char) {
    '0' <= c <= '9'
  }

  /** `[A-Za-z]` */
  predicate IsLetter(c: char) {
    'A' <= c <= 'Z' || 'a' <= c <= 'z'
  }

  /** `\w` */
  predicate IsWord(c: char) {
    IsLetter(c) || IsDigit(c) || c == '_'
  }

  predicate In(c: char, cls: CharClass) {
    match cls
    case Space => IsSpace(c)
    case Digit => IsDigit(c)
    case NonSpace => !IsSpace(c)   // `\S`
    case Word => IsWord(c)
    case Letter => IsLetter(c)
    case NotNewline => c != '\n'   // `.` without DOTALL
  }

  /** Every character of s[i..j] is in the class. */
  predicate AllIn(s: string, i: nat, j: nat, cls: CharClass)
    requires i <= j <= |s|
  {
    forall k {:trigger In(s[k], cls)} :: i <= k < j ==> In(s[k], cls)
  }

  /** Every character of t is in the class. */
  predicate Only(t: string, cls: CharClass) {
    forall i :: 0 <= i < |t| ==> In(t[i], cls)
  }

  /** A non-empty run of decimal digits (`\d+`). */
  predicate Numeral(t: string) {
    |t| > 0 && forall i :: 0 <= i < |t| ==> IsDigit(t[i])
  }

  /** The end of the longest run of `cls` starting at i: what a greedy `cls*` consumes. */
  function Span(s: string, i: nat, cls: CharClass): (j: nat)
    requires i <= |s|
    ensures i <= j <= |s|
    ensures AllIn(s, i, j, cls)
    ensures j == |s| || !In(s[j], cls)
    decreases |s| - i
  {
    if i < |s| && In(s[i], cls) then Span(s, i + 1, cls) else i
  }

  /** A run that stops at a character outside the class is the greedy run. */
  lemma SpanAt(s: string, i: nat, j: nat, cls: CharClass)
    requires i <= j <= |s|
    requires AllIn(s, i, j, cls)
    requires j == |s| || !In(s[j], cls)
    ensures Span(s, i, cls) == j
  {
  }

  /** The regular expression `\s+(.+?)D` read without priorities: spaces on
      [p, b), a non-empty run without line feeds on [b, e), and the delimiter D
      matching at e. */
  predicate Fits(s: string, p: nat, b: nat, e: nat, delim: nat -> bool) {
    p < b < e <= |s| && AllIn(s, p, b, Space) && AllIn(s, b, e, NotNewline) && delim(e)
  }

  /** The lazy `.*?` followed by D: the first position e >= q, reachable
      without crossing a line feed, at which D matches. */
  function FirstDelim(s: string, q: nat, delim: nat -> bool): (r: Option<nat>)
    requires q <= |s|
    ensures r.Some? ==> q <= r.value <= |s| && AllIn(s, q, r.value, NotNewline) && delim(r.value)
    ensures r.Some? ==> forall e: nat :: q <= e < r.value ==> !delim(e)
    ensures r.None? ==> forall e: nat :: q <= e <= |s| && AllIn(s, q, e, NotNewline) ==> !delim(e)
    decreases |s| - q
  {
    if delim(q) then Some(q)
    else if q < |s| && s[q] != '\n' then FirstDelim(s, q + 1, delim)
    else
      assert q == |s| || !In(s[q], NotNewline);
      None
  }

  /** The first delimiter position reachable from q is the one FirstDelim finds. */
  lemma FirstDelimAt(s: string, q: nat, e: nat, delim: nat -> bool)
    requires q <= e <= |s|
    requires AllIn(s, q, e, NotNewline) && delim(e)
    requires forall x: nat :: q <= x < e ==> !delim(x)
    ensures FirstDelim(s, q, delim) == Some(e)
  {
  }

  /** The lazy `.+?` started at b and followed by D. */
  function LazyFrom(s: string, b: nat, delim: nat -> bool): (r: Option<nat>)
    requires b <= |s|
    ensures r.Some? ==> b < r.value <= |s| && AllIn(s, b, r.value, NotNewline) && delim(r.value)
    ensures r.Some? ==> forall e: nat :: b < e < r.value ==> !delim(e)
    ensures r.None? ==> forall e: nat :: b < e <= |s| && AllIn(s, b, e, NotNewline) ==> !delim(e)
  {
    if b < |s| && s[b] != '\n' then
      var r := FirstDelim(s, b + 1, delim);
      assert forall e: nat :: b < e <= |s| && AllIn(s, b, e, NotNewline) ==> AllIn(s, b + 1, e, NotNewline);
      r
    else
      assert forall e: nat :: b < e <= |s| ==> !AllIn(s, b, e, NotNewline) by {
        forall e: nat | b < e <= |s| ensures !AllIn(s, b, e, NotNewline) {
          assert !In(s[b], NotNewline);
        }
      }
      None
  }

  /** After a greedy `\s+` has taken [p, b), a backtracking engine tries the
      lazy group at start b, then b - 1, ..., down to p + 1, and at each start
      the shortest end first. */
  function Backtrack(s: string, p: nat, b: nat, delim: nat -> bool): (r: Option<(nat, nat)>)
    requires p <= b <= |s|
    requires AllIn(s, p, b, Space)
    ensures r.Some? ==> Fits(s, p, r.value.0, r.value.1, delim) && r.value.0 <= b
    ensures r.Some? ==> forall e: nat :: r.value.0 < e < r.value.1 ==> !delim(e)
    ensures r.Some? ==> forall b': nat, e: nat :: r.value.0 < b' <= b ==> !Fits(s, p, b', e, delim)
    ensures r.None? ==> forall b': nat, e: nat :: p < b' <= b ==> !Fits(s, p, b', e, delim)
    decreases b
  {
    if b <= p then None
    else
      match LazyFrom(s, b, delim)
      case Some(e) => Some((b, e))
      case None => Backtrack(s, p, b - 1, delim)
  }

  /** `\s+(.+?)D` at position p, with the priorities of a backtracking engine:
      the group starts as late as possible and, given its start, ends as early
      as possible. None exactly when no reading of the pattern fits. */
  function LazyAfterSpaces(s: string, p: nat, delim: nat -> bool): (r: Option<(nat, nat)>)
    requires p <= |s|
    ensures r.Some? ==> Fits(s, p, r.value.0, r.value.1, delim)
    ensures r.Some? ==> forall e: nat :: r.value.0 < e < r.value.1 ==> !delim(e)
    ensures r.Some? ==> forall b: nat, e: nat :: r.value.0 < b ==> !Fits(s, p, b, e, delim)
    ensures r.None? ==> forall b: nat, e: nat :: !Fits(s, p, b, e, delim)
  {
    var m := Span(s, p, Space);
    var r := Backtrack(s, p, m, delim);
    r
  }
}
