/**
 * Character classes and small sequence helpers shared by the extractors,
 * the password check and the chat replies.
 *
 * Python's `re` module matches `\d`, `\s` and `\b` against Unicode classes;
 * this model uses their ASCII members only.
 */
module Text {

  datatype Option<+T> = None | Some(value: T)

  predicate IsAsciiLower(c: char) { 'a' <= c <= 'z' }

  predicate IsAsciiUpper(c: char) { 'A' <= c <= 'Z' }

  predicate IsAsciiLetter(c: char) { IsAsciiLower(c) || IsAsciiUpper(c) }

  /** `\d` */
  predicate IsDigit(c: char) { '0' <= c <= '9' }

  /** `\s`: the ASCII characters for which Python's `str.isspace()` holds. */
  predicate IsSpace(c: char)
  {
    c == ' ' || c == '\t' || c == '\n' || c == '\r' || c == '\U{000B}' || c == '\U{000C}'
    || c == '\U{001C}' || c == '\U{001D}' || c == '\U{001E}' || c == '\U{001F}'
  }

  /** The characters `\b` treats as part of a word. */
  predicate IsWordChar(c: char) { IsAsciiLetter(c) || IsDigit(c) || c == '_' }

  /** `\b` at position `i` of `t`: exactly one of the neighbours is a word character. */
  predicate WordBoundary(t: string, i: nat)
    requires i <= |t|
  {
    (i > 0 && IsWordChar(t[i - 1])) != (i < |t| && IsWordChar(t[i]))
  }

  /** Where the longest run of `p`-characters starting at `i` ends (a greedy `[...]*`). */
  function RunEnd(t: string, i: nat, p: char -> bool): (k: nat)
    requires i <= |t|
    ensures i <= k <= |t|
    ensures forall x :: i <= x < k ==> p(t[x])
    ensures k == |t| || !p(t[k])
    decreases |t| - i
  {
    if i < |t| && p(t[i]) then RunEnd(t, i + 1, p) else i
  }

  /** A run of `p`-characters from `i` that stops at `k` is the greedy run. */
  lemma RunEndIs(t: string, i: nat, k: nat, p: char -> bool)
    requires i <= k <= |t|
    requires forall x :: i <= x < k ==> p(t[x])
    requires k == |t| || !p(t[k])
    ensures RunEnd(t, i, p) == k
  {
  }

  predicate NoDuplicates<T(==)>(s: seq<T>)
  {
    forall i, j :: 0 <= i < j < |s| ==> s[i] != s[j]
  }

  /**
   * The elements of `s` once each, each where it last occurs.
   * Python's `list(set(xs))` has the same elements in an unspecified order.
   */
  function Distinct<T(==)>(s: seq<T>): (r: seq<T>)
    ensures NoDuplicates(r)
    ensures forall i :: 0 <= i < |r| ==> r[i] in s
    ensures forall i :: 0 <= i < |s| ==> s[i] in r
    ensures |r| <= |s|
  {
    if s == [] then []
    else
      var rest := Distinct(s[1..]);
      if s[0] in rest then rest else [s[0]] + rest
  }

  /** Python's `sep.join(parts)`. */
  function Join(parts: seq<string>, sep: string): string
  {
    if parts == [] then []
    else if |parts| == 1 then parts[0]
    else parts[0] + sep + Join(parts[1..], sep)
  }

  /** A join of no parts is empty; otherwise the first part opens it and the last part closes it. */
  lemma {:induction false} JoinEnds(parts: seq<string>, sep: string)
    ensures parts == [] ==> Join(parts, sep) == []
    ensures parts != [] ==> |parts[0]| <= |Join(parts, sep)| && Join(parts, sep)[..|parts[0]|] == parts[0]
    ensures parts != [] ==> var r, last := Join(parts, sep), parts[|parts| - 1];
      |last| <= |r| && r[|r| - |last|..] == last
    decreases |parts|
  {
    if |parts| > 1 {
      JoinEnds(parts[1..], sep);
      assert parts[1..][|parts[1..]| - 1] == parts[|parts| - 1];
    }
  }
}
