/**
 * The email pattern of `find_emails`:
 *
 *   \b[A-Za-z0-9._%+-]+@[A-Za-z0-9.-]+\.[A-Za-z]{2,}\b
 *
 * given twice: as a grammar predicate on a candidate string (`IsEmail`),
 * and as the scanner `EmailAt`, which does what Python's backtracking
 * engine does for this pattern at one start position.
 */
module Emails {
  import opened Text

  /** `[A-Za-z0-9._%+-]` */
  predicate IsLocalChar(c: char)
  {
    IsAsciiLetter(c) || IsDigit(c) || c == '.' || c == '_' || c == '%' || c == '+' || c == '-'
  }

  /** `[A-Za-z0-9.-]` */
  predicate IsDomainChar(c: char)
  {
    IsAsciiLetter(c) || IsDigit(c) || c == '.' || c == '-'
  }

  /** `s` splits as local part `s[..at]`, '@', domain `s[at+1..dot]`, '.', top-level label `s[dot+1..]`. */
  predicate EmailParts(s: string, at: nat, dot: nat)
  {
    && 0 < at && at + 1 < dot && dot + 3 <= |s|
    && s[at] == '@' && s[dot] == '.'
    && (forall x :: 0 <= x < at ==> IsLocalChar(s[x]))
    && (forall x :: at < x < dot ==> IsDomainChar(s[x]))
    && (forall x :: dot < x < |s| ==> IsAsciiLetter(s[x]))
  }

  /** The email grammar, without the word boundaries. */
  predicate IsEmail(s: string)
  {
    exists at: nat, dot: nat | at < dot < |s| :: EmailParts(s, at, dot)
  }

  /** End of the `[A-Za-z]{2,}` run that follows a '.' at `p`. */
  function TldEnd(t: string, p: nat): nat
    requires p < |t|
  {
    RunEnd(t, p + 1, IsAsciiLetter)
  }

  /** A '.' at `p` followed by at least two letters that end on a word boundary. */
  predicate TldFits(t: string, p: nat)
    requires p < |t|
  {
    t[p] == '.' && TldEnd(t, p) >= p + 3 && WordBoundary(t, TldEnd(t, p))
  }

  /**
   * The greedy domain run backs off one character at a time, so the engine
   * settles on the LAST fitting '.' in `[lo, hi)`.
   */
  function LastDot(t: string, lo: nat, hi: nat): (r: Option<nat>)
    requires lo <= hi <= |t|
    ensures r.Some? ==> lo <= r.value < hi && TldFits(t, r.value)
    ensures r.Some? ==> forall p :: r.value < p < hi ==> !TldFits(t, p)
    ensures r.None? ==> forall p :: lo <= p < hi ==> !TldFits(t, p)
    decreases hi - lo
  {
    if hi == lo then None
    else if TldFits(t, hi - 1) then Some(hi - 1)
    else LastDot(t, lo, hi - 1)
  }

  /** The end of the email match the engine finds when it tries position `i`, if any. */
  function EmailAt(t: string, i: nat): (r: Option<nat>)
    requires i <= |t|
    ensures r.Some? ==> i < r.value <= |t|
  {
    if !WordBoundary(t, i) then None
    else
      var at := RunEnd(t, i, IsLocalChar);
      if at == i || at == |t| || t[at] != '@' then None
      else
        var k := RunEnd(t, at + 1, IsDomainChar);
        if k < at + 2 then None
        else
          match LastDot(t, at + 2, k)
          case None => None
          case Some(p) => Some(TldEnd(t, p))
  }

  /** Every match the scanner reports is an email delimited by word boundaries. */
  lemma EmailAtSound(t: string, i: nat)
    requires i <= |t| && EmailAt(t, i).Some?
    ensures var e := EmailAt(t, i).value;
      IsEmail(t[i..e]) && WordBoundary(t, i) && WordBoundary(t, e)
  {
    var e := EmailAt(t, i).value;
    var at := RunEnd(t, i, IsLocalChar);
    var k := RunEnd(t, at + 1, IsDomainChar);
    var p := LastDot(t, at + 2, k).value;
    var s := t[i..e];
    assert EmailParts(s, at - i, p - i);
  }

  /** The parts of an email that sits at `t[i..e]`, read off in `t`'s own positions. */
  lemma EmailPartsInText(t: string, i: nat, e: nat, at: nat, dot: nat)
    requires i <= e <= |t| && EmailParts(t[i..e], at, dot)
    ensures i + at < |t| && t[i + at] == '@'
    ensures i + dot < |t| && t[i + dot] == '.'
    ensures i + dot + 3 <= e
    ensures forall x :: i <= x < i + at ==> IsLocalChar(t[x])
    ensures forall x :: i + at < x < e ==> IsDomainChar(t[x])
    ensures forall x :: i + dot < x < e ==> IsAsciiLetter(t[x])
  {
    var s := t[i..e];
    assert forall x :: i <= x < e ==> t[x] == s[x - i];
  }

  /** Of two fitting dots, the later one gives the longer match. */
  lemma LaterDotLonger(t: string, p0: nat, p: nat)
    requires p0 < p < |t| && TldFits(t, p)
    ensures TldEnd(t, p0) <= p
  {
  }

  /**
   * An email delimited by word boundaries at `t[i..e]`, read off as the
   * scanner sees it: the local run ends at its '@', and its last '.' is a
   * fitting dot inside the domain run whose letters end at `e`.
   */
  lemma EmailLayout(t: string, i: nat, e: nat) returns (at: nat, p0: nat)
    requires i <= e <= |t|
    requires IsEmail(t[i..e]) && WordBoundary(t, i) && WordBoundary(t, e)
    ensures i < at < |t| && t[at] == '@' && RunEnd(t, i, IsLocalChar) == at
    ensures at + 2 <= p0 < RunEnd(t, at + 1, IsDomainChar)
    ensures TldFits(t, p0) && TldEnd(t, p0) == e
  {
    var a: nat, d: nat :| a < d < |t[i..e]| && EmailParts(t[i..e], a, d);
    EmailPartsInText(t, i, e, a, d);
    at, p0 := i + a, i + d;
    RunEndIs(t, i, at, IsLocalChar);
    assert IsAsciiLetter(t[e - 1]);
    RunEndIs(t, p0 + 1, e, IsAsciiLetter);
  }

  /**
   * Conversely, whenever some email delimited by word boundaries starts at
   * `i`, the scanner reports a match there, and none shorter than it.
   */
  lemma EmailAtLongest(t: string, i: nat, e: nat)
    requires i <= e <= |t|
    requires IsEmail(t[i..e]) && WordBoundary(t, i) && WordBoundary(t, e)
    ensures EmailAt(t, i).Some? && e <= EmailAt(t, i).value
  {
    var at, p0 := EmailLayout(t, i, e);
    var k := RunEnd(t, at + 1, IsDomainChar);
    assert LastDot(t, at + 2, k).Some?;
    var p := LastDot(t, at + 2, k).value;
    if p != p0 {
      LaterDotLonger(t, p0, p);
    }
    EmailAtUnfold(t, i, at, k, p);
  }

  lemma EmailAtUnfold(t: string, i: nat, at: nat, k: nat, p: nat)
    requires i < at < |t| && WordBoundary(t, i)
    requires RunEnd(t, i, IsLocalChar) == at && t[at] == '@'
    requires RunEnd(t, at + 1, IsDomainChar) == k && k >= at + 2
    requires LastDot(t, at + 2, k) == Some(p)
    ensures EmailAt(t, i) == Some(TldEnd(t, p))
  {
  }
}
