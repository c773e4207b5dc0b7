/**
 * `find_emails` and `find_phone_numbers`: `list(set(re.findall(pattern, text)))`.
 *
 * `re.findall` tries each position from the left and, after a match,
 * carries on where the match ended (`Spans`). `list(set(...))` keeps each
 * match once (`Distinct`).
 */
module Extract {
  import opened Text
  import opened Emails
  import opened Phones

  datatype Pattern = EmailPattern | PhonePattern

  /** Where the match the engine finds at `i` ends, if it finds one. */
  function MatchAt(pat: Pattern, t: string, i: nat): (r: Option<nat>)
    requires i <= |t|
    ensures r.Some? ==> i < r.value <= |t|
  {
    match pat
    case EmailPattern => EmailAt(t, i)
    case PhonePattern => PhoneAt(t, i)
  }

  /**
   * What the engine finds when the scan tries each position of `t`:
   * `MatchTable(pat, t)[x]` is the end of the match at `x`, if any.
   */
  function MatchTable(pat: Pattern, t: string): (ms: seq<Option<nat>>)
    ensures |ms| == |t|
    ensures forall x :: 0 <= x < |ms| ==> ms[x] == MatchAt(pat, t, x)
    ensures WellFormed(ms)
  {
    seq(|t|, x requires 0 <= x < |t| => MatchAt(pat, t, x))
  }

  /** Every match in the table is non-empty and ends inside the text. */
  predicate WellFormed(ms: seq<Option<nat>>)
  {
    forall x :: 0 <= x < |ms| && ms[x].Some? ==> x < ms[x].value <= |ms|
  }

  /**
   * The spans `re.findall` reports from position `i` on: each is a match
   * found where the scan tried, and they come in order without overlapping.
   */
  function Spans(ms: seq<Option<nat>>, i: nat): (r: seq<(nat, nat)>)
    requires WellFormed(ms) && i <= |ms|
    ensures forall n :: 0 <= n < |r| ==> i <= r[n].0 < r[n].1 <= |ms| && ms[r[n].0] == Some(r[n].1)
    ensures forall n, n' :: 0 <= n < n' < |r| ==> r[n].1 <= r[n'].0
    ensures |r| <= |ms| - i
    decreases |ms| - i
  {
    if i == |ms| then []
    else
      match ms[i]
      case Some(e) => [(i, e)] + Spans(ms, e)
      case None => Spans(ms, i + 1)
  }

  /** The substrings of `t` that the spans mark, in order. */
  function Texts(t: string, sp: seq<(nat, nat)>): (r: seq<string>)
    requires forall n :: 0 <= n < |sp| ==> sp[n].0 <= sp[n].1 <= |t|
    ensures |r| == |sp|
    ensures forall n :: 0 <= n < |r| ==> r[n] == t[sp[n].0..sp[n].1]
  {
    if sp == [] then [] else [t[sp[0].0..sp[0].1]] + Texts(t, sp[1..])
  }

  /** The spans `re.findall` reports for `pat` on `t`. */
  function FindSpans(pat: Pattern, t: string): seq<(nat, nat)>
  {
    Spans(MatchTable(pat, t), 0)
  }

  /** `re.findall(pattern, t)`: the matched substrings, in order; none is empty, so there are at most `|t|`. */
  function FindAll(pat: Pattern, t: string): (r: seq<string>)
    ensures |r| <= |t|
    ensures forall n :: 0 <= n < |r| ==> |r[n]| > 0
  {
    Texts(t, FindSpans(pat, t))
  }

  /** `m` is the substring of `t` that starts at `i`. */
  predicate OccursAt(m: string, t: string, i: nat)
  {
    i + |m| <= |t| && t[i..i + |m|] == m
  }

  /** A string findall returns is the text of one of its spans. */
  lemma TextsAt(t: string, sp: seq<(nat, nat)>, m: string) returns (n: nat)
    requires forall n :: 0 <= n < |sp| ==> sp[n].0 <= sp[n].1 <= |t|
    requires m in Texts(t, sp)
    ensures n < |sp| && m == t[sp[n].0..sp[n].1]
    ensures OccursAt(m, t, sp[n].0) && sp[n].1 == sp[n].0 + |m|
  {
    var r := Texts(t, sp);
    n :| 0 <= n < |r| && r[n] == m;
  }

  /** `m` is an email that appears in `text` between two word boundaries. */
  ghost predicate DelimitedEmailIn(m: string, text: string)
  {
    IsEmail(m) && exists i: nat :: OccursAt(m, text, i) && WordBoundary(text, i) && WordBoundary(text, i + |m|)
  }

  /** `m` is a phone number that appears in `text`. */
  ghost predicate PhoneIn(m: string, text: string)
  {
    IsPhone(m) && exists i: nat :: OccursAt(m, text, i)
  }

  /** A match of the email scanner is an email delimited by word boundaries. */
  lemma EmailSpanSound(text: string, i: nat, e: nat)
    requires i <= e <= |text| && EmailAt(text, i) == Some(e)
    ensures DelimitedEmailIn(text[i..e], text)
  {
    EmailAtSound(text, i);
    var m := text[i..e];
    assert OccursAt(m, text, i) && WordBoundary(text, i) && WordBoundary(text, i + |m|);
  }

  /** A match of the phone scanner is a phone number. */
  lemma PhoneSpanSound(text: string, i: nat, e: nat)
    requires i <= e <= |text| && PhoneAt(text, i) == Some(e)
    ensures PhoneIn(text[i..e], text)
  {
    PhoneAtExact(text, i, e);
    assert OccursAt(text[i..e], text, i);
  }

  lemma FoundEmailsSound(text: string)
    ensures forall m :: m in FindAll(EmailPattern, text) ==> DelimitedEmailIn(m, text)
  {
    var ms := MatchTable(EmailPattern, text);
    var sp := Spans(ms, 0);
    forall m | m in Texts(text, sp) ensures DelimitedEmailIn(m, text) {
      var n := TextsAt(text, sp, m);
      assert ms[sp[n].0] == Some(sp[n].1);
      EmailSpanSound(text, sp[n].0, sp[n].1);
    }
  }

  lemma FoundPhonesSound(text: string)
    ensures forall m :: m in FindAll(PhonePattern, text) ==> PhoneIn(m, text)
  {
    var ms := MatchTable(PhonePattern, text);
    var sp := Spans(ms, 0);
    forall m | m in Texts(text, sp) ensures PhoneIn(m, text) {
      var n := TextsAt(text, sp, m);
      assert ms[sp[n].0] == Some(sp[n].1);
      PhoneSpanSound(text, sp[n].0, sp[n].1);
    }
  }

  /**
   * `find_emails`: each email of `text` once, each a substring that the
   * grammar accepts and that starts and ends on a word boundary. The order
   * is that of last occurrence; Python leaves it unspecified.
   */
  function FindEmails(text: string): (r: seq<string>)
    ensures NoDuplicates(r)
    ensures forall m :: m in r ==> DelimitedEmailIn(m, text)
  {
    FoundEmailsSound(text);
    Distinct(FindAll(EmailPattern, text))
  }

  /** `find_phone_numbers`: each phone number of `text` once, each a substring the grammar accepts. */
  function FindPhoneNumbers(text: string): (r: seq<string>)
    ensures NoDuplicates(r)
    ensures forall m :: m in r ==> PhoneIn(m, text)
  {
    FoundPhonesSound(text);
    Distinct(FindAll(PhonePattern, text))
  }

  /**
   * The scan skips nothing: every position at which the engine would find a
   * match lies inside one of the reported spans.
   */
  lemma {:induction false} SpansCover(ms: seq<Option<nat>>, i: nat, x: nat) returns (n: nat)
    requires WellFormed(ms) && i <= x < |ms| && ms[x].Some?
    ensures var sp := Spans(ms, i); n < |sp| && sp[n].0 <= x < sp[n].1
    decreases |ms| - i
  {
    var sp := Spans(ms, i);
    match ms[i]
    case Some(e) =>
      if x < e {
        n := 0;
      } else {
        var n' := SpansCover(ms, e, x);
        n := n' + 1;
        assert sp[n] == Spans(ms, e)[n'];
      }
    case None =>
      n := SpansCover(ms, i + 1, x);
  }

  /** Some reported span starts before `x` and runs past it. */
  predicate CoveredBefore(sp: seq<(nat, nat)>, x: nat)
  {
    exists n | 0 <= n < |sp| :: sp[n].0 < x < sp[n].1
  }

  /** Where no earlier match runs past `x`, the scan reports the engine's match at `x`. */
  lemma ScanStartsAt(ms: seq<Option<nat>>, x: nat) returns (n: nat)
    requires WellFormed(ms) && x < |ms| && ms[x].Some?
    requires !CoveredBefore(Spans(ms, 0), x)
    ensures var sp := Spans(ms, 0); n < |sp| && sp[n] == (x, ms[x].value)
  {
    n := SpansCover(ms, 0, x);
  }

  /** The text of every reported span is one of the strings `re.findall` returns. */
  lemma SpanFound(pat: Pattern, t: string, n: nat)
    requires n < |FindSpans(pat, t)|
    ensures var sp := FindSpans(pat, t); sp[n].0 < sp[n].1 <= |t| && FindAll(pat, t)[n] == t[sp[n].0..sp[n].1]
  {
  }

  /** A position where the engine matches lies inside the `n`-th string `re.findall` returns. */
  lemma FoundAround(pat: Pattern, t: string, x: nat) returns (n: nat)
    requires x < |t| && MatchTable(pat, t)[x].Some?
    ensures var sp := FindSpans(pat, t);
      n < |sp| && n < |FindAll(pat, t)| && sp[n].0 <= x < sp[n].0 + |FindAll(pat, t)[n]|
      && OccursAt(FindAll(pat, t)[n], t, sp[n].0)
  {
    n := SpansCover(MatchTable(pat, t), 0, x);
    SpanFound(pat, t, n);
  }

  /** Where no earlier match runs past `x`, the `n`-th string `re.findall` returns is the engine's match at `x`. */
  lemma FoundAt(pat: Pattern, t: string, x: nat) returns (n: nat)
    requires x < |t| && MatchTable(pat, t)[x].Some?
    requires !CoveredBefore(FindSpans(pat, t), x)
    ensures n < |FindAll(pat, t)| && FindAll(pat, t)[n] == t[x..MatchTable(pat, t)[x].value]
    ensures OccursAt(FindAll(pat, t)[n], t, x) && x + |FindAll(pat, t)[n]| == MatchTable(pat, t)[x].value
  {
    n := ScanStartsAt(MatchTable(pat, t), x);
    SpanFound(pat, t, n);
  }

  /** `list(set(...))` keeps every string `re.findall` returns. */
  lemma FoundEmailKept(t: string, n: nat)
    requires n < |FindAll(EmailPattern, t)|
    ensures FindAll(EmailPattern, t)[n] in FindEmails(t)
  {
  }

  lemma FoundPhoneKept(t: string, n: nat)
    requires n < |FindAll(PhonePattern, t)|
    ensures FindAll(PhonePattern, t)[n] in FindPhoneNumbers(t)
  {
  }

  /** The email scan matches wherever a delimited email starts, reaching at least to its end. */
  lemma EmailMatched(t: string, i: nat, e: nat)
    requires i <= e <= |t| && IsEmail(t[i..e]) && WordBoundary(t, i) && WordBoundary(t, e)
    ensures i < |t| && MatchTable(EmailPattern, t)[i].Some? && e <= MatchTable(EmailPattern, t)[i].value
  {
    EmailAtLongest(t, i, e);
    assert MatchTable(EmailPattern, t)[i] == EmailAt(t, i);
  }

  /** Wherever the email scan matches, some email `find_emails` returns covers that position. */
  lemma EmailFoundAround(t: string, i: nat) returns (m: string, j: nat)
    requires i < |t| && MatchTable(EmailPattern, t)[i].Some?
    ensures m in FindEmails(t) && OccursAt(m, t, j) && j <= i < j + |m|
  {
    var n := FoundAround(EmailPattern, t, i);
    FoundEmailKept(t, n);
    m, j := FindAll(EmailPattern, t)[n], FindSpans(EmailPattern, t)[n].0;
  }

  /** Where the email scan matches and no earlier match runs past, `find_emails` returns that match. */
  lemma EmailFoundAt(t: string, i: nat) returns (m: string)
    requires i < |t| && MatchTable(EmailPattern, t)[i].Some?
    requires !CoveredBefore(FindSpans(EmailPattern, t), i)
    ensures m in FindEmails(t) && OccursAt(m, t, i) && i + |m| == MatchTable(EmailPattern, t)[i].value
  {
    var n := FoundAt(EmailPattern, t, i);
    FoundEmailKept(t, n);
    m := FindAll(EmailPattern, t)[n];
  }

  /**
   * Every email with a word boundary at each end overlaps an email that
   * `find_emails` returns, one that starts at or before it.
   */
  lemma FindEmailsCover(t: string, i: nat, e: nat) returns (m: string, j: nat)
    requires i <= e <= |t| && IsEmail(t[i..e]) && WordBoundary(t, i) && WordBoundary(t, e)
    ensures m in FindEmails(t) && OccursAt(m, t, j) && j <= i < j + |m|
  {
    EmailMatched(t, i, e);
    m, j := EmailFoundAround(t, i);
  }

  /**
   * An email at a position no earlier match runs past is found: `find_emails`
   * returns the longest email starting there, which extends it.
   */
  lemma FindEmailsComplete(t: string, i: nat, e: nat) returns (m: string)
    requires i <= e <= |t| && IsEmail(t[i..e]) && WordBoundary(t, i) && WordBoundary(t, e)
    requires !CoveredBefore(FindSpans(EmailPattern, t), i)
    ensures m in FindEmails(t) && OccursAt(m, t, i) && i + |m| >= e
  {
    EmailMatched(t, i, e);
    m := EmailFoundAt(t, i);
  }

  /** Every phone number in the text overlaps one that `find_phone_numbers` returns, starting at or before it. */
  lemma FindPhoneNumbersCover(t: string, i: nat, e: nat) returns (m: string, j: nat)
    requires i <= e <= |t| && IsPhone(t[i..e])
    ensures m in FindPhoneNumbers(t) && OccursAt(m, t, j) && j <= i < j + |m|
  {
    PhoneAtExact(t, i, e);
    assert MatchTable(PhonePattern, t)[i] == PhoneAt(t, i);
    var n := FoundAround(PhonePattern, t, i);
    FoundPhoneKept(t, n);
    m, j := FindAll(PhonePattern, t)[n], FindSpans(PhonePattern, t)[n].0;
  }

  /** A phone number at a position no earlier match runs past is returned exactly. */
  lemma FindPhoneNumbersComplete(t: string, i: nat, e: nat)
    requires i <= e <= |t| && IsPhone(t[i..e])
    requires !CoveredBefore(FindSpans(PhonePattern, t), i)
    ensures t[i..e] in FindPhoneNumbers(t)
  {
    PhoneAtExact(t, i, e);
    assert MatchTable(PhonePattern, t)[i] == Some(e);
    var n := FoundAt(PhonePattern, t, i);
    FoundPhoneKept(t, n);
  }

  /** Every phone number found is "+7" or "8" and ten more digits, 11 to 18 characters in all. */
  lemma FindPhoneNumbersShape(text: string)
    ensures forall m :: m in FindPhoneNumbers(text) ==>
      11 <= |m| <= 18 &&
      ((m[..2] == "+7" && DigitCount(m[2..]) == 10) || (m[0] == '8' && DigitCount(m[1..]) == 10))
  {
    forall m | m in FindPhoneNumbers(text)
      ensures 11 <= |m| <= 18
      ensures (m[..2] == "+7" && DigitCount(m[2..]) == 10) || (m[0] == '8' && DigitCount(m[1..]) == 10)
    {
      PhoneShape(m);
    }
  }

  /** Text without an '@' holds no email. */
  lemma NoAtNoEmails(text: string)
    requires '@' !in text
    ensures FindEmails(text) == []
  {
  }

  /** A text that is one email starting with a word character yields exactly that email. */
  lemma SingleEmail(s: string)
    requires IsEmail(s) && IsWordChar(s[0])
    ensures FindEmails(s) == [s]
  {
    var at: nat, dot: nat :| at < dot < |s| && EmailParts(s, at, dot);
    assert s[0..|s|] == s;
    assert IsAsciiLetter(s[|s| - 1]);
    EmailAtLongest(s, 0, |s|);
    assert FindSpans(EmailPattern, s) == [(0, |s|)];
  }
}
