/**
 * The phone pattern of `find_phone_numbers`:
 *
 *   ((?:\+7|8)[-\s]?[(]?\d{3}[)]?[-\s]?\d{3}[-\s]?\d{2}[-\s]?\d{2})
 *
 * After the country prefix the pattern is a list of items, each a character
 * class that must occur once or may occur once. `ItemsMatch` is what such a
 * list means; `Scan` is what Python's backtracking engine does with it.
 * There is no word boundary: a match may sit inside a longer run of digits.
 */
module Phones {
  import opened Text

  /** The character classes the phone pattern uses. */
  datatype CharClass = Digit | Separator | OpenParen | CloseParen

  predicate InClass(k: CharClass, c: char)
  {
    match k
    case Digit => IsDigit(c)
    case Separator => c == '-' || IsSpace(c)
    case OpenParen => c == '('
    case CloseParen => c == ')'
  }

  /** A class that must match once, or `class?`. */
  datatype Item = One(k: CharClass) | Maybe(k: CharClass)

  datatype Items = Done | Then(head: Item, rest: Items)

  /** `[-\s]?[(]?\d{3}[)]?[-\s]?\d{3}[-\s]?\d{2}[-\s]?\d{2}`: everything after the country prefix. */
  const PhoneBody: Items :=
    Then(Maybe(Separator), Then(Maybe(OpenParen),
    Then(One(Digit), Then(One(Digit), Then(One(Digit),
    Then(Maybe(CloseParen), Then(Maybe(Separator),
    Then(One(Digit), Then(One(Digit), Then(One(Digit),
    Then(Maybe(Separator),
    Then(One(Digit), Then(One(Digit),
    Then(Maybe(Separator),
    Then(One(Digit), Then(One(Digit),
    Done))))))))))))))))

  /** Some choice of the optional items spells exactly `s`. */
  predicate ItemsMatch(items: Items, s: string)
    decreases items
  {
    match items
    case Done => s == []
    case Then(it, rest) =>
      var taken := |s| > 0 && InClass(it.k, s[0]) && ItemsMatch(rest, s[1..]);
      if it.One? then taken else taken || ItemsMatch(rest, s)
  }

  /** The phone grammar: "+7" or "8", then the body. */
  predicate IsPhone(s: string)
  {
    || (|s| >= 2 && s[0] == '+' && s[1] == '7' && ItemsMatch(PhoneBody, s[2..]))
    || (|s| >= 1 && s[0] == '8' && ItemsMatch(PhoneBody, s[1..]))
  }

  /**
   * The engine on an item list from position `j` of `t`: an optional item is
   * tried present first and, when the rest then fails, absent.
   */
  function Scan(items: Items, t: string, j: nat): (r: Option<nat>)
    requires j <= |t|
    ensures r.Some? ==> j <= r.value <= |t|
    decreases items
  {
    match items
    case Done => Some(j)
    case Then(it, rest) =>
      var present := j < |t| && InClass(it.k, t[j]);
      if it.One? then
        if present then Scan(rest, t, j + 1) else None
      else if present then
        match Scan(rest, t, j + 1)
        case Some(e) => Some(e)
        case None => Scan(rest, t, j)
      else Scan(rest, t, j)
  }

  /** The end of the phone match the engine finds when it tries position `i`, if any. */
  function PhoneAt(t: string, i: nat): (r: Option<nat>)
    requires i <= |t|
    ensures r.Some? ==> i < r.value <= |t|
  {
    var plus7 := if i + 2 <= |t| && t[i] == '+' && t[i + 1] == '7' then Scan(PhoneBody, t, i + 2) else None;
    match plus7
    case Some(e) => Some(e)
    case None => if i < |t| && t[i] == '8' then Scan(PhoneBody, t, i + 1) else None
  }

  lemma {:induction false} ScanSound(items: Items, t: string, j: nat)
    requires j <= |t| && Scan(items, t, j).Some?
    ensures ItemsMatch(items, t[j..Scan(items, t, j).value])
    decreases items
  {
    var e := Scan(items, t, j).value;
    match items
    case Done =>
    case Then(it, rest) =>
      if j < |t| && InClass(it.k, t[j]) && Scan(rest, t, j + 1) == Some(e) {
        ScanSound(rest, t, j + 1);
        assert t[j..e][1..] == t[j + 1..e];
      } else {
        ScanSound(rest, t, j);
      }
  }

  /** Every item is optional: the list matches the empty string. */
  predicate Nullable(items: Items)
  {
    match items
    case Done => true
    case Then(it, rest) => it.Maybe? && Nullable(rest)
  }

  /** `c` can be the first character of a string the list matches. */
  predicate CanStart(items: Items, c: char)
  {
    match items
    case Done => false
    case Then(it, rest) => InClass(it.k, c) || (it.Maybe? && CanStart(rest, c))
  }

  /**
   * The engine never needs to skip an optional item that is present: what
   * follows the item never starts with its class and never matches the
   * empty string.
   */
  predicate Deterministic(items: Items)
  {
    match items
    case Done => true
    case Then(it, rest) =>
      Deterministic(rest) &&
      (it.Maybe? ==> !Nullable(rest) && forall c :: InClass(it.k, c) ==> !CanStart(rest, c))
  }

  lemma {:induction false} MatchStarts(items: Items, s: string)
    requires ItemsMatch(items, s) && !Nullable(items)
    ensures |s| > 0 && CanStart(items, s[0])
  {
    match items
    case Then(it, rest) =>
      if !(|s| > 0 && InClass(it.k, s[0]) && ItemsMatch(rest, s[1..])) {
        MatchStarts(rest, s);
      }
  }

  lemma {:induction false} ScanComplete(items: Items, t: string, j: nat, e: nat)
    requires j <= e <= |t| && Deterministic(items) && ItemsMatch(items, t[j..e])
    ensures Scan(items, t, j) == Some(e)
  {
    var s := t[j..e];
    match items
    case Done =>
    case Then(it, rest) =>
      if |s| > 0 && InClass(it.k, s[0]) && ItemsMatch(rest, s[1..]) {
        assert s[1..] == t[j + 1..e];
        ScanComplete(rest, t, j + 1, e);
      } else {
        MatchStarts(rest, s);
        ScanComplete(rest, t, j, e);
      }
  }

  lemma PhoneBodyDeterministic()
    ensures Deterministic(PhoneBody)
  {
  }

  /** The phone scanner reports a match from `i` to `e` exactly when `t[i..e]` is a phone number. */
  lemma PhoneAtExact(t: string, i: nat, e: nat)
    requires i <= e <= |t|
    ensures PhoneAt(t, i) == Some(e) <==> IsPhone(t[i..e])
  {
    var s := t[i..e];
    if PhoneAt(t, i) == Some(e) {
      if i + 2 <= |t| && t[i] == '+' && t[i + 1] == '7' && Scan(PhoneBody, t, i + 2).Some? {
        ScanSound(PhoneBody, t, i + 2);
        assert s[2..] == t[i + 2..e];
      } else {
        ScanSound(PhoneBody, t, i + 1);
        assert s[1..] == t[i + 1..e];
      }
    }
    if IsPhone(s) {
      PhoneBodyDeterministic();
      if |s| >= 2 && s[0] == '+' && s[1] == '7' && ItemsMatch(PhoneBody, s[2..]) {
        assert s[2..] == t[i + 2..e];
        ScanComplete(PhoneBody, t, i + 2, e);
      } else {
        assert s[1..] == t[i + 1..e];
        ScanComplete(PhoneBody, t, i + 1, e);
      }
    }
  }

  function Length(items: Items): nat
  {
    match items
    case Done => 0
    case Then(_, rest) => 1 + Length(rest)
  }

  /** How many items must match a character. */
  function Required(items: Items): nat
  {
    match items
    case Done => 0
    case Then(it, rest) => (if it.One? then 1 else 0) + Required(rest)
  }

  function DigitCount(s: string): nat
  {
    if s == [] then 0 else (if IsDigit(s[0]) then 1 else 0) + DigitCount(s[1..])
  }

  /** The required items are digits and no optional item accepts a digit. */
  predicate DigitsExactlyRequired(items: Items)
  {
    match items
    case Done => true
    case Then(it, rest) => (it.One? <==> it.k == Digit) && DigitsExactlyRequired(rest)
  }

  /** The body has 16 items, ten of them required digits. */
  lemma PhoneBodyCounts()
    ensures Length(PhoneBody) == 16 && Required(PhoneBody) == 10
    ensures DigitsExactlyRequired(PhoneBody)
  {
    var half := PhoneBody.rest.rest.rest.rest.rest.rest.rest.rest;
    var quarter := half.rest.rest.rest.rest;
    assert Required(quarter) == 3;
    assert Length(half) == 8 && Required(half) == 6;
  }

  lemma {:induction false} ItemsMatchShape(items: Items, s: string)
    requires ItemsMatch(items, s) && DigitsExactlyRequired(items)
    ensures Required(items) <= |s| <= Length(items)
    ensures DigitCount(s) == Required(items)
  {
    match items
    case Done =>
    case Then(it, rest) =>
      if |s| > 0 && InClass(it.k, s[0]) && ItemsMatch(rest, s[1..]) {
        ItemsMatchShape(rest, s[1..]);
      } else {
        ItemsMatchShape(rest, s);
      }
  }

  /**
   * A phone number is "+7" or "8" followed by exactly ten digits, so it is
   * 11 to 18 characters long.
   */
  lemma PhoneShape(s: string)
    requires IsPhone(s)
    ensures 11 <= |s| <= 18
    ensures (s[..2] == "+7" && DigitCount(s[2..]) == 10) || (s[0] == '8' && DigitCount(s[1..]) == 10)
  {
    PhoneBodyCounts();
    if |s| >= 2 && s[0] == '+' && s[1] == '7' && ItemsMatch(PhoneBody, s[2..]) {
      ItemsMatchShape(PhoneBody, s[2..]);
      assert s[..2] == [s[0], s[1]];
    } else {
      ItemsMatchShape(PhoneBody, s[1..]);
    }
  }
}
