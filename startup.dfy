/**
 * `check_database_availability`: the probe that runs before the bot starts.
 * It tries to connect up to ten times, stops at the first success and waits
 * five seconds after every failed attempt but the last.
 *
 * The outcome of each connection attempt is an input: `connects(a)` says
 * whether attempt `a` (counting from 1) reaches the database. Instead of
 * sleeping, the probe reports how often and how long it waited.
 */
module Startup {

  const MaxAttempts: nat := 10
  const DelaySeconds: nat := 5

  /** Some attempt among the first `n` connects. */
  predicate SomeSuccess(connects: nat -> bool, n: nat)
  {
    exists a | 1 <= a <= n :: connects(a)
  }

  method CheckDatabaseAvailability(connects: nat -> bool) returns (available: bool, attempts: nat, sleeps: nat, waited: nat)
    ensures available <==> SomeSuccess(connects, MaxAttempts)
    ensures 1 <= attempts <= MaxAttempts
    ensures forall a | 1 <= a < attempts :: !connects(a)
    ensures available ==> connects(attempts)
    ensures !available ==> attempts == MaxAttempts
    ensures sleeps == attempts - 1
    ensures waited == DelaySeconds * sleeps
  {
    available, attempts, sleeps, waited := false, 0, 0, 0;
    var attempt := 1;
    while attempt <= MaxAttempts
      invariant 1 <= attempt <= MaxAttempts + 1
      invariant forall a | 1 <= a < attempt :: !connects(a)
      invariant attempts == attempt - 1
      invariant sleeps == if attempt <= MaxAttempts then attempt - 1 else MaxAttempts - 1
      invariant waited == DelaySeconds * sleeps
    {
      attempts := attempt;
      if connects(attempt) {
        available := true;
        return;
      }
      if attempt < MaxAttempts {
        sleeps := sleeps + 1;
        waited := waited + DelaySeconds;
      }
      attempt := attempt + 1;
    }
  }

  /** With a database that answers at once, one attempt and no wait. */
  method ImmediateSuccess() returns (available: bool, attempts: nat, waited: nat)
    ensures available && attempts == 1 && waited == 0
  {
    var sleeps;
    var up: nat -> bool := a => true;
    available, attempts, sleeps, waited := CheckDatabaseAvailability(up);
    assert up(1);
  }

  /** With a database that never answers, ten attempts and 45 seconds of waiting. */
  method NeverAvailable() returns (available: bool, attempts: nat, sleeps: nat, waited: nat)
    ensures !available && attempts == 10 && sleeps == 9 && waited == 45
  {
    available, attempts, sleeps, waited := CheckDatabaseAvailability(a => false);
  }

  /** A database that first answers on the eleventh attempt is reported unavailable. */
  method EleventhAttemptTooLate() returns (available: bool)
    ensures !available
  {
    var attempts, sleeps, waited;
    available, attempts, sleeps, waited := CheckDatabaseAvailability(a => a >= 11);
  }
}
