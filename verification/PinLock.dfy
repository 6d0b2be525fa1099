/** The transaction-PIN lockout: how many wrong guesses it lets through by a given time. */
module PinLock {
  import opened Basics
  import opened Domain

  const MAX_ATTEMPTS := 5
  const LOCK_WINDOW: Time := 900_000_000

  /** A digest is only ever compared; it stands for the PIN it was made from. */
  datatype Digest = DigestOf(pin: string)

  datatype PinRow = PinRow(digest: Digest, attempts: nat, lockedAt: Option<Time>)

  datatype PinResult = PinOk | NoUser | InvalidPin | PinNotSet | PinLocked | BadPin

  predicate AllDigits(s: string) { forall i | 0 <= i < |s| :: '0' <= s[i] <= '9' }

  /** Four or six digits. */
  predicate WellFormedPin(s: string) { (|s| == 4 || |s| == 6) && AllDigits(s) }

  predicate Locked(row: PinRow, now: Time) { row.lockedAt.Some? && now - row.lockedAt.value < LOCK_WINDOW }

  /** The candidate gets as far as the hash comparison. */
  predicate Compares(row: PinRow, pin: string, now: Time) { WellFormedPin(pin) && !Locked(row, now) }

  /** The row after a candidate on a set PIN. The counter is not reset when the window lapses, so
      every later mismatch locks again. */
  function AfterVerify(row: PinRow, pin: string, now: Time): PinRow {
    if !Compares(row, pin, now) then row
    else if row.digest == DigestOf(pin) then row.(attempts := 0, lockedAt := None)
    else if row.attempts + 1 >= MAX_ATTEMPTS then row.(attempts := row.attempts + 1, lockedAt := Some(now))
    else row.(attempts := row.attempts + 1)
  }

  function VerifyResult(row: PinRow, pin: string, now: Time): PinResult {
    if !WellFormedPin(pin) then InvalidPin
    else if Locked(row, now) then PinLocked
    else if row.digest == DigestOf(pin) then PinOk
    else if row.attempts + 1 >= MAX_ATTEMPTS then PinLocked
    else BadPin
  }

  const MINUTE: Time := 60_000_000

  /** What each answer means, and what it leaves: the right PIN is answered with OK exactly when it is well
      formed and no lock is on, and clears counter and lock; the fifth mismatch locks, as does every
      later one; four are answered as bad; for a quarter of an hour after a lock nothing is compared,
      not even the right PIN, and nothing changes. */
  lemma VerifyAnswers(row: PinRow, pin: string, now: Time)
    ensures var r, after := VerifyResult(row, pin, now), AfterVerify(row, pin, now);
            var proper := |pin| in {4, 6} && forall i | 0 <= i < |pin| :: pin[i] in "0123456789";
            var lockOn := row.lockedAt.Some? && now < row.lockedAt.value + 15 * MINUTE;
            var right := row.digest.pin == pin;
            && (r == PinOk <==> proper && !lockOn && right)
            && (r == InvalidPin <==> !proper)
            && (r == PinLocked <==> proper && (lockOn || (!right && row.attempts >= 4)))
            && (r == BadPin <==> proper && !lockOn && !right && row.attempts < 4)
            && after.digest == row.digest
            && after.attempts == (if !proper || lockOn then row.attempts else if right then 0 else row.attempts + 1)
            && after.lockedAt == (if !proper || lockOn then row.lockedAt
                                  else if right then None
                                  else if row.attempts >= 4 then Some(now)
                                  else row.lockedAt)
  {
    ProperMeans(pin);
    hide WellFormedPin;
  }

  lemma ProperMeans(pin: string)
    ensures WellFormedPin(pin) <==> |pin| in {4, 6} && forall i | 0 <= i < |pin| :: pin[i] in "0123456789"
  {
  }

  class PinService {
    var users: set<UserId>
    var rows: map<UserId, PinRow>
    /** Each user's sessions that are not revoked. */
    var sessions: map<UserId, set<string>>

    constructor ()
      ensures users == {} && rows == map[] && sessions == map[]
    {
      users, rows, sessions := {}, map[], map[];
    }

    /** Stores a fresh digest, clears counter and lock, and revokes every session of the user but the
        current one; with no current session named, all of them. */
    method SetPIN(user: UserId, pin: string, current: string) returns (r: PinResult)
      modifies this`rows, this`sessions
      ensures r == if user == "" then NoUser
                   else if !WellFormedPin(pin) then InvalidPin
                   else if user !in users then NoUser
                   else PinOk
      ensures rows == if r.PinOk? then old(rows)[user := PinRow(DigestOf(pin), 0, None)] else old(rows)
      ensures sessions == if r.PinOk? && user in old(sessions)
                          then old(sessions)[user := old(sessions)[user] * {current}]
                          else old(sessions)
    {
      if user == "" {
        return NoUser;
      }
      if !WellFormedPin(pin) {
        return InvalidPin;
      }
      if user !in users {
        return NoUser;
      }
      rows := rows[user := PinRow(DigestOf(pin), 0, None)];
      if user in sessions {
        var kept := set s | s in sessions[user] && s == current;
        assert kept == sessions[user] * {current};
        sessions := sessions[user := kept];
      }
      return PinOk;
    }

    method VerifyPIN(user: UserId, pin: string, now: Time) returns (r: PinResult)
      modifies this`rows
      ensures user == "" ==> r == NoUser && rows == old(rows)
      ensures user != "" && user !in old(rows) ==>
                r == (if WellFormedPin(pin) then PinNotSet else InvalidPin) && rows == old(rows)
      ensures user != "" && user in old(rows) ==>
                r == VerifyResult(old(rows)[user], pin, now)
                    && rows == old(rows)[user := AfterVerify(old(rows)[user], pin, now)]
    {
      if user == "" {
        return NoUser;
      }
      if !WellFormedPin(pin) {
        assert user in rows ==> rows == rows[user := rows[user]];
        return InvalidPin;
      }
      if user !in rows {
        return PinNotSet;
      }
      var row := rows[user];
      if row.lockedAt.Some? && now - row.lockedAt.value < LOCK_WINDOW {
        assert rows == rows[user := rows[user]];
        return PinLocked;
      }
      if row.digest != DigestOf(pin) {
        var attempts := row.attempts + 1;
        if attempts >= MAX_ATTEMPTS {
          rows := rows[user := row.(attempts := attempts, lockedAt := Some(now))];
          return PinLocked;
        }
        rows := rows[user := row.(attempts := attempts)];
        return BadPin;
      }
      rows := rows[user := row.(attempts := 0, lockedAt := None)];
      return PinOk;
    }
  }

  // ------------------------------------------------------------------ the guess bound

  datatype Guess = Guess(pin: string, at: Time)

  function AfterGuesses(row: PinRow, gs: seq<Guess>): PinRow {
    if gs == [] then row
    else AfterVerify(AfterGuesses(row, gs[..|gs| - 1]), gs[|gs| - 1].pin, gs[|gs| - 1].at)
  }

  /** How many of the guesses were compared against the digest and did not match. */
  function WrongComparisons(row: PinRow, gs: seq<Guess>): nat {
    if gs == [] then 0
    else
      var before, g := AfterGuesses(row, gs[..|gs| - 1]), gs[|gs| - 1];
      WrongComparisons(row, gs[..|gs| - 1])
      + if Compares(before, g.pin, g.at) && before.digest != DigestOf(g.pin) then 1 else 0
  }

  /** When the first lock was latched. */
  function FirstLock(row: PinRow, gs: seq<Guess>): Option<Time> {
    if gs == [] then None
    else
      var earlier := FirstLock(row, gs[..|gs| - 1]);
      if earlier.Some? then earlier else AfterGuesses(row, gs).lockedAt
  }

  predicate InOrder(gs: seq<Guess>, until: Time) {
    (forall i, j | 0 <= i < j < |gs| :: gs[i].at <= gs[j].at) && forall i | 0 <= i < |gs| :: gs[i].at <= until
  }

  predicate NeverRight(row: PinRow, gs: seq<Guess>) { forall i | 0 <= i < |gs| :: DigestOf(gs[i].pin) != row.digest }

  /** Without a right guess, the counter counts the wrong comparisons, and each one past the fifth
      needed a whole lock window of its own. */
  lemma {:induction false} EachLockCosts(row: PinRow, gs: seq<Guess>, until: Time)
    requires row.attempts == 0 && row.lockedAt == None && NeverRight(row, gs) && InOrder(gs, until)
    ensures var after, wrong, first := AfterGuesses(row, gs), WrongComparisons(row, gs), FirstLock(row, gs);
            && after.digest == row.digest && after.attempts == wrong
            && (wrong < MAX_ATTEMPTS ==> after.lockedAt == None && first == None)
            && (wrong >= MAX_ATTEMPTS ==>
                  (after.lockedAt.Some? && first.Some? && after.lockedAt.value <= until
                   && after.lockedAt.value >= first.value + (wrong - MAX_ATTEMPTS) * LOCK_WINDOW))
  {
    if gs != [] {
      var front, g := gs[..|gs| - 1], gs[|gs| - 1];
      assert forall i | 0 <= i < |front| :: front[i] == gs[i];
      EachLockCosts(row, front, g.at);
    }
  }

  /** Over any serial run without a success or a new PIN, the wrong guesses compared by a time are
      at most four before the first lock, and afterwards at most five and one per whole lock
      window elapsed since. */
  lemma GuessBound(row: PinRow, gs: seq<Guess>, until: Time)
    requires row.attempts == 0 && row.lockedAt == None && NeverRight(row, gs) && InOrder(gs, until)
    ensures match FirstLock(row, gs)
            case None => WrongComparisons(row, gs) <= MAX_ATTEMPTS - 1
            case Some(first) =>
              first <= until && WrongComparisons(row, gs) <= MAX_ATTEMPTS + (until - first) / LOCK_WINDOW
  {
    EachLockCosts(row, gs, until);
    var wrong := WrongComparisons(row, gs);
    if wrong >= MAX_ATTEMPTS {
      var windows := wrong - MAX_ATTEMPTS;
      var first := FirstLock(row, gs).value;
      assert windows * LOCK_WINDOW <= until - first;
      DivisionBound(until - first, windows);
    }
  }

  lemma DivisionBound(span: int, windows: int)
    requires 0 <= windows && windows * LOCK_WINDOW <= span
    ensures windows <= span / LOCK_WINDOW
  {
  }

  /** Five guesses at once, then one as each window ends. */
  function Patient(pin: string, k: nat): seq<Guess> {
    if k < MAX_ATTEMPTS then seq(k, i => Guess(pin, 0))
    else Patient(pin, k - 1) + [Guess(pin, (k - MAX_ATTEMPTS) * LOCK_WINDOW)]
  }

  /** One more guess that is compared and does not match. */
  lemma OneMoreWrong(row: PinRow, gs: seq<Guess>, g: Guess)
    requires Compares(AfterGuesses(row, gs), g.pin, g.at) && AfterGuesses(row, gs).digest != DigestOf(g.pin)
    ensures WrongComparisons(row, gs + [g]) == WrongComparisons(row, gs) + 1
    ensures AfterGuesses(row, gs + [g]) == AfterVerify(AfterGuesses(row, gs), g.pin, g.at)
  {
    assert (gs + [g])[..|gs|] == gs;
  }

  lemma PatientStep(pin: string, k: nat)
    requires k > 0
    ensures Patient(pin, k) == Patient(pin, k - 1)
            + [Guess(pin, if k <= MAX_ATTEMPTS then 0 else (k - MAX_ATTEMPTS) * LOCK_WINDOW)]
  {
    if k < MAX_ATTEMPTS {
      assert Patient(pin, k) == Patient(pin, k - 1) + [Guess(pin, 0)];
    }
  }

  /** The bound is reached: this is the most a guesser can get out of waiting. */
  lemma {:induction false} BoundIsReached(row: PinRow, pin: string, k: nat)
    requires row.attempts == 0 && row.lockedAt == None && WellFormedPin(pin) && row.digest != DigestOf(pin)
    ensures WrongComparisons(row, Patient(pin, k)) == k
    ensures AfterGuesses(row, Patient(pin, k))
         == row.(attempts := k, lockedAt := if k < MAX_ATTEMPTS then None else Some((k - MAX_ATTEMPTS) * LOCK_WINDOW))
  {
    if k > 0 {
      BoundIsReached(row, pin, k - 1);
      PatientStep(pin, k);
      hide AfterGuesses, WrongComparisons, Patient, WellFormedPin;
      OneMoreWrong(row, Patient(pin, k - 1),
          Guess(pin, if k <= MAX_ATTEMPTS then 0 else (k - MAX_ATTEMPTS) * LOCK_WINDOW));
    }
  }
}
