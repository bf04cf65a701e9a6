/**
 Password login and its lockout: five failures lock an account for fifteen minutes, and every
 later failure locks it again. One `BeginLogin` of an account is one step.
 */
module Login {
  import opened Text
  import opened Timestamps

  const THRESHOLD: nat := 5
  const LOCK: int := 15 * MINUTE

  type User = nat

  datatype Account = Account(failed: nat, lockedUntil: Option<int>)

  /** A login with its clock readings (lock check, failure, read-back) and everything that is decided elsewhere. */
  datatype Attempt = Attempt(user: User, checkedAt: int, failedAt: int, readAt: int,
                             passwordExpired: bool, networkAllowed: bool, passwordOk: bool,
                             recorded: bool, readBack: bool, resetOk: bool, rolesOk: bool,
                             mfaRequired: bool, enrolled: bool, issued: bool)

  datatype Outcome =
    | InvalidCredentials
    | AccountLocked
    | PasswordExpired
    | NetworkRestricted
    | StoreError
    | EnrollmentRequired
    | ChallengeIssued
    | SessionCreated

  type Accounts = map<User, Account>

  predicate Locked(a: Account, now: int) {
    a.lockedUntil.Some? && a.lockedUntil.value > now
  }

  /** The failure statement: count, and from the threshold on set the lock. */
  function Failed(a: Account, now: int): Account {
    Account(a.failed + 1, if a.failed + 1 >= THRESHOLD then Some(now + LOCK) else a.lockedUntil)
  }

  /** The password is looked at. */
  predicate Checks(s: Accounts, x: Attempt) {
    x.user in s && !Locked(s[x.user], x.checkedAt) && !x.passwordExpired && x.networkAllowed
  }

  predicate WrongPassword(s: Accounts, x: Attempt) {
    Checks(s, x) && !x.passwordOk
  }

  predicate Resets(s: Accounts, x: Attempt) {
    Checks(s, x) && x.passwordOk && x.resetOk
  }

  /** The accounts after a login. */
  function After(s: Accounts, x: Attempt): Accounts {
    if WrongPassword(s, x) && x.recorded then s[x.user := Failed(s[x.user], x.failedAt)]
    else if Resets(s, x) then s[x.user := Account(0, None)]
    else s
  }

  function Answer(s: Accounts, x: Attempt): Outcome {
    if x.user !in s then InvalidCredentials
    else if Locked(s[x.user], x.checkedAt) then AccountLocked
    else if x.passwordExpired then PasswordExpired
    else if !x.networkAllowed then NetworkRestricted
    else if !x.passwordOk then
      if !x.recorded || !x.readBack then StoreError
      else if Locked(Failed(s[x.user], x.failedAt), x.readAt) || s[x.user].failed + 1 >= THRESHOLD then AccountLocked
      else InvalidCredentials
    else if !x.resetOk || !x.rolesOk then StoreError
    else if x.mfaRequired && !x.enrolled then EnrollmentRequired
    else if !x.issued then StoreError
    else if x.mfaRequired then ChallengeIssued
    else SessionCreated
  }

  /** The account exists, is not locked at the check, its password has not expired and the network is allowed. */
  predicate Admits(s: Accounts, x: Attempt) {
    && x.user in s && (s[x.user].lockedUntil.Some? ==> s[x.user].lockedUntil.value <= x.checkedAt)
    && !x.passwordExpired && x.networkAllowed
  }

  /** When each answer is given. */
  lemma AnswersExactly(s: Accounts, x: Attempt)
    ensures Answer(s, x) == SessionCreated <==> Admits(s, x) && x.passwordOk && x.resetOk && x.rolesOk && !x.mfaRequired && x.issued
    ensures Answer(s, x) == ChallengeIssued
            <==> Admits(s, x) && x.passwordOk && x.resetOk && x.rolesOk && x.mfaRequired && x.enrolled && x.issued
    ensures Answer(s, x) == EnrollmentRequired
            <==> Admits(s, x) && x.passwordOk && x.resetOk && x.rolesOk && x.mfaRequired && !x.enrolled
    ensures Answer(s, x) == PasswordExpired
            <==> x.user in s && !Locked(s[x.user], x.checkedAt) && x.passwordExpired
    ensures Answer(s, x) == NetworkRestricted
            <==> x.user in s && !Locked(s[x.user], x.checkedAt) && !x.passwordExpired && !x.networkAllowed
    ensures x.user in s && s[x.user].lockedUntil.Some? && x.checkedAt < s[x.user].lockedUntil.value ==> Answer(s, x) == AccountLocked
    ensures Admits(s, x) && !x.passwordOk && x.recorded && x.readBack && s[x.user].failed + 1 < 5 && s[x.user].lockedUntil.None? ==>
              Answer(s, x) == InvalidCredentials
    ensures Admits(s, x) && !x.passwordOk && x.recorded && x.readBack && s[x.user].failed + 1 >= 5 ==> Answer(s, x) == AccountLocked
    ensures x.user !in s ==> Answer(s, x) == InvalidCredentials
  {
  }

  class Service {
    var accounts: Accounts

    /** The two statements of `RegisterLoginFailure`: update, then read the row back. */
    method RegisterLoginFailure(user: User, x: Attempt) returns (locked: Option<bool>)
      requires user in accounts
      modifies this
      ensures accounts == if x.recorded then old(accounts)[user := Failed(old(accounts)[user], x.failedAt)] else old(accounts)
      ensures locked.Some? <==> x.recorded && x.readBack
      ensures locked.Some? ==>
                (locked.value <==> Locked(accounts[user], x.readAt) || accounts[user].failed >= THRESHOLD)
    {
      var lockedUntil := x.failedAt + LOCK;
      if !x.recorded {
        return None;
      }
      var row := accounts[user];
      accounts := accounts[user := Account(row.failed + 1,
                                           if row.failed + 1 >= THRESHOLD then Some(lockedUntil) else row.lockedUntil)];
      if !x.readBack {
        return None;
      }
      var stored := accounts[user];
      if stored.lockedUntil.Some? && stored.lockedUntil.value > x.readAt {
        return Some(true);
      }
      return Some(stored.failed >= THRESHOLD);
    }

    method ResetLoginFailures(user: User, ok: bool)
      modifies this
      ensures accounts == if ok && user in old(accounts) then old(accounts)[user := Account(0, None)] else old(accounts)
    {
      if ok && user in accounts {
        accounts := accounts[user := Account(0, None)];
      }
    }

    method BeginLogin(x: Attempt) returns (outcome: Outcome)
      modifies this
      ensures accounts == After(old(accounts), x)
      ensures outcome == Answer(old(accounts), x)
      ensures outcome == SessionCreated <==>
                Admits(old(accounts), x) && x.passwordOk && x.resetOk && x.rolesOk && !x.mfaRequired && x.issued
      ensures outcome == ChallengeIssued <==>
                Admits(old(accounts), x) && x.passwordOk && x.resetOk && x.rolesOk && x.mfaRequired && x.enrolled && x.issued
      ensures outcome in {ChallengeIssued, SessionCreated} ==> accounts[x.user] == Account(0, None)
    {
      if x.user !in accounts {
        return InvalidCredentials;
      }
      if Locked(accounts[x.user], x.checkedAt) {
        return AccountLocked;
      }
      if x.passwordExpired {
        return PasswordExpired;
      }
      if !x.networkAllowed {
        return NetworkRestricted;
      }
      if !x.passwordOk {
        var locked := RegisterLoginFailure(x.user, x);
        if locked.None? {
          return StoreError;
        }
        return if locked.value then AccountLocked else InvalidCredentials;
      }
      ResetLoginFailures(x.user, x.resetOk);
      if !x.resetOk || !x.rolesOk {
        return StoreError;
      }
      if x.mfaRequired {
        if !x.enrolled {
          return EnrollmentRequired;
        }
        return if x.issued then ChallengeIssued else StoreError;
      }
      return if x.issued then SessionCreated else StoreError;
    }
  }

  /** Any sequence of logins, of any users, from any table. */
  ghost predicate IsRun(xs: seq<Attempt>, log: seq<Accounts>) {
    |log| == |xs| + 1 && forall i :: 0 <= i < |xs| ==> log[i + 1] == After(log[i], xs[i])
  }

  /** The attempts `lo <= k < hi` of `u` read the clock between `start` and `end`, checking before failing. */
  ghost predicate Within(xs: seq<Attempt>, u: User, lo: nat, hi: nat, start: int, end: int) {
    forall k :: lo <= k < hi && k < |xs| && xs[k].user == u ==> start <= xs[k].checkedAt <= xs[k].failedAt <= end
  }

  ghost predicate NoSuccess(xs: seq<Attempt>, log: seq<Accounts>, u: User, lo: nat, hi: nat)
    requires |log| == |xs| + 1
  {
    forall k :: lo <= k < hi && k < |xs| && xs[k].user == u ==> !Resets(log[k], xs[k])
  }

  /** How often `u`'s password was found wrong in `lo <= k < hi`. */
  ghost function WrongPasswords(xs: seq<Attempt>, log: seq<Accounts>, u: User, lo: nat, hi: nat): nat
    requires |log| == |xs| + 1 && lo <= hi <= |xs|
    decreases hi
  {
    if lo == hi then 0
    else
      WrongPasswords(xs, log, u, lo, hi - 1) + if xs[hi - 1].user == u && WrongPassword(log[hi - 1], xs[hi - 1]) then 1 else 0
  }

  /** How often the failure was recorded. */
  ghost function RecordedFailures(xs: seq<Attempt>, log: seq<Accounts>, u: User, lo: nat, hi: nat): nat
    requires |log| == |xs| + 1 && lo <= hi <= |xs|
    decreases hi
  {
    if lo == hi then 0
    else
      RecordedFailures(xs, log, u, lo, hi - 1)
      + if xs[hi - 1].user == u && WrongPassword(log[hi - 1], xs[hi - 1]) && xs[hi - 1].recorded then 1 else 0
  }

  /** How often its database update failed. */
  ghost function LostFailures(xs: seq<Attempt>, log: seq<Accounts>, u: User, lo: nat, hi: nat): nat
    requires |log| == |xs| + 1 && lo <= hi <= |xs|
    decreases hi
  {
    if lo == hi then 0
    else
      LostFailures(xs, log, u, lo, hi - 1)
      + if xs[hi - 1].user == u && WrongPassword(log[hi - 1], xs[hi - 1]) && !xs[hi - 1].recorded then 1 else 0
  }

  lemma {:induction false} FailuresAddUp(xs: seq<Attempt>, log: seq<Accounts>, u: User, lo: nat, hi: nat)
    requires |log| == |xs| + 1 && lo <= hi <= |xs|
    ensures WrongPasswords(xs, log, u, lo, hi) == RecordedFailures(xs, log, u, lo, hi) + LostFailures(xs, log, u, lo, hi)
    decreases hi
  {
    if lo < hi {
      FailuresAddUp(xs, log, u, lo, hi - 1);
    }
  }

  /** Failures an account has before its locks follow one another. */
  function Free(a: Account): nat {
    if a.failed < THRESHOLD then THRESHOLD - a.failed else 1
  }

  lemma {:induction false} UsersStay(xs: seq<Attempt>, log: seq<Accounts>, i: nat)
    requires IsRun(xs, log) && i < |log|
    ensures log[i].Keys == log[0].Keys
  {
    if i > 0 {
      UsersStay(xs, log, i - 1);
      assert log[i] == After(log[i - 1], xs[i - 1]);
    }
  }

  /** What `m` recorded failures since `a0`, read between `start` and `end`, have made of an account. */
  ghost predicate Spaced(a0: Account, a: Account, m: nat, start: int, end: int) {
    && a.failed == a0.failed + m
    && (m >= Free(a0) ==>
          a.lockedUntil.Some? && start + (m - Free(a0) + 1) * LOCK <= a.lockedUntil.value <= end + LOCK)
  }

  lemma FailureSpaces(a0: Account, a: Account, m: nat, start: int, end: int, x: Attempt)
    requires Spaced(a0, a, m, start, end) && !Locked(a, x.checkedAt) && start <= x.checkedAt <= x.failedAt <= end
    ensures Spaced(a0, Failed(a, x.failedAt), m + 1, start, end)
  {
    if m >= Free(a0) {
      assert (m - Free(a0) + 1) * LOCK + LOCK == (m + 1 - Free(a0) + 1) * LOCK;
    }
  }

  lemma {:induction false} StretchSpaced(xs: seq<Attempt>, log: seq<Accounts>, u: User, lo: nat, hi: nat, start: int, end: int)
    requires IsRun(xs, log) && lo <= hi <= |xs| && u in log[0]
    requires Within(xs, u, lo, hi, start, end) && NoSuccess(xs, log, u, lo, hi)
    ensures u in log[lo] && u in log[hi]
    ensures Spaced(log[lo][u], log[hi][u], RecordedFailures(xs, log, u, lo, hi), start, end)
  {
    UsersStay(xs, log, lo);
    UsersStay(xs, log, hi);
    if lo < hi {
      StretchSpaced(xs, log, u, lo, hi - 1, start, end);
      var x := xs[hi - 1];
      assert log[hi] == After(log[hi - 1], x);
      if x.user == u && WrongPassword(log[hi - 1], x) && x.recorded {
        FailureSpaces(log[lo][u], log[hi - 1][u], RecordedFailures(xs, log, u, lo, hi - 1), start, end, x);
      }
    }
  }

  lemma RecordedBounded(xs: seq<Attempt>, log: seq<Accounts>, u: User, lo: nat, hi: nat, start: int, end: int)
    requires IsRun(xs, log) && lo <= hi <= |xs| && u in log[0] && start <= end
    requires Within(xs, u, lo, hi, start, end) && NoSuccess(xs, log, u, lo, hi)
    ensures u in log[lo] && RecordedFailures(xs, log, u, lo, hi) <= Free(log[lo][u]) + (end - start) / LOCK
  {
    StretchSpaced(xs, log, u, lo, hi, start, end);
    var m := RecordedFailures(xs, log, u, lo, hi);
    var free := Free(log[lo][u]);
    if m > free {
      var d := m - free;
      assert (d + 1) * LOCK == d * LOCK + LOCK;
      assert d * LOCK <= end - start;
      assert d <= (end - start) / LOCK;
    }
  }

  /**
    * In any stretch of a run in which the account is not reset, the password is found wrong at most
    * `5 + floor(T / 15 min)` times, plus once for every failure whose database update failed.
    */
  lemma FailuresBounded(xs: seq<Attempt>, log: seq<Accounts>, u: User, lo: nat, hi: nat, start: int, end: int)
    requires IsRun(xs, log) && lo <= hi <= |xs| && u in log[0] && start <= end
    requires Within(xs, u, lo, hi, start, end) && NoSuccess(xs, log, u, lo, hi)
    ensures WrongPasswords(xs, log, u, lo, hi) <= THRESHOLD + (end - start) / LOCK + LostFailures(xs, log, u, lo, hi)
    ensures u in log[lo] && RecordedFailures(xs, log, u, lo, hi) <= Free(log[lo][u]) + (end - start) / LOCK
  {
    RecordedBounded(xs, log, u, lo, hi, start, end);
    FailuresAddUp(xs, log, u, lo, hi);
  }

  function LostGuess(u: User): Attempt {
    Attempt(u, 0, 0, 0, false, true, false, false, true, true, true, false, true, true)
  }

  /** The last term is needed: while updates fail, any number of wrong passwords is checked at one moment. */
  lemma LostUpdatesUnbounded(u: User, n: nat) returns (xs: seq<Attempt>, log: seq<Accounts>)
    ensures IsRun(xs, log) && |xs| == n && forall k :: 0 <= k < |log| ==> log[k] == map[u := Account(0, None)]
    ensures forall k :: 0 <= k < n ==> xs[k] == LostGuess(u)
    ensures Within(xs, u, 0, n, 0, 0) && NoSuccess(xs, log, u, 0, n) && WrongPasswords(xs, log, u, 0, n) == n
  {
    xs, log := seq(n, _ => LostGuess(u)), seq(n + 1, _ => map[u := Account(0, None)]);
    LostGuessesCount(xs, log, u, n);
  }

  lemma {:induction false} LostGuessesCount(xs: seq<Attempt>, log: seq<Accounts>, u: User, n: nat)
    requires |log| == |xs| + 1 && n <= |xs| && forall k :: 0 <= k < |log| ==> log[k] == map[u := Account(0, None)]
    requires forall k :: 0 <= k < |xs| ==> xs[k] == LostGuess(u)
    ensures WrongPasswords(xs, log, u, 0, n) == n
  {
    if n > 0 {
      LostGuessesCount(xs, log, u, n - 1);
    }
  }

  /** Until a lock runs out, every login of its account is refused and leaves the account as it is. */
  lemma {:induction false} LockHolds(xs: seq<Attempt>, log: seq<Accounts>, u: User, lo: nat, hi: nat, now: int)
    requires IsRun(xs, log) && lo <= hi <= |xs| && u in log[lo] && Locked(log[lo][u], now)
    requires forall k :: lo <= k < hi && xs[k].user == u ==> xs[k].checkedAt <= now
    ensures u in log[hi] && log[hi][u] == log[lo][u]
    ensures forall k :: lo <= k < hi && xs[k].user == u ==> Answer(log[k], xs[k]) == AccountLocked
  {
    if lo < hi {
      LockHolds(xs, log, u, lo, hi - 1, now);
      assert log[hi] == After(log[hi - 1], xs[hi - 1]);
    }
  }

  /** The fifth recorded failure locks, and so does each one after it; a session or challenge means a clean account. */
  lemma GrantsAndLocks(xs: seq<Attempt>, log: seq<Accounts>, i: nat)
    requires IsRun(xs, log) && i < |xs| && xs[i].user in log[i]
    ensures WrongPassword(log[i], xs[i]) && xs[i].recorded && log[i][xs[i].user].failed >= THRESHOLD - 1 ==>
              log[i + 1][xs[i].user].lockedUntil == Some(xs[i].failedAt + 15 * MINUTE)
    ensures Answer(log[i], xs[i]) in {ChallengeIssued, SessionCreated} ==>
              !Locked(log[i][xs[i].user], xs[i].checkedAt) && log[i + 1][xs[i].user] == Account(0, None)
    ensures forall v :: v in log[i] && v != xs[i].user ==> v in log[i + 1] && log[i + 1][v] == log[i][v]
  {
    assert log[i + 1] == After(log[i], xs[i]);
  }

  function GuessTime(k: nat): int {
    if k < THRESHOLD then 0 else (k - THRESHOLD + 1) * LOCK
  }

  /** A wrong guess at each of five moments together, then one as every lock ends. */
  function Guess(u: User, k: nat): Attempt {
    var t := GuessTime(k);
    Attempt(u, t, t, t, false, true, false, true, true, true, true, false, true, true)
  }

  function GuessedAccount(k: nat): Account {
    Account(k, if k < THRESHOLD then None else Some(GuessTime(k)))
  }

  lemma GuessFails(u: User, k: nat)
    ensures WrongPassword(map[u := GuessedAccount(k)], Guess(u, k))
    ensures After(map[u := GuessedAccount(k)], Guess(u, k)) == map[u := GuessedAccount(k + 1)]
  {
    if k >= THRESHOLD {
      assert (k - THRESHOLD + 1) * LOCK + LOCK == (k - THRESHOLD + 2) * LOCK;
    }
    assert Failed(GuessedAccount(k), Guess(u, k).failedAt) == GuessedAccount(k + 1);
  }

  lemma GuessesInOrder(j: nat, k: nat)
    requires j <= k
    ensures GuessTime(j) <= GuessTime(k)
    ensures k >= THRESHOLD - 1 ==> GuessTime(k) / LOCK == k + 1 - THRESHOLD
  {
    if j >= THRESHOLD {
      assert (k - THRESHOLD + 1) * LOCK == (j - THRESHOLD + 1) * LOCK + (k - j) * LOCK;
    }
  }

  /** The bound is reached: for any `n` from five on, a reset account can see `n` checked guesses in the time it allows. */
  lemma BoundReached(u: User, n: nat) returns (xs: seq<Attempt>, log: seq<Accounts>)
    requires n >= THRESHOLD
    ensures IsRun(xs, log) && |xs| == n && log[0] == map[u := Account(0, None)]
    ensures Within(xs, u, 0, n, 0, xs[n - 1].failedAt) && NoSuccess(xs, log, u, 0, n)
    ensures RecordedFailures(xs, log, u, 0, n) == THRESHOLD + xs[n - 1].failedAt / LOCK
  {
    xs, log := Guesses(u, n);
    GuessesInOrder(n - 1, n - 1);
    forall k | 0 <= k < n ensures xs[k].failedAt <= xs[n - 1].failedAt {
      GuessesInOrder(k, n - 1);
    }
  }

  lemma {:induction false} Guesses(u: User, n: nat) returns (xs: seq<Attempt>, log: seq<Accounts>)
    ensures IsRun(xs, log) && |xs| == n && log[0] == map[u := Account(0, None)]
    ensures log[n] == map[u := GuessedAccount(n)]
    ensures forall k :: 0 <= k < n ==> xs[k] == Guess(u, k) && !Resets(log[k], xs[k])
    ensures RecordedFailures(xs, log, u, 0, n) == n
  {
    if n == 0 {
      xs, log := [], [map[u := GuessedAccount(0)]];
    } else {
      var xs', log' := Guesses(u, n - 1);
      xs, log := xs' + [Guess(u, n - 1)], log' + [map[u := GuessedAccount(n)]];
      GuessFails(u, n - 1);
      SamePrefix(xs', log', xs, log, u, n - 1);
    }
  }

  lemma {:induction false} SamePrefix(xs: seq<Attempt>, log: seq<Accounts>, ys: seq<Attempt>, log2: seq<Accounts>, u: User, n: nat)
    requires |log| == |xs| + 1 && |log2| == |ys| + 1 && n <= |xs| && n <= |ys|
    requires forall k :: 0 <= k < n ==> xs[k] == ys[k] && log[k] == log2[k]
    ensures RecordedFailures(xs, log, u, 0, n) == RecordedFailures(ys, log2, u, 0, n)
  {
    if n > 0 {
      SamePrefix(xs, log, ys, log2, u, n - 1);
    }
  }
}
