/** The login form's use of the limiter (internal/web/account.go, handleLogin), logins running one at a time. */
module Login {
  import opened RateLimit

  datatype Outcome = Blocked | WrongPassword | LoggedIn

  /** The limiter calls of one login. */
  function CallsOf(key: string, outcome: Outcome, asked: Time, at: Time, later: Time): seq<Call> {
    [Call.Limited(key, asked)] +
    match outcome
    case Blocked => []
    case WrongPassword => [Call.Failure(key, at, later)]
    case LoggedIn => [Call.Success(key)]
  }

  /** What the calls of one login leave of the stored lists. */
  function AfterLogin(lists: map<string, seq<Time>>, window: int, key: string, outcome: Outcome, asked: Time, at: Time, later: Time)
    : map<string, seq<Time>>
  {
    var pruned := Called(lists, window, Call.Limited(key, asked));
    match outcome
    case Blocked => pruned
    case WrongPassword => Called(pruned, window, Call.Failure(key, at, later))
    case LoggedIn => Called(pruned, window, Call.Success(key))
  }

  /** How a login ends: blocked if the limiter says so, else by the password. */
  function OutcomeOf(lists: map<string, seq<Time>>, window: int, max: nat, key: string, correct: bool, asked: Time): Outcome {
    if |ListOf(Called(lists, window, Call.Limited(key, asked)), key)| >= max then Blocked
    else if correct then LoggedIn else WrongPassword
  }

  /** Failure or Success, as the password was wrong or right. */
  method Record(l: Limiter, key: string, correct: bool, at: Time, later: Time) returns (r: Outcome)
    requires l.Shape()
    modifies l`hits, l`lists, l`owner, l.owner.Keys
    ensures l.Shape() && r == if correct then LoggedIn else WrongPassword
    ensures l.lists == Called(old(l.lists), l.window, if correct then Call.Success(key) else Call.Failure(key, at, later))
  {
    if !correct {
      l.Failure(key, at, later);
      r := WrongPassword;
    } else {
      l.Success(key);
      r := LoggedIn;
    }
  }

  /** How a login ends and what it leaves of the list of its key, in terms of the list that was stored. */
  lemma LoginLeaves(lists: map<string, seq<Time>>, window: int, max: nat, key: string, correct: bool, asked: Time, at: Time, later: Time)
    ensures var kept, r := After(ListOf(lists, key), asked - window), OutcomeOf(lists, window, max, key, correct, asked);
            && (r == Blocked <==> |kept| >= max) && (r == LoggedIn <==> |kept| < max && correct)
            && ListOf(AfterLogin(lists, window, key, r, asked, at, later), key) ==
                 if r == Blocked then kept else if correct then [] else After(kept, later - window) + [at]
  {
    var r, pruned := OutcomeOf(lists, window, max, key, correct, asked), Called(lists, window, Call.Limited(key, asked));
    CalledList(lists, window, Call.Limited(key, asked), key);
    if r == WrongPassword { CalledList(pruned, window, Call.Failure(key, at, later), key); }
    if r == LoggedIn { CalledList(pruned, window, Call.Success(key), key); }
  }

  /** correct is the answer of Authenticate; asked, at and later are the clock readings in order. */
  method HandleLogin(l: Limiter, key: string, correct: bool, asked: Time, at: Time, later: Time) returns (r: Outcome)
    requires l.Shape()
    modifies l`hits, l`lists, l`owner, l.owner.Keys
    ensures l.Shape() && l.lists == AfterLogin(old(l.lists), l.window, key, r, asked, at, later)
    ensures r == OutcomeOf(old(l.lists), l.window, l.max, key, correct, asked)
    ensures var kept := After(ListOf(old(l.lists), key), asked - l.window);
            (r == Blocked <==> |kept| >= l.max) && (r == LoggedIn <==> |kept| < l.max && correct)
  {
    LoginLeaves(l.lists, l.window, l.max, key, correct, asked, at, later);
    var limited := l.Limited(key, asked);
    if limited {
      return Blocked;
    }
    r := Record(l, key, correct, at, later);
  }

  /** Every recorded failure follows directly on a question about its key that was answered "not limited". */
  ghost predicate Guarded(calls: seq<Call>, window: int, max: nat) {
    forall i | 0 <= i < |calls| && calls[i].Failure? :: GuardedAt(calls, window, max, i)
  }

  ghost predicate GuardedAt(calls: seq<Call>, window: int, max: nat, i: nat)
    requires i < |calls|
  {
    && i > 0 && calls[i - 1].Limited? && calls[i - 1].key == calls[i].key
    && |ListOf(Stored(calls[..i], window), calls[i].key)| < max
  }

  lemma StoredStep(calls: seq<Call>, window: int, c: Call)
    ensures Stored(calls + [c], window) == Called(Stored(calls, window), window, c)
  {
    assert (calls + [c])[..|calls|] == calls;
  }

  lemma LoginIsStored(calls: seq<Call>, window: int, key: string, outcome: Outcome, asked: Time, at: Time, later: Time)
    ensures AfterLogin(Stored(calls, window), window, key, outcome, asked, at, later)
              == Stored(calls + CallsOf(key, outcome, asked, at, later), window)
  {
    var first := calls + [Call.Limited(key, asked)];
    var more := CallsOf(key, outcome, asked, at, later);
    StoredStep(calls, window, Call.Limited(key, asked));
    if outcome == Blocked {
      assert calls + more == first;
    } else {
      StoredStep(first, window, more[1]);
      assert calls + more == first + [more[1]];
    }
  }

  /** A login keeps the run of calls guarded. */
  lemma LoginIsGuarded(calls: seq<Call>, window: int, max: nat, key: string, outcome: Outcome, asked: Time, at: Time, later: Time)
    requires Guarded(calls, window, max)
    requires outcome == Blocked <==> |ListOf(Called(Stored(calls, window), window, Call.Limited(key, asked)), key)| >= max
    ensures Guarded(calls + CallsOf(key, outcome, asked, at, later), window, max)
  {
    var more := CallsOf(key, outcome, asked, at, later);
    var all, n := calls + more, |calls|;
    forall i | 0 <= i < |all| && all[i].Failure? ensures GuardedAt(all, window, max, i) {
      if i < n {
        assert GuardedAt(calls, window, max, i) && all[..i] == calls[..i];
      } else {
        assert i == n + 1 && all[..i] == calls + [Call.Limited(key, asked)];
        assert (calls + [Call.Limited(key, asked)])[..n] == calls;
      }
    }
  }

  lemma GuardedPrefix(calls: seq<Call>, window: int, max: nat, n: nat)
    requires Guarded(calls, window, max) && n <= |calls|
    ensures Guarded(calls[..n], window, max)
  {
    forall i | 0 <= i < n && calls[..n][i].Failure? ensures GuardedAt(calls[..n], window, max, i) {
      assert GuardedAt(calls, window, max, i) && calls[..n][..i] == calls[..i];
    }
  }

  /** The stored list of a key never exceeds the maximum. */
  lemma {:induction false} StoredWithinMax(calls: seq<Call>, window: int, max: nat, key: string)
    requires Guarded(calls, window, max)
    ensures |ListOf(Stored(calls, window), key)| <= max
  {
    if calls != [] {
      var n := |calls| - 1;
      GuardedPrefix(calls, window, max, n);
      StoredWithinMax(calls[..n], window, max, key);
      var before := ListOf(Stored(calls[..n], window), key);
      CalledList(Stored(calls[..n], window), window, calls[n], key);
      if calls[n].Failure? {
        assert GuardedAt(calls, window, max, n);
        AfterBounds(before, calls[n].later - window);
      } else if calls[n].Limited? {
        AfterBounds(before, calls[n].at - window);
      }
    }
  }

  /** The instants of a list in (lo, hi]. */
  function Within(times: seq<Time>, lo: Time, hi: Time): seq<Time> {
    if times == [] then []
    else Within(times[..|times| - 1], lo, hi) + (if lo < times[|times| - 1] <= hi then [times[|times| - 1]] else [])
  }

  lemma {:induction false} WithinAfter(times: seq<Time>, lo: Time, hi: Time, cut: Time)
    requires cut <= lo
    ensures |Within(times, lo, hi)| <= |After(times, cut)|
  {
    if times != [] { WithinAfter(times[..|times| - 1], lo, hi, cut); }
  }

  lemma {:induction false} ClockOfPrefix(calls: seq<Call>, now: Time)
    requires ClockUpTo(calls, now) && calls != []
    ensures ClockUpTo(calls[..|calls| - 1], now)
    ensures !calls[|calls| - 1].Success? ==> ClockUpTo(calls[..|calls| - 1], calls[|calls| - 1].at)
  {
    var c := calls[|calls| - 1];
    if !c.Success? { ClockLater(calls[..|calls| - 1], c.at, now); }
  }

  lemma FailuresStep(calls: seq<Call>, c: Call, key: string)
    ensures Failures(calls + [c], key) == Recorded(Failures(calls, key), key, c)
  {
    assert (calls + [c])[..|calls|] == calls;
  }

  /** In any window (t - window, t] at most max wrong passwords are checked for a key between two successes. */
  lemma {:induction false} GuessBound(calls: seq<Call>, window: int, max: nat, now: Time, key: string, t: Time)
    requires Guarded(calls, window, max) && ClockUpTo(calls, now)
    ensures |Within(Failures(calls, key), t - window, t)| <= max
  {
    if calls != [] {
      var n := |calls| - 1;
      var init, c := calls[..n], calls[n];
      GuardedPrefix(calls, window, max, n);
      ClockOfPrefix(calls, now);
      GuessBound(init, window, max, now, key, t);
      if c.Failure? && c.key == key {
        assert Failures(calls, key) == Failures(init, key) + [c.at];
        assert (Failures(init, key) + [c.at])[..|Failures(init, key)|] == Failures(init, key);
        if c.at <= t { AskedBefore(calls, window, max, key, t); }
      }
    }
  }

  /** The question before a failure bounds the failures already inside any window that the new one closes. */
  lemma AskedBefore(calls: seq<Call>, window: int, max: nat, key: string, t: Time)
    requires calls != [] && calls[|calls| - 1].Failure? && calls[|calls| - 1].key == key && calls[|calls| - 1].at <= t
    requires GuardedAt(calls, window, max, |calls| - 1)
    requires ClockUpTo(calls[..|calls| - 1], calls[|calls| - 1].at)
    ensures |Within(Failures(calls[..|calls| - 1], key), t - window, t)| < max
  {
    var n := |calls| - 1;
    var before, asked := calls[..n - 1], calls[n - 1].at;
    FollowsQuestion(calls, window, max, key);
    LimiterRefinesHistory(before, window, max, asked, key);
    assert calls[..n] == before + [Call.Limited(key, asked)];
    FailuresStep(before, Call.Limited(key, asked), key);
    WithinAfter(Failures(before, key), t - window, t, asked - window);
  }

  /** The calls before a guarded failure end in the question it follows, and were in order then. */
  lemma FollowsQuestion(calls: seq<Call>, window: int, max: nat, key: string)
    requires |calls| > 0 && calls[|calls| - 1].Failure? && calls[|calls| - 1].key == key
    requires GuardedAt(calls, window, max, |calls| - 1) && ClockUpTo(calls[..|calls| - 1], calls[|calls| - 1].at)
    ensures var n := |calls| - 1;
            && n > 0 && calls[..n] == calls[..n - 1] + [Call.Limited(key, calls[n - 1].at)]
            && calls[n - 1].at <= calls[n].at && ClockUpTo(calls[..n - 1], calls[n - 1].at)
  {
    var n := |calls| - 1;
    assert calls[..n][..n - 1] == calls[..n - 1] && calls[..n][n - 1] == calls[n - 1];
  }

  // ----- Runs of logins -----

  /** One submitted form: whether its password is right, and the clock readings of its handler in order. */
  datatype Attempt = Attempt(key: string, correct: bool, asked: Time, at: Time, later: Time)

  /** The lists a limiter holds after these logins, one after the other. */
  function ListsAfter(attempts: seq<Attempt>, window: int, max: nat): map<string, seq<Time>>
    decreases |attempts|, 1
  {
    if attempts == [] then map[]
    else
      var a := attempts[|attempts| - 1];
      AfterLogin(ListsAfter(attempts[..|attempts| - 1], window, max), window, a.key, LastOutcome(attempts, window, max), a.asked, a.at, a.later)
  }

  function LastOutcome(attempts: seq<Attempt>, window: int, max: nat): Outcome
    requires attempts != []
    decreases |attempts|, 0
  {
    var a := attempts[|attempts| - 1];
    OutcomeOf(ListsAfter(attempts[..|attempts| - 1], window, max), window, max, a.key, a.correct, a.asked)
  }

  /** The limiter calls these logins make. */
  function CallsMade(attempts: seq<Attempt>, window: int, max: nat): seq<Call> {
    if attempts == [] then []
    else
      var a := attempts[|attempts| - 1];
      CallsMade(attempts[..|attempts| - 1], window, max) + CallsOf(a.key, LastOutcome(attempts, window, max), a.asked, a.at, a.later)
  }

  /** The wrong guesses for a key since its last login, told from the passwords alone: an attempt counts unless max earlier
      ones lie in the window that ends as it asks. */
  function WrongGuesses(attempts: seq<Attempt>, window: int, max: nat, key: string): seq<Time> {
    if attempts == [] then []
    else
      var a, before := attempts[|attempts| - 1], WrongGuesses(attempts[..|attempts| - 1], window, max, key);
      if a.key != key || |Within(before, a.asked - window, a.asked)| >= max then before
      else if a.correct then [] else before + [a.at]
  }

  /** The clock does not go back, and has not passed now. */
  ghost predicate InOrder(attempts: seq<Attempt>, now: Time) {
    attempts == [] ||
    var a := attempts[|attempts| - 1];
    a.asked <= a.at <= a.later <= now && InOrder(attempts[..|attempts| - 1], a.asked)
  }

  /** A run of logins makes guarded calls, and the limiter holds what those calls store. */
  lemma {:induction false} LoginsAreGuarded(attempts: seq<Attempt>, window: int, max: nat)
    ensures Guarded(CallsMade(attempts, window, max), window, max)
    ensures ListsAfter(attempts, window, max) == Stored(CallsMade(attempts, window, max), window)
    decreases |attempts|
  {
    if attempts != [] {
      var a, init := attempts[|attempts| - 1], attempts[..|attempts| - 1];
      var calls, outcome := CallsMade(init, window, max), LastOutcome(attempts, window, max);
      LoginsAreGuarded(init, window, max);
      LoginIsGuarded(calls, window, max, a.key, outcome, a.asked, a.at, a.later);
      LoginIsStored(calls, window, a.key, outcome, a.asked, a.at, a.later);
    }
  }

  lemma FailuresOfLogin(calls: seq<Call>, key: string, a: Attempt, outcome: Outcome)
    ensures Failures(calls + CallsOf(a.key, outcome, a.asked, a.at, a.later), key) ==
              if a.key != key then Failures(calls, key)
              else match outcome
                case Blocked => Failures(calls, key)
                case WrongPassword => Failures(calls, key) + [a.at]
                case LoggedIn => []
  {
    AskingRecordsNothing(calls, key, a.key, a.asked);
    match outcome
    case Blocked => assert CallsOf(a.key, outcome, a.asked, a.at, a.later) == [Call.Limited(a.key, a.asked)];
    case WrongPassword => ThenRecorded(calls, Call.Limited(a.key, a.asked), Call.Failure(a.key, a.at, a.later), key);
    case LoggedIn => ThenRecorded(calls, Call.Limited(a.key, a.asked), Call.Success(a.key), key);
  }

  lemma ThenRecorded(calls: seq<Call>, first: Call, second: Call, key: string)
    ensures Failures(calls + ([first] + [second]), key) == Recorded(Failures(calls + [first], key), key, second)
  {
    FailuresStep(calls + [first], second, key);
    assert calls + ([first] + [second]) == (calls + [first]) + [second];
  }

  lemma AskingRecordsNothing(calls: seq<Call>, key: string, k: string, asked: Time)
    ensures Failures(calls + [Call.Limited(k, asked)], key) == Failures(calls, key)
  {
    FailuresStep(calls, Call.Limited(k, asked), key);
  }

  lemma ClockStep(calls: seq<Call>, c: Call, now: Time)
    requires (c.Limited? ==> c.at <= now && ClockUpTo(calls, c.at))
    requires (c.Failure? ==> c.at <= c.later <= now && ClockUpTo(calls, c.at))
    requires (c.Success? ==> ClockUpTo(calls, now))
    ensures ClockUpTo(calls + [c], now)
  {
    assert (calls + [c])[..|calls|] == calls;
  }

  lemma {:induction false} CallsKeepTheClock(attempts: seq<Attempt>, window: int, max: nat, now: Time)
    requires InOrder(attempts, now)
    ensures ClockUpTo(CallsMade(attempts, window, max), now)
    decreases |attempts|
  {
    if attempts != [] {
      var a := attempts[|attempts| - 1];
      var calls, outcome := CallsMade(attempts[..|attempts| - 1], window, max), LastOutcome(attempts, window, max);
      CallsKeepTheClock(attempts[..|attempts| - 1], window, max, a.asked);
      LoginKeepsTheClock(calls, a, outcome, now);
    }
  }

  lemma LoginKeepsTheClock(calls: seq<Call>, a: Attempt, outcome: Outcome, now: Time)
    requires ClockUpTo(calls, a.asked) && a.asked <= a.at <= a.later <= now
    ensures ClockUpTo(calls + CallsOf(a.key, outcome, a.asked, a.at, a.later), now)
  {
    var first, more := Call.Limited(a.key, a.asked), CallsOf(a.key, outcome, a.asked, a.at, a.later);
    ClockStep(calls, first, a.at);
    if outcome == Blocked {
      ClockLater(calls + more, a.at, now);
      assert calls + more == calls + [first];
    } else {
      if outcome == LoggedIn { ClockLater(calls + [first], a.at, now); }
      ClockStep(calls + [first], more[1], now);
      assert calls + more == (calls + [first]) + [more[1]];
    }
  }

  lemma {:induction false} FailuresByNow(calls: seq<Call>, key: string, now: Time)
    requires ClockUpTo(calls, now)
    ensures forall t | t in Failures(calls, key) :: t <= now
    decreases |calls|
  {
    if calls != [] {
      ClockOfPrefix(calls, now);
      FailuresByNow(calls[..|calls| - 1], key, now);
    }
  }

  lemma {:induction false} AfterIsWithin(times: seq<Time>, lo: Time, hi: Time)
    requires forall t | t in times :: t <= hi
    ensures After(times, lo) == Within(times, lo, hi)
  {
    if times != [] {
      var init := times[..|times| - 1];
      assert times[|times| - 1] in times;
      forall t | t in init ensures t <= hi { assert t in times; }
      AfterIsWithin(init, lo, hi);
    }
  }

  /** The limiter's answer to a question, told from the history of the calls. */
  lemma QuestionIs(calls: seq<Call>, window: int, max: nat, key: string, asked: Time)
    requires ClockUpTo(calls, asked)
    ensures |ListOf(Called(Stored(calls, window), window, Call.Limited(key, asked)), key)| >= max <==>
              |Within(Failures(calls, key), asked - window, asked)| >= max
  {
    StoredStep(calls, window, Call.Limited(key, asked));
    LimiterRefinesHistory(calls, window, max, asked, key);
    FailuresByNow(calls, key, asked);
    AfterIsWithin(Failures(calls, key), asked - window, asked);
  }

  /** How the last attempt of a run ends, told from its password and the failures recorded. */
  lemma LastOutcomeIs(attempts: seq<Attempt>, window: int, max: nat, now: Time)
    requires attempts != [] && InOrder(attempts, now)
    ensures var a, calls := attempts[|attempts| - 1], CallsMade(attempts[..|attempts| - 1], window, max);
            LastOutcome(attempts, window, max) ==
              if |Within(Failures(calls, a.key), a.asked - window, a.asked)| >= max then Blocked
              else if a.correct then LoggedIn else WrongPassword
  {
    var a, init := attempts[|attempts| - 1], attempts[..|attempts| - 1];
    LastIsJudged(attempts, window, max);
    CallsKeepTheClock(init, window, max, a.asked);
    OutcomeIs(CallsMade(init, window, max), window, max, a);
  }

  lemma LastIsJudged(attempts: seq<Attempt>, window: int, max: nat)
    requires attempts != []
    ensures var a, calls := attempts[|attempts| - 1], CallsMade(attempts[..|attempts| - 1], window, max);
            LastOutcome(attempts, window, max) == OutcomeOf(Stored(calls, window), window, max, a.key, a.correct, a.asked)
  {
    LoginsAreGuarded(attempts[..|attempts| - 1], window, max);
  }

  lemma OutcomeIs(calls: seq<Call>, window: int, max: nat, a: Attempt)
    requires ClockUpTo(calls, a.asked)
    ensures OutcomeOf(Stored(calls, window), window, max, a.key, a.correct, a.asked) ==
              if |Within(Failures(calls, a.key), a.asked - window, a.asked)| >= max then Blocked
              else if a.correct then LoggedIn else WrongPassword
  {
    QuestionIs(calls, window, max, a.key, a.asked);
  }

  /** The failures the calls record are the wrong guesses. */
  lemma {:induction false} FailuresAreWrongGuesses(attempts: seq<Attempt>, window: int, max: nat, now: Time, key: string)
    requires InOrder(attempts, now)
    ensures Failures(CallsMade(attempts, window, max), key) == WrongGuesses(attempts, window, max, key)
    decreases |attempts|
  {
    if attempts != [] {
      var a, init := attempts[|attempts| - 1], attempts[..|attempts| - 1];
      FailuresAreWrongGuesses(init, window, max, a.asked, key);
      LastOutcomeIs(attempts, window, max, now);
      FailuresOfLogin(CallsMade(init, window, max), key, a, LastOutcome(attempts, window, max));
    }
  }

  /** In every run of logins with a clock that does not go back: an attempt is blocked if and only if at least the maximum of
      wrong guesses for its key since the last login lie in the window that ends as it asks; one that is not blocked logs in
      if and only if its password is right. */
  lemma LoginsAreJudged(attempts: seq<Attempt>, window: int, max: nat, now: Time)
    requires attempts != [] && InOrder(attempts, now)
    ensures var a, outcome := attempts[|attempts| - 1], LastOutcome(attempts, window, max);
            var recent := |Within(WrongGuesses(attempts[..|attempts| - 1], window, max, a.key), a.asked - window, a.asked)|;
            && (outcome == Blocked <==> recent >= max)
            && (outcome == LoggedIn <==> recent < max && a.correct)
            && (outcome == WrongPassword <==> recent < max && !a.correct)
  {
    LastOutcomeIs(attempts, window, max, now);
    var a := attempts[|attempts| - 1];
    FailuresAreWrongGuesses(attempts[..|attempts| - 1], window, max, a.asked, a.key);
  }

  /** In every run of logins with a clock that does not go back: the stored list of a key never exceeds the maximum, and
      any window (t - window, t] holds at most the maximum of wrong guesses for the key since its last success. */
  lemma LoginsAreBounded(attempts: seq<Attempt>, window: int, max: nat, now: Time, key: string, t: Time)
    requires InOrder(attempts, now)
    ensures |ListOf(ListsAfter(attempts, window, max), key)| <= max
    ensures |Within(WrongGuesses(attempts, window, max, key), t - window, t)| <= max
  {
    LoginsAreGuarded(attempts, window, max);
    StoredWithinMax(CallsMade(attempts, window, max), window, max, key);
    FailuresAreWrongGuesses(attempts, window, max, now, key);
    CallsKeepTheClock(attempts, window, max, now);
    GuessBound(CallsMade(attempts, window, max), window, max, now, key, t);
  }
}
