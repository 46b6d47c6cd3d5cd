/** The guess bound when logins overlap: the question of a login and what it records are two calls of the limiter, and
    calls of other logins may come between. */
module LoginsInFlight {
  import opened RateLimit
  import opened Login
  import opened Sorting

  /** A login that has asked, in turn n. */
  datatype Asked = Asked(key: string, n: nat)

  /** What one login does at a time: it asks the limiter, or it checks the password and records the answer. */
  datatype Turn = Ask(key: string, at: Time) | Answer(login: Asked, correct: bool, at: Time, later: Time)

  function CallOf(turn: Turn): Call {
    match turn
    case Ask(key, at) => Call.Limited(key, at)
    case Answer(login, correct, at, later) => if correct then Call.Success(login.key) else Call.Failure(login.key, at, later)
  }

  function Calls(turns: seq<Turn>): (calls: seq<Call>)
    ensures |calls| == |turns|
  {
    seq(|turns|, i requires 0 <= i < |turns| => CallOf(turns[i]))
  }

  /** The logins that asked, were not limited, and have not answered. */
  ghost function Waiting(turns: seq<Turn>, window: int, max: nat): set<Asked> {
    if turns == [] then {}
    else
      var n := |turns| - 1;
      var before := Waiting(turns[..n], window, max);
      match turns[n]
      case Ask(key, _) => if |ListOf(Stored(Calls(turns), window), key)| < max then before + {Asked(key, n)} else before
      case Answer(login, _, _, _) => before - {login}
  }

  ghost function WaitingFor(turns: seq<Turn>, window: int, max: nat, key: string): set<Asked> {
    set login | login in Waiting(turns, window, max) && login.key == key
  }

  /** A run of overlapping logins: any login may ask at any time, and one that is waiting may answer. */
  ghost predicate IsRun(turns: seq<Turn>, window: int, max: nat) {
    turns == [] ||
    var n := |turns| - 1;
    && IsRun(turns[..n], window, max)
    && (turns[n].Answer? ==> turns[n].login in Waiting(turns[..n], window, max))
  }

  /** At no moment of the run more than k logins for the key were waiting. */
  ghost predicate AtMost(turns: seq<Turn>, window: int, max: nat, key: string, k: nat) {
    turns == [] || (AtMost(turns[..|turns| - 1], window, max, key, k) && |WaitingFor(turns, window, max, key)| <= k)
  }

  lemma CallsOfPrefix(turns: seq<Turn>, m: nat)
    requires m <= |turns|
    ensures Calls(turns[..m]) == Calls(turns)[..m]
  {
  }

  // ----- Waiting logins -----

  lemma {:induction false} WaitingHasAsked(turns: seq<Turn>, window: int, max: nat, login: Asked)
    requires login in Waiting(turns, window, max)
    ensures login.n < |turns| && turns[login.n].Ask? && turns[login.n].key == login.key
    ensures |ListOf(Stored(Calls(turns)[..login.n + 1], window), login.key)| < max
    decreases |turns|
  {
    var n := |turns| - 1;
    CallsOfPrefix(turns, n);
    if login in Waiting(turns[..n], window, max) {
      WaitingHasAsked(turns[..n], window, max, login);
      assert Calls(turns)[..n][..login.n + 1] == Calls(turns)[..login.n + 1];
    } else {
      assert Calls(turns)[..n + 1] == Calls(turns);
    }
  }

  lemma {:induction false} WaitedBefore(turns: seq<Turn>, window: int, max: nat, login: Asked, m: nat)
    requires login in Waiting(turns, window, max) && login.n < m <= |turns|
    ensures login in Waiting(turns[..m], window, max)
    decreases |turns|
  {
    if m < |turns| {
      WaitedBefore(turns[..|turns| - 1], window, max, login, m);
      assert turns[..|turns| - 1][..m] == turns[..m];
    } else {
      assert turns[..m] == turns;
    }
  }

  lemma {:induction false} AnswersWaiting(turns: seq<Turn>, window: int, max: nat, i: nat)
    requires IsRun(turns, window, max) && i < |turns| && turns[i].Answer?
    ensures turns[i].login in Waiting(turns[..i], window, max) && turns[i].login.n < i
    decreases |turns|
  {
    if i < |turns| - 1 {
      AnswersWaiting(turns[..|turns| - 1], window, max, i);
      assert turns[..|turns| - 1][..i] == turns[..i];
    } else {
      WaitingHasAsked(turns[..i], window, max, turns[i].login);
    }
  }

  lemma AnswersOnce(turns: seq<Turn>, window: int, max: nat, i: nat, j: nat)
    requires IsRun(turns, window, max) && i < j < |turns| && turns[i].Answer? && turns[j].Answer?
    ensures turns[i].login != turns[j].login
  {
    if turns[i].login == turns[j].login {
      AnswersWaiting(turns, window, max, i);
      AnswersWaiting(turns, window, max, j);
      assert turns[..j][..i + 1] == turns[..i + 1] && turns[..i + 1][..i] == turns[..i];
      WaitedBefore(turns[..j], window, max, turns[j].login, i + 1);
      assert false;
    }
  }

  // ----- Counting -----

  ghost predicate FailureOf(calls: seq<Call>, key: string, i: nat) { i < |calls| && calls[i].Failure? && calls[i].key == key }

  /** Where the calls since the last success of the key begin. */
  ghost function Since(calls: seq<Call>, key: string): (n: nat)
    ensures n <= |calls|
  {
    if calls == [] then 0
    else if calls[|calls| - 1].Success? && calls[|calls| - 1].key == key then |calls|
    else Since(calls[..|calls| - 1], key)
  }

  /** The failures of the key since its last success with an instant in (lo, hi]. */
  ghost function Counted(calls: seq<Call>, key: string, lo: Time, hi: Time): set<nat> {
    set i: nat | Since(calls, key) <= i < |calls| && FailureOf(calls, key, i) && lo < calls[i].at <= hi
  }

  lemma {:induction false} CountedIsWithin(calls: seq<Call>, key: string, lo: Time, hi: Time)
    ensures |Counted(calls, key, lo, hi)| == |Within(Failures(calls, key), lo, hi)|
    decreases |calls|
  {
    if calls == [] {
      assert Counted(calls, key, lo, hi) == {};
    } else {
      var n := |calls| - 1;
      CountedIsWithin(calls[..n], key, lo, hi);
      if FailureOf(calls, key, n) {
        LastCounted(calls, key, lo, hi);
        var f := Failures(calls[..n], key);
        assert Failures(calls, key) == f + [calls[n].at] && (f + [calls[n].at])[..|f|] == f;
      } else {
        LastNotCounted(calls, key, lo, hi);
      }
    }
  }

  lemma LastNotCounted(calls: seq<Call>, key: string, lo: Time, hi: Time)
    requires calls != [] && !FailureOf(calls, key, |calls| - 1)
    ensures var n := |calls| - 1;
            if calls[n].Success? && calls[n].key == key then Counted(calls, key, lo, hi) == {} && Failures(calls, key) == []
            else Counted(calls, key, lo, hi) == Counted(calls[..n], key, lo, hi) && Failures(calls, key) == Failures(calls[..n], key)
  {
  }

  lemma LastCounted(calls: seq<Call>, key: string, lo: Time, hi: Time)
    requires calls != [] && FailureOf(calls, key, |calls| - 1)
    ensures var n := |calls| - 1;
            && n !in Counted(calls[..n], key, lo, hi)
            && Counted(calls, key, lo, hi) == Counted(calls[..n], key, lo, hi) + if lo < calls[n].at <= hi then {n} else {}
  {
  }

  /** The answer among these whose login asked last. */
  lemma {:induction false} AskedLast(answers: set<nat>, turns: seq<Turn>) returns (j: nat)
    requires answers != {} && forall i | i in answers :: i < |turns| && turns[i].Answer?
    ensures j in answers && forall i | i in answers :: turns[i].login.n <= turns[j].login.n
    decreases |answers|
  {
    var one :| one in answers;
    var rest := answers - {one};
    j := one;
    if rest != {} {
      var other := AskedLast(rest, turns);
      if turns[one].login.n < turns[other].login.n { j := other; }
    }
    assert answers == rest + {one};
  }

  lemma {:induction false} SinceOfPrefix(calls: seq<Call>, key: string, m: nat)
    requires Since(calls, key) <= m <= |calls|
    ensures Since(calls[..m], key) == Since(calls, key)
    decreases |calls| - m
  {
    if m < |calls| {
      var n := |calls| - 1;
      SinceStep(calls, key);
      if m < n { SinceOfPrefix(calls[..n], key, m); assert calls[..n][..m] == calls[..m]; }
    } else {
      assert calls[..m] == calls;
    }
  }

  lemma SinceStep(calls: seq<Call>, key: string)
    requires calls != [] && Since(calls, key) < |calls|
    ensures Since(calls[..|calls| - 1], key) == Since(calls, key)
  {
  }

  lemma {:induction false} ClockAt(calls: seq<Call>, now: Time, m: nat, j: nat)
    requires ClockUpTo(calls, now) && m < |calls| && calls[m].Limited?
    requires m < j < |calls| && calls[j].Failure?
    ensures ClockUpTo(calls[..m], calls[m].at) && calls[m].at <= calls[j].at
    decreases |calls|
  {
    var n := |calls| - 1;
    ClockOfPrefix(calls, now);
    if j < n {
      ClockAt(calls[..n], now, m, j);
      assert calls[..n][..m] == calls[..m];
    } else {
      ClockBefore(calls[..n], calls[n].at, m);
      assert calls[..n][..m] == calls[..m];
    }
  }

  lemma {:induction false} ClockBefore(calls: seq<Call>, now: Time, m: nat)
    requires ClockUpTo(calls, now) && m < |calls| && calls[m].Limited?
    ensures ClockUpTo(calls[..m], calls[m].at) && calls[m].at <= now
    decreases |calls|
  {
    var n := |calls| - 1;
    ClockOfPrefix(calls, now);
    if m < n {
      ClockBefore(calls[..n], now, m);
      assert calls[..n][..m] == calls[..m];
    }
  }

  /** When a login that is not limited asks, fewer than the maximum of failures lie in any window it will fall into. */
  lemma FewWhenAsked(calls: seq<Call>, window: int, max: nat, key: string, m: nat, t: Time)
    requires m < |calls| && calls[m].Limited? && calls[m].key == key && ClockUpTo(calls[..m], calls[m].at) && calls[m].at <= t
    requires |ListOf(Stored(calls[..m + 1], window), key)| < max
    ensures |Counted(calls[..m], key, t - window, t)| < max
  {
    assert calls[..m + 1] == calls[..m] + [Call.Limited(key, calls[m].at)];
    LimiterRefinesHistory(calls[..m], window, max, calls[m].at, key);
    CountedIsWithin(calls[..m], key, t - window, t);
    WithinAfter(Failures(calls[..m], key), t - window, t, calls[m].at - window);
  }

  // ----- Logins in flight -----

  /** The failures for a key recorded after turn m by logins that had asked by then. */
  ghost function InFlight(turns: seq<Turn>, key: string, m: nat): set<nat> {
    set i: nat | m < i < |turns| && FailureOf(Calls(turns), key, i) && turns[i].login.n <= m
  }

  lemma {:induction false} ImageSize<A, B>(s: set<A>, f: A --> B, t: set<B>)
    requires forall a | a in s :: f.requires(a) && f(a) in t
    requires forall a, b | a in s && b in s && a != b :: f(a) != f(b)
    ensures |s| <= |t|
    decreases |s|
  {
    if s != {} {
      var a :| a in s;
      ImageSize(s - {a}, f, t - {f(a)});
    }
  }

  /** Each of them was waiting at turn m. */
  lemma InFlightWaits(turns: seq<Turn>, window: int, max: nat, key: string, m: nat)
    requires IsRun(turns, window, max) && m < |turns|
    ensures |InFlight(turns, key, m)| <= |WaitingFor(turns[..m + 1], window, max, key)|
  {
    var flying, waiting := InFlight(turns, key, m), WaitingFor(turns[..m + 1], window, max, key);
    var f := (i: nat) requires i < |turns| && turns[i].Answer? => turns[i].login;
    forall i | i in flying ensures f.requires(i) && f(i) in waiting {
      AnswersWaiting(turns, window, max, i);
      WaitedBefore(turns[..i], window, max, turns[i].login, m + 1);
      assert turns[..i][..m + 1] == turns[..m + 1];
    }
    forall i, j | i in flying && j in flying && i != j ensures f(i) != f(j) {
      if i < j { AnswersOnce(turns, window, max, i, j); } else { AnswersOnce(turns, window, max, j, i); }
    }
    ImageSize(flying, f, waiting);
  }

  lemma {:induction false} AtMostAt(turns: seq<Turn>, window: int, max: nat, key: string, k: nat, m: nat)
    requires AtMost(turns, window, max, key, k) && m < |turns|
    ensures |WaitingFor(turns[..m + 1], window, max, key)| <= k
    decreases |turns|
  {
    if m < |turns| - 1 {
      AtMostAt(turns[..|turns| - 1], window, max, key, k, m);
      assert turns[..|turns| - 1][..m + 1] == turns[..m + 1];
    } else {
      assert turns[..m + 1] == turns;
    }
  }

  /** When the login that answers j asked, fewer than the maximum of failures lay in any window its answer falls into. */
  lemma FewWhenItAsked(turns: seq<Turn>, window: int, max: nat, now: Time, key: string, t: Time, j: nat)
    requires IsRun(turns, window, max) && ClockUpTo(Calls(turns), now)
    requires j < |turns| && FailureOf(Calls(turns), key, j) && turns[j].at <= t
    ensures var m := turns[j].login.n; m < j && turns[m].Ask? && |Counted(Calls(turns)[..m], key, t - window, t)| < max
  {
    var calls, m := Calls(turns), turns[j].login.n;
    AnswersWaiting(turns, window, max, j);
    WaitingHasAsked(turns[..j], window, max, turns[j].login);
    CallsOfPrefix(turns, j);
    assert calls[..j][..m + 1] == calls[..m + 1];
    ClockAt(calls, now, m, j);
    FewWhenAsked(calls, window, max, key, m, t);
  }

  lemma FewSinceItAsked(turns: seq<Turn>, window: int, max: nat, key: string, lo: Time, hi: Time, k: nat, m: nat)
    requires IsRun(turns, window, max) && AtMost(turns, window, max, key, k) && m < |turns| && turns[m].Ask?
    requires forall i | i in Counted(Calls(turns), key, lo, hi) :: turns[i].login.n <= m
    ensures |Counted(Calls(turns), key, lo, hi)| <= |Counted(Calls(turns)[..m], key, lo, hi)| + k
  {
    SplitAt(turns, key, lo, hi, m);
    InFlightWaits(turns, window, max, key, m);
    AtMostAt(turns, window, max, key, k, m);
  }

  /** With at most k logins for a key waiting at once, any window (t - window, t] holds at most max - 1 + k wrong guesses for
      it since its last success. */
  lemma GuessBoundInFlight(turns: seq<Turn>, window: int, max: nat, now: Time, key: string, t: Time, k: nat)
    requires max > 0 && IsRun(turns, window, max) && AtMost(turns, window, max, key, k) && ClockUpTo(Calls(turns), now)
    ensures |Within(Failures(Calls(turns), key), t - window, t)| <= max - 1 + k
  {
    CountedIsWithin(Calls(turns), key, t - window, t);
    FewCounted(turns, window, max, now, key, t, k);
  }

  lemma FewCounted(turns: seq<Turn>, window: int, max: nat, now: Time, key: string, t: Time, k: nat)
    requires max > 0 && IsRun(turns, window, max) && AtMost(turns, window, max, key, k) && ClockUpTo(Calls(turns), now)
    ensures |Counted(Calls(turns), key, t - window, t)| <= max - 1 + k
  {
    var all := Counted(Calls(turns), key, t - window, t);
    if all != {} {
      var j := AskedLast(all, turns);
      FewWhenItAsked(turns, window, max, now, key, t, j);
      FewSinceItAsked(turns, window, max, key, t - window, t, k, turns[j].login.n);
    }
  }

  /** What was recorded before turn m was counted there; what was recorded after it was in flight. */
  lemma SplitAt(turns: seq<Turn>, key: string, lo: Time, hi: Time, m: nat)
    requires m < |turns| && turns[m].Ask?
    requires forall i | i in Counted(Calls(turns), key, lo, hi) :: turns[i].login.n <= m
    ensures |Counted(Calls(turns), key, lo, hi)| <= |Counted(Calls(turns)[..m], key, lo, hi)| + |InFlight(turns, key, m)|
  {
    var all := Counted(Calls(turns), key, lo, hi);
    EarlyIsCounted(Calls(turns), key, lo, hi, m);
    LateIsInFlight(turns, key, lo, hi, m);
    SplitSize(all, Before(all, m), Counted(Calls(turns)[..m], key, lo, hi), InFlight(turns, key, m));
  }

  lemma SplitSize(all: set<nat>, early: set<nat>, counted: set<nat>, flying: set<nat>)
    requires early <= all && early <= counted && all - early <= flying
    ensures |all| <= |counted| + |flying|
  {
    SubsetSize(early, counted);
    SubsetSize(all - early, flying);
    assert all == early + (all - early);
  }

  ghost function Before(all: set<nat>, m: nat): set<nat> { set i | i in all && i < m }

  lemma EarlyIsCounted(calls: seq<Call>, key: string, lo: Time, hi: Time, m: nat)
    requires m < |calls|
    ensures Before(Counted(calls, key, lo, hi), m) <= Counted(calls[..m], key, lo, hi)
  {
    forall i | i in Before(Counted(calls, key, lo, hi), m) ensures i in Counted(calls[..m], key, lo, hi) {
      SinceOfPrefix(calls, key, m);
      assert FailureOf(calls[..m], key, i);
    }
  }

  lemma LateIsInFlight(turns: seq<Turn>, key: string, lo: Time, hi: Time, m: nat)
    requires m < |turns| && turns[m].Ask?
    requires forall i | i in Counted(Calls(turns), key, lo, hi) :: turns[i].login.n <= m
    ensures Counted(Calls(turns), key, lo, hi) - Before(Counted(Calls(turns), key, lo, hi), m) <= InFlight(turns, key, m)
  {
  }

  // ----- The bound is reached -----

  function Zeros(n: nat): seq<Time> { seq(n, _ => 0) }

  /** A run at instant 0 for one key: n wrong guesses so far, and these logins waiting. */
  ghost predicate AtZero(turns: seq<Turn>, window: int, max: nat, key: string, k: nat, n: nat, waiting: set<Asked>) {
    && IsRun(turns, window, max) && ClockUpTo(Calls(turns), 0) && AtMost(turns, window, max, key, k)
    && Waiting(turns, window, max) == waiting && (forall login | login in waiting :: login.key == key && login.n < |turns|)
    && ListOf(Stored(Calls(turns), window), key) == Zeros(n) == Failures(Calls(turns), key)
  }

  lemma {:induction false} ZerosStay(n: nat, cut: Time)
    requires cut < 0
    ensures After(Zeros(n), cut) == Zeros(n) && |Within(Zeros(n), cut, 0)| == n
    decreases n
  {
    if n > 0 {
      ZerosStay(n - 1, cut);
      assert Zeros(n) == Zeros(n - 1) + [0] && Zeros(n)[..n - 1] == Zeros(n - 1);
    }
  }

  lemma CallsStep(turns: seq<Turn>, turn: Turn)
    ensures Calls(turns + [turn]) == Calls(turns) + [CallOf(turn)] && (turns + [turn])[..|turns|] == turns
  {
  }

  /** What one more call at instant 0 leaves of the lists. */
  lemma StoredAtZero(calls: seq<Call>, c: Call, window: int, key: string, n: nat)
    requires window > 0 && (c == Call.Limited(key, 0) || c == Call.Failure(key, 0, 0))
    requires ListOf(Stored(calls, window), key) == Zeros(n)
    ensures ListOf(Stored(calls + [c], window), key) == Zeros(if c.Limited? then n else n + 1)
  {
    StoredStep(calls, window, c);
    CalledAtZero(Stored(calls, window), c, window, key, n);
  }

  lemma CalledAtZero(lists: map<string, seq<Time>>, c: Call, window: int, key: string, n: nat)
    requires window > 0 && (c == Call.Limited(key, 0) || c == Call.Failure(key, 0, 0)) && ListOf(lists, key) == Zeros(n)
    ensures ListOf(Called(lists, window, c), key) == Zeros(if c.Limited? then n else n + 1)
  {
    CalledList(lists, window, c, key);
    ZerosStay(n, 0 - window);
    assert Zeros(n + 1) == Zeros(n) + [0];
  }

  lemma FailuresAtZero(calls: seq<Call>, c: Call, key: string, n: nat)
    requires (c == Call.Limited(key, 0) || c == Call.Failure(key, 0, 0)) && Failures(calls, key) == Zeros(n)
    ensures Failures(calls + [c], key) == Zeros(if c.Limited? then n else n + 1)
  {
    FailuresStep(calls, c, key);
    assert Zeros(n + 1) == Zeros(n) + [0];
  }

  lemma CallAtZero(turns: seq<Turn>, turn: Turn, window: int, key: string, n: nat)
    requires window > 0 && ClockUpTo(Calls(turns), 0)
    requires ListOf(Stored(Calls(turns), window), key) == Zeros(n) == Failures(Calls(turns), key)
    requires CallOf(turn) == Call.Limited(key, 0) || CallOf(turn) == Call.Failure(key, 0, 0)
    ensures ClockUpTo(Calls(turns + [turn]), 0)
    ensures var more := if turn.Ask? then n else n + 1;
            ListOf(Stored(Calls(turns + [turn]), window), key) == Zeros(more) == Failures(Calls(turns + [turn]), key)
  {
    CallsStep(turns, turn);
    StoredAtZero(Calls(turns), CallOf(turn), window, key, n);
    FailuresAtZero(Calls(turns), CallOf(turn), key, n);
    ClockStep(Calls(turns), CallOf(turn), 0);
  }

  lemma AsksAtZero(turns: seq<Turn>, window: int, max: nat, key: string, k: nat, n: nat, waiting: set<Asked>)
    requires window > 0 && n < max && |waiting| < k && AtZero(turns, window, max, key, k, n, waiting)
    ensures AtZero(turns + [Ask(key, 0)], window, max, key, k, n, waiting + {Asked(key, |turns|)})
    ensures |waiting + {Asked(key, |turns|)}| == |waiting| + 1
  {
    var all := turns + [Ask(key, 0)];
    CallsStep(turns, Ask(key, 0));
    CallAtZero(turns, Ask(key, 0), window, key, n);
    assert Asked(key, |turns|) !in waiting;
    assert WaitingFor(all, window, max, key) == waiting + {Asked(key, |turns|)};
  }

  lemma AnswersAtZero(turns: seq<Turn>, window: int, max: nat, key: string, k: nat, n: nat, waiting: set<Asked>, login: Asked)
    requires window > 0 && login in waiting && |waiting| <= k && AtZero(turns, window, max, key, k, n, waiting)
    ensures AtZero(turns + [Answer(login, false, 0, 0)], window, max, key, k, n + 1, waiting - {login})
    ensures |waiting - {login}| == |waiting| - 1
  {
    var all := turns + [Answer(login, false, 0, 0)];
    CallsStep(turns, Answer(login, false, 0, 0));
    CallAtZero(turns, Answer(login, false, 0, 0), window, key, n);
    assert WaitingFor(all, window, max, key) == waiting - {login};
  }

  /** One wrong guess after another. */
  lemma {:induction false} GuessesAtZero(window: int, max: nat, key: string, k: nat, n: nat) returns (turns: seq<Turn>)
    requires window > 0 && k > 0 && n <= max
    ensures AtZero(turns, window, max, key, k, n, {})
    decreases n
  {
    turns := [];
    if n > 0 {
      turns := GuessesAtZero(window, max, key, k, n - 1);
      var login := Asked(key, |turns|);
      AsksAtZero(turns, window, max, key, k, n - 1, {});
      turns := turns + [Ask(key, 0)];
      AnswersAtZero(turns, window, max, key, k, n - 1, {login}, login);
      assert {login} - {login} == {};
      turns := turns + [Answer(login, false, 0, 0)];
    }
  }

  /** Then j of them ask before any answers. */
  lemma {:induction false} AsksInFlight(window: int, max: nat, key: string, k: nat, j: nat)
    returns (turns: seq<Turn>, waiting: set<Asked>)
    requires window > 0 && max > 0 && 0 < k && j <= k
    ensures AtZero(turns, window, max, key, k, max - 1, waiting) && |waiting| == j
    decreases j
  {
    if j == 0 {
      turns := GuessesAtZero(window, max, key, k, max - 1);
      waiting := {};
    } else {
      turns, waiting := AsksInFlight(window, max, key, k, j - 1);
      AsksAtZero(turns, window, max, key, k, max - 1, waiting);
      turns, waiting := turns + [Ask(key, 0)], waiting + {Asked(key, |turns|)};
    }
  }

  /** And all of them answer. */
  lemma {:induction false} AllAnswer(turns: seq<Turn>, window: int, max: nat, key: string, k: nat, n: nat, waiting: set<Asked>)
    returns (more: seq<Turn>)
    requires window > 0 && |waiting| <= k && AtZero(turns, window, max, key, k, n, waiting)
    ensures AtZero(more, window, max, key, k, n + |waiting|, {})
    decreases |waiting|
  {
    if waiting == {} {
      more := turns;
    } else {
      var login :| login in waiting;
      AnswersAtZero(turns, window, max, key, k, n, waiting, login);
      more := AllAnswer(turns + [Answer(login, false, 0, 0)], window, max, key, k, n + 1, waiting - {login});
    }
  }

  ghost predicate Overlapping(turns: seq<Turn>, window: int, max: nat, key: string, k: nat, now: Time) {
    IsRun(turns, window, max) && AtMost(turns, window, max, key, k) && ClockUpTo(Calls(turns), now)
  }

  ghost predicate WindowHolds(turns: seq<Turn>, window: int, key: string, t: Time, b: int) {
    |Within(Failures(Calls(turns), key), t - window, t)| <= b
  }

  /** In every run with at most k logins for the key waiting at once, every window holds at most b wrong guesses. */
  ghost predicate Bounds(window: int, max: nat, key: string, k: nat, b: int) {
    forall turns, now, t | Overlapping(turns, window, max, key, k, now) :: WindowHolds(turns, window, key, t, b)
  }

  /** With k logins waiting, max - 1 + k wrong guesses do get through. */
  lemma OverlapReaches(window: int, max: nat, key: string, k: nat) returns (turns: seq<Turn>)
    requires window > 0 && max > 0 && k > 0
    ensures Overlapping(turns, window, max, key, k, 0)
    ensures |Within(Failures(Calls(turns), key), 0 - window, 0)| == max - 1 + k
  {
    var asked, waiting := AsksInFlight(window, max, key, k, k);
    turns := AllAnswer(asked, window, max, key, k, max - 1, waiting);
    WrongAtZero(turns, window, max, key, k, max - 1 + k, {});
  }

  lemma WrongAtZero(turns: seq<Turn>, window: int, max: nat, key: string, k: nat, n: nat, waiting: set<Asked>)
    requires window > 0 && AtZero(turns, window, max, key, k, n, waiting)
    ensures Overlapping(turns, window, max, key, k, 0)
    ensures |Within(Failures(Calls(turns), key), 0 - window, 0)| == n
  {
    ZerosStay(n, 0 - window);
  }

  /** max - 1 + k is the best bound; that of logins served one at a time, max, holds exactly when one waits at a time. */
  lemma GuessBoundIsExact(window: int, max: nat, key: string, k: nat, b: int)
    requires window > 0 && max > 0 && k > 0
    ensures Bounds(window, max, key, k, b) <==> b >= max - 1 + k
  {
    if b >= max - 1 + k {
      forall turns, now, t | Overlapping(turns, window, max, key, k, now) ensures WindowHolds(turns, window, key, t, b) {
        GuessBoundInFlight(turns, window, max, now, key, t, k);
      }
    } else {
      var turns := OverlapReaches(window, max, key, k);
      assert !WindowHolds(turns, window, key, 0, b);
    }
  }
}
