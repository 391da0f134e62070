/** The failure window of password logins: five failed attempts lock an account until 300 seconds
    after the first of them. */
module LoginWindow {
  type User = string
  datatype Option<+T> = None | Some(value: T)
  datatype Window = Window(start: real, failures: nat)
  /** One login request in transaction order; `valid` when the account is known, active and the
      password is right. */
  datatype Attempt = Attempt(time: real, valid: bool)
  datatype Outcome = BadInput | Refused | Failed | Granted

  const SPAN := 300.0
  const MAX_FAILURES := 5
  const MAX_PASSWORD_CHARS := 4096

  // ---------- one attempt ----------

  function Current(row: Option<Window>, time: real): Option<Window> {
    if row.Some? && time - row.value.start >= SPAN then None else row
  }

  function OutcomeOf(row: Option<Window>, a: Attempt): Outcome {
    var current := Current(row, a.time);
    if current.Some? && current.value.failures >= MAX_FAILURES then Refused
    else if a.valid then Granted
    else Failed
  }

  function NextRow(row: Option<Window>, a: Attempt): Option<Window> {
    var current := Current(row, a.time);
    match OutcomeOf(row, a)
    case Failed =>
      Some(if current.None? then Window(a.time, 1) else Window(current.value.start, current.value.failures + 1))
    case Granted => None
    case _ => row
  }

  function RowOf(rows: map<User, Window>, user: User): Option<Window> {
    if user in rows then Some(rows[user]) else None
  }

  datatype Account = Account(password: string, active: bool)

  class AuthStore {
    var accounts: map<User, Account>
    var failures: map<User, Window>
    var sessions: seq<User>

    constructor (accounts: map<User, Account>)
      ensures this.accounts == accounts && failures == map[] && sessions == []
    {
      this.accounts, failures, sessions := accounts, map[], [];
    }

    predicate Valid(user: User, password: string)
      reads this
    {
      user in accounts && accounts[user].password == password && accounts[user].active
    }

    /** Five failures, the first of them less than 300 seconds ago. */
    predicate Locked(user: User, now: real)
      reads this
    {
      user in failures && failures[user].failures >= 5 && now - failures[user].start < 300.0
    }

    method Login(user: User, password: string, now: real) returns (r: Outcome)
      modifies this
      ensures accounts == old(accounts)
      ensures r == BadInput <==> |password| > MAX_PASSWORD_CHARS
      ensures r == BadInput ==> failures == old(failures)
      ensures r != BadInput ==>
                var a := Attempt(now, old(Valid(user, password)));
                && r == OutcomeOf(RowOf(old(failures), user), a)
                && RowOf(failures, user) == NextRow(RowOf(old(failures), user), a)
      ensures r == Refused <==> |password| <= 4096 && old(Locked(user, now))
      ensures r == Granted <==>
                && |password| <= 4096 && !old(Locked(user, now))
                && user in accounts && accounts[user].password == password && accounts[user].active
      ensures r == Granted ==> user !in failures
      ensures r == Failed ==>
                && user in failures
                && failures[user] == old(if user in failures && now - failures[user].start < 300.0
                                         then Window(failures[user].start, failures[user].failures + 1)
                                         else Window(now, 1))
      ensures forall u :: u != user ==> RowOf(failures, u) == RowOf(old(failures), u)
      ensures sessions == if r == Granted then old(sessions) + [user] else old(sessions)
    {
      if |password| > MAX_PASSWORD_CHARS {
        return BadInput;
      }
      var row := RowOf(failures, user);
      if row.Some? {
        if now - row.value.start >= SPAN {
          failures := failures - {user};
          row := None;
        } else if row.value.failures >= MAX_FAILURES {
          return Refused;
        }
      }
      if !Valid(user, password) {
        if row.None? {
          failures := failures[user := Window(now, 1)];
        } else {
          failures := failures[user := Window(row.value.start, row.value.failures + 1)];
        }
        return Failed;
      }
      failures := failures - {user};
      sessions := sessions + [user];
      return Granted;
    }
  }

  // ---------- the attempts on one account ----------

  ghost predicate InTimeOrder(run: seq<Attempt>) {
    forall i, j :: 0 <= i < j < |run| ==> run[i].time <= run[j].time
  }

  function RowAfter(run: seq<Attempt>): Option<Window> {
    if run == [] then None else NextRow(RowAfter(run[..|run| - 1]), run[|run| - 1])
  }

  /** What the attempt at place `i` of the run is answered. */
  function Answer(run: seq<Attempt>, i: nat): Outcome
    requires i < |run|
  {
    OutcomeOf(RowAfter(run[..i]), run[i])
  }

  /** How many attempts with a time from `low` up to, but not at, `high` were evaluated and failed. */
  function FailuresIn(run: seq<Attempt>, low: real, high: real): nat {
    if run == [] then 0
    else
      var last := run[|run| - 1];
      FailuresIn(run[..|run| - 1], low, high)
      + if OutcomeOf(RowAfter(run[..|run| - 1]), last) == Failed && low <= last.time < high then 1 else 0
  }

  ghost predicate NoLoginIn(run: seq<Attempt>, low: real, high: real) {
    forall i :: 0 <= i < |run| && low <= run[i].time < high ==> Answer(run, i) != Granted
  }

  lemma Shorter(run: seq<Attempt>, low: real, high: real)
    requires run != []
    ensures InTimeOrder(run) ==> InTimeOrder(run[..|run| - 1])
    ensures NoLoginIn(run, low, high) ==> NoLoginIn(run[..|run| - 1], low, high)
  {
    var init := run[..|run| - 1];
    forall i | 0 <= i < |init| ensures Answer(init, i) == Answer(run, i) {
      assert init[..i] == run[..i];
    }
  }

  lemma {:induction false} RowFacts(run: seq<Attempt>)
    requires InTimeOrder(run) && RowAfter(run).Some?
    ensures 1 <= RowAfter(run).value.failures <= MAX_FAILURES
    ensures RowAfter(run).value.start <= run[|run| - 1].time
    decreases |run|
  {
    var init := run[..|run| - 1];
    if RowAfter(init).Some? { RowFacts(init); }
  }

  /** How the failures counted so far are covered by the windows that took them. */
  ghost predicate Covered(run: seq<Attempt>, low: real) {
    var n, row := FailuresIn(run, low, low + SPAN), RowAfter(run);
    && n <= 9
    && (run == [] || run[|run| - 1].time < low ==> n == 0)
    && (run != [] && low <= run[|run| - 1].time < low + SPAN ==>
          match row
          case None => n == 0
          case Some(w) => if w.start >= low then n <= 4 + w.failures else n <= w.failures - 1)
  }

  lemma {:induction false} StaysCovered(run: seq<Attempt>, low: real)
    requires InTimeOrder(run) && NoLoginIn(run, low, low + SPAN)
    ensures Covered(run, low)
    decreases |run|
  {
    if run != [] {
      var init, last := run[..|run| - 1], run[|run| - 1];
      Shorter(run, low, low + SPAN);
      StaysCovered(init, low);
      if RowAfter(init).Some? { RowFacts(init); }
      if init != [] { assert init[|init| - 1].time <= last.time; }
      assert Answer(run, |init|) == OutcomeOf(RowAfter(init), last);
    }
  }

  /** In any 300 seconds without a successful login at most nine attempts on an account are
      evaluated and fail: one window starts before or at their beginning, and its first failure
      comes before any failure that can share the interval with the next window. */
  lemma AtMostNineFailures(run: seq<Attempt>, low: real)
    requires InTimeOrder(run) && NoLoginIn(run, low, low + SPAN)
    ensures FailuresIn(run, low, low + SPAN) <= 9
  {
    StaysCovered(run, low);
  }

  lemma {:induction false} OpenWindowHolds(run: seq<Attempt>)
    requires InTimeOrder(run) && RowAfter(run).Some?
    ensures var w := RowAfter(run).value;
            FailuresIn(run, w.start, run[|run| - 1].time + 1.0) >= w.failures
    decreases |run|
  {
    var init, last := run[..|run| - 1], run[|run| - 1];
    if RowAfter(init).Some? {
      RowFacts(init);
      OpenWindowHolds(init);
      WiderCountsMore(init, RowAfter(init).value.start, init[|init| - 1].time + 1.0, last.time + 1.0);
    }
  }

  lemma {:induction false} WiderCountsMore(run: seq<Attempt>, low: real, high: real, higher: real)
    requires high <= higher
    ensures FailuresIn(run, low, high) <= FailuresIn(run, low, higher)
    decreases |run|
  {
    if run != [] { WiderCountsMore(run[..|run| - 1], low, high, higher); }
  }

  /** An attempt is refused only while five failures evaluated less than 300 seconds ago stand
      against the account; an expired window never refuses anyone. */
  lemma RefusalNeedsFiveRecentFailures(run: seq<Attempt>, a: Attempt) returns (low: real)
    requires InTimeOrder(run + [a]) && OutcomeOf(RowAfter(run), a) == Refused
    ensures a.time - SPAN < low <= a.time && FailuresIn(run, low, a.time + 1.0) >= MAX_FAILURES
  {
    assert InTimeOrder(run) by {
      forall i, j | 0 <= i < j < |run| ensures run[i].time <= run[j].time {
        assert (run + [a])[i] == run[i] && (run + [a])[j] == run[j];
      }
    }
    var w := RowAfter(run).value;
    RowFacts(run);
    OpenWindowHolds(run);
    assert (run + [a])[|run| - 1] == run[|run| - 1] && (run + [a])[|run|] == a;
    WiderCountsMore(run, w.start, run[|run| - 1].time + 1.0, a.time + 1.0);
    low := w.start;
  }

  lemma OneMore(run: seq<Attempt>, a: Attempt, low: real, high: real)
    ensures RowAfter(run + [a]) == NextRow(RowAfter(run), a)
    ensures FailuresIn(run + [a], low, high) ==
              FailuresIn(run, low, high)
              + if OutcomeOf(RowAfter(run), a) == Failed && low <= a.time < high then 1 else 0
  {
    assert (run + [a])[..|run|] == run;
  }

  function Wrong(time: real, n: nat): seq<Attempt> {
    seq(n, _ => Attempt(time, false))
  }

  lemma OneWrong(run: seq<Attempt>, time: real, low: real)
    requires low <= time < low + SPAN && RowAfter(run).Some?
    requires time - RowAfter(run).value.start < SPAN && RowAfter(run).value.failures < MAX_FAILURES
    ensures RowAfter(run + [Attempt(time, false)])
            == Some(Window(RowAfter(run).value.start, RowAfter(run).value.failures + 1))
    ensures FailuresIn(run + [Attempt(time, false)], low, low + SPAN) == FailuresIn(run, low, low + SPAN) + 1
  {
    OneMore(run, Attempt(time, false), low, low + SPAN);
  }

  lemma {:induction false} WrongCounts(run: seq<Attempt>, time: real, n: nat, low: real)
    requires low <= time < low + SPAN && RowAfter(run).Some?
    requires time - RowAfter(run).value.start < SPAN && RowAfter(run).value.failures + n <= MAX_FAILURES
    ensures RowAfter(run + Wrong(time, n)) == Some(Window(RowAfter(run).value.start, RowAfter(run).value.failures + n))
    ensures FailuresIn(run + Wrong(time, n), low, low + SPAN) == FailuresIn(run, low, low + SPAN) + n
    decreases n
  {
    if n == 0 {
      assert run + Wrong(time, 0) == run;
    } else {
      var before := run + Wrong(time, n - 1);
      WrongCounts(run, time, n - 1, low);
      assert run + Wrong(time, n) == before + [Attempt(time, false)];
      OneWrong(before, time, low);
    }
  }

  /** Nine is reached: one failure opens a window, four more close it a second before it expires,
      and five follow in the window after it. */
  lemma NineIsReached(t: real) returns (run: seq<Attempt>)
    ensures InTimeOrder(run) && (forall a :: a in run ==> !a.valid)
    ensures FailuresIn(run, t + 299.0, t + 299.0 + SPAN) == 9
  {
    var low := t + 299.0;
    var first := [Attempt(t, false)];
    OneMore([], Attempt(t, false), low, low + SPAN);
    assert [] + first == first;
    var a := first + Wrong(low, 4);
    WrongCounts(first, low, 4, low);
    var b := a + [Attempt(t + 300.0, false)];
    OneMore(a, Attempt(t + 300.0, false), low, low + SPAN);
    WrongCounts(b, t + 300.0, 4, low);
    run := b + Wrong(t + 300.0, 4);
  }
}
