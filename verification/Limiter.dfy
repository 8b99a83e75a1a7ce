/**
The fixed-window limiter: one row of counts for a key, and a cleanup that may delete it once it
has expired, at any moment between two attempts.

The order of attempts is that of the transactions that count them, so their times do not
decrease. The limiter lets through at most `2 * maximum - 1` attempts in any stretch shorter
than its window, and there are runs in which it does let through as many.
*/
module Limiter {
  import opened Options

  datatype Row = Row(count: nat, expiresAt: nat)

  datatype Event = Attempt(now: nat) | Cleanup(now: nat)

  /** An attempt that was let through: when, when its window began, and as which one of its window. */
  datatype Admission = Admission(time: nat, start: nat, ordinal: nat)

  datatype State = State(row: Option<Row>, admitted: seq<Admission>, clock: nat)

  /** The upsert of `allow`: an expired row begins a new window, any other counts on, up to one past the maximum. */
  function Counted(row: Option<Row>, now: nat, maximum: nat, seconds: nat): Row {
    if row.None? || row.value.expiresAt < now then Row(1, now + seconds)
    else Row(if row.value.count <= maximum then row.value.count + 1 else maximum + 1, row.value.expiresAt)
  }

  function Step(s: State, e: Event, maximum: nat, seconds: nat): State {
    match e
    case Cleanup(now) => State(if s.row.Some? && s.row.value.expiresAt <= now then None else s.row, s.admitted, now)
    case Attempt(now) =>
      var row := Counted(s.row, now, maximum, seconds);
      State(Some(row),
            if row.count <= maximum && seconds <= row.expiresAt
                then s.admitted + [Admission(now, row.expiresAt - seconds, row.count)] else s.admitted,
            now)
  }

  function Run(events: seq<Event>, maximum: nat, seconds: nat): State {
    if events == [] then State(None, [], 0)
    else Step(Run(events[..|events| - 1], maximum, seconds), events[|events| - 1], maximum, seconds)
  }

  /** Times do not decrease. */
  predicate InOrder(events: seq<Event>) {
    forall i, j | 0 <= i < j < |events| :: events[i].now <= events[j].now
  }

  // ---------------------------------------------------------------- the invariant

  /** The next one of the same window, or the first one of a window that begins when the other has run out. */
  predicate Follows(a: Admission, b: Admission, seconds: nat) {
    || (b.start == a.start && b.ordinal == a.ordinal + 1)
    || (b.ordinal == 1 && a.start + seconds <= b.start)
  }

  predicate AdmissionFits(a: Admission, maximum: nat, clock: nat) {
    1 <= a.ordinal <= maximum && a.start <= a.time <= clock && (a.ordinal == 1 ==> a.time == a.start)
  }

  predicate Fits(s: State, maximum: nat, seconds: nat) {
    && (forall a | a in s.admitted :: AdmissionFits(a, maximum, s.clock))
    && (|s.admitted| > 0 ==> s.admitted[0].ordinal == 1)
    && (forall i | 0 < i < |s.admitted| ::
        Follows(s.admitted[i - 1], s.admitted[i], seconds) && s.admitted[i - 1].time <= s.admitted[i].time)
    && (s.row.Some? ==>
          && |s.admitted| > 0 && s.row.value.expiresAt == s.admitted[|s.admitted| - 1].start + seconds
          && s.admitted[|s.admitted| - 1].ordinal == if s.row.value.count <= maximum then s.row.value.count
              else maximum)
    && (s.row.None? && |s.admitted| > 0 ==> s.admitted[|s.admitted| - 1].start + seconds <= s.clock)
  }

  lemma OneMoreFits(s: State, a: Admission, row: Row, maximum: nat, seconds: nat)
    requires Fits(s, maximum, seconds) && AdmissionFits(a, maximum, a.time) && s.clock <= a.time
    requires if |s.admitted| > 0 then Follows(s.admitted[|s.admitted| - 1], a, seconds) else a.ordinal == 1
    requires row == Row(a.ordinal, a.start + seconds)
    ensures Fits(State(Some(row), s.admitted + [a], a.time), maximum, seconds)
  {
    var after := s.admitted + [a];
    forall b | b in after ensures AdmissionFits(b, maximum, a.time) {
      if b in s.admitted { assert AdmissionFits(b, maximum, s.clock); }
    }
    if |s.admitted| > 0 { assert s.admitted[|s.admitted| - 1] in s.admitted; }
  }

  lemma StepFits(s: State, e: Event, maximum: nat, seconds: nat)
    requires maximum > 0 && Fits(s, maximum, seconds) && s.clock <= e.now
    ensures Fits(Step(s, e, maximum, seconds), maximum, seconds)
  {
    var after := Step(s, e, maximum, seconds);
    if |s.admitted| > 0 { assert s.admitted[|s.admitted| - 1] in s.admitted; }
    if after.admitted != s.admitted {
      OneMoreFits(s, after.admitted[|s.admitted|], after.row.value, maximum, seconds);
    } else {
      forall a | a in s.admitted ensures AdmissionFits(a, maximum, e.now) { assert AdmissionFits(a, maximum, s.clock); }
    }
  }

  lemma {:induction false} RunFits(events: seq<Event>, maximum: nat, seconds: nat)
    requires maximum > 0 && InOrder(events)
    ensures Fits(Run(events, maximum, seconds), maximum, seconds)
    ensures Run(events, maximum, seconds).clock == if events == [] then 0 else events[|events| - 1].now
  {
    hide Fits, Step;
    if events != [] {
      var before := events[..|events| - 1];
      RunFits(before, maximum, seconds);
      ClockOf(Run(before, maximum, seconds), events[|events| - 1], maximum, seconds);
      StepFits(Run(before, maximum, seconds), events[|events| - 1], maximum, seconds);
    } else {
      NothingFits(maximum, seconds);
    }
  }

  lemma ClockOf(s: State, e: Event, maximum: nat, seconds: nat)
    ensures Step(s, e, maximum, seconds).clock == e.now
  {
  }

  lemma NothingFits(maximum: nat, seconds: nat)
    ensures Fits(State(None, [], 0), maximum, seconds)
  {
  }

  // ---------------------------------------------------------------- the bound

  /** After an admission, another window begins before its own could hold any more. */
  lemma {:induction false} NextWindow(s: State, maximum: nat, seconds: nat, i: nat) returns (k: nat)
    requires Fits(s, maximum, seconds) && i < |s.admitted| && i + maximum - s.admitted[i].ordinal + 1 < |s.admitted|
    ensures i < k <= i + maximum - s.admitted[i].ordinal + 1 && k < |s.admitted|
    ensures s.admitted[k].ordinal == 1 && s.admitted[k].time == s.admitted[k].start >= s.admitted[i].start + seconds
    decreases |s.admitted| - i
  {
    OrdinalAt(s, maximum, seconds, i);
    OrdinalAt(s, maximum, seconds, i + 1);
    assert Follows(s.admitted[i], s.admitted[i + 1], seconds);
    k := i + 1;
    if s.admitted[k].ordinal != 1 { k := NextWindow(s, maximum, seconds, k); }
  }

  lemma {:induction false} TimesGrow(s: State, maximum: nat, seconds: nat, i: nat, j: nat)
    requires Fits(s, maximum, seconds) && i <= j < |s.admitted|
    ensures s.admitted[i].time <= s.admitted[j].time
  {
    if i < j { TimesGrow(s, maximum, seconds, i, j - 1); }
  }

  /** Of any `2 * maximum` admissions in a row, the last one comes at least a window after the first one. */
  lemma AtMostTwiceLessOne(events: seq<Event>, maximum: nat, seconds: nat, i: nat, j: nat)
    requires maximum > 0 && InOrder(events)
    requires i + 2 * maximum - 1 <= j < |Run(events, maximum, seconds).admitted|
    ensures var admitted := Run(events, maximum, seconds).admitted; admitted[i].time + seconds <= admitted[j].time
  {
    hide Run, InOrder, AdmissionFits, Follows;
    RunFits(events, maximum, seconds);
    var s := Run(events, maximum, seconds);
    OrdinalAt(s, maximum, seconds, i);
    var k := NextWindow(s, maximum, seconds, i);
    TimesGrow(s, maximum, seconds, k, j);
    if s.admitted[i].ordinal > 1 {
      var l := NextWindow(s, maximum, seconds, k);
      TimesGrow(s, maximum, seconds, i, k);
      TimesGrow(s, maximum, seconds, l, j);
    }
  }

  lemma OrdinalAt(s: State, maximum: nat, seconds: nat, i: nat)
    requires Fits(s, maximum, seconds) && i < |s.admitted|
    ensures AdmissionFits(s.admitted[i], maximum, s.clock)
    ensures 1 <= s.admitted[i].ordinal <= maximum
              && (s.admitted[i].ordinal == 1 ==> s.admitted[i].time == s.admitted[i].start)
  {
    assert s.admitted[i] in s.admitted;
  }

  /** The admissions of one window come in a row, from its first one on. */
  lemma {:induction false} SameWindow(s: State, maximum: nat, seconds: nat, i: nat, k: nat)
    requires Fits(s, maximum, seconds) && i < |s.admitted| && k < s.admitted[i].ordinal
    ensures k <= i && s.admitted[i - k].start == s.admitted[i].start
    ensures s.admitted[i - k].ordinal == s.admitted[i].ordinal - k
  {
    if k > 0 {
      SameWindow(s, maximum, seconds, i, k - 1);
      if i >= k { assert Follows(s.admitted[i - k], s.admitted[i - k + 1], seconds); }
    }
  }

  /** An attempt is refused only if the maximum was let through within the length of a window before it. */
  lemma RefusedOnlyWhenSpent(events: seq<Event>, now: nat, maximum: nat, seconds: nat)
    requires maximum > 0 && InOrder(events + [Attempt(now)])
    requires Run(events + [Attempt(now)], maximum, seconds).admitted == Run(events, maximum, seconds).admitted
    ensures var admitted := Run(events, maximum, seconds).admitted;
            && maximum <= |admitted|
            && forall i | |admitted| - maximum <= i < |admitted| :: now <= admitted[i].time + seconds
  {
    hide Run;
    assert forall i | 0 <= i < |events| :: (events + [Attempt(now)])[i] == events[i];
    RunFits(events, maximum, seconds);
    OneMoreEvent(events, Attempt(now), maximum, seconds);
    var s := Run(events, maximum, seconds);
    assert s.row.Some? && now <= s.row.value.expiresAt && s.row.value.count >= maximum;
    var last := |s.admitted| - 1;
    SameWindow(s, maximum, seconds, last, maximum - 1);
    forall i | last < i + maximum && i <= last ensures now <= s.admitted[i].time + seconds {
      SameWindow(s, maximum, seconds, last, last - i);
      OrdinalAt(s, maximum, seconds, i);
    }
  }

  // ---------------------------------------------------------------- the bound is reached

  lemma OneMoreEvent(events: seq<Event>, e: Event, maximum: nat, seconds: nat)
    ensures Run(events + [e], maximum, seconds) == Step(Run(events, maximum, seconds), e, maximum, seconds)
  {
    assert (events + [e])[..|events|] == events;
  }

  function Attempts(n: nat, now: nat): seq<Event> {
    seq(n, _ => Attempt(now))
  }

  /** Attempts at the same moment, in a window that can still hold them. */
  lemma {:induction false} SameMoment(events: seq<Event>, n: nat, now: nat, maximum: nat, seconds: nat)
    requires var s := Run(events, maximum, seconds);
             s.row.Some? && now <= s.row.value.expiresAt && seconds <= s.row.value.expiresAt
                 && s.row.value.count + n <= maximum
    ensures var s, after := Run(events, maximum, seconds), Run(events + Attempts(n, now), maximum, seconds);
            && after.row == Some(Row(s.row.value.count + n, s.row.value.expiresAt))
            && |after.admitted| == |s.admitted| + n && s.admitted <= after.admitted
            && (forall i | |s.admitted| <= i < |after.admitted| :: after.admitted[i].time == now)
  {
    hide Run;
    if n == 0 {
      assert events + Attempts(0, now) == events;
    } else {
      SameMoment(events, n - 1, now, maximum, seconds);
      assert events + Attempts(n, now) == (events + Attempts(n - 1, now)) + [Attempt(now)];
      OneMoreEvent(events + Attempts(n - 1, now), Attempt(now), maximum, seconds);
    }
  }

  /** The first attempt, more of them at the end of its window, and as many as there may be at the beginning of the next. */
  function Burst(maximum: nat, seconds: nat): seq<Event>
    requires maximum > 0
  {
    [Attempt(0)] + Attempts(maximum - 1, seconds) + [Attempt(seconds + 1)] + Attempts(maximum - 1, seconds + 1)
  }

  lemma BurstInOrder(maximum: nat, seconds: nat)
    requires maximum > 0
    ensures InOrder(Burst(maximum, seconds))
  {
  }

  lemma FirstAttempt(maximum: nat, seconds: nat)
    requires maximum > 0
    ensures Run([Attempt(0)], maximum, seconds) == State(Some(Row(1, seconds)), [Admission(0, 0, 1)], 0)
  {
    hide Run;
    NothingRun(maximum, seconds);
    assert [] + [Attempt(0)] == [Attempt(0)];
    OneMoreEvent([], Attempt(0), maximum, seconds);
  }

  lemma NothingRun(maximum: nat, seconds: nat)
    ensures Run([], maximum, seconds) == State(None, [], 0)
  {
  }

  lemma NextWindowOpens(s: State, maximum: nat, seconds: nat)
    requires maximum > 0 && s.row.Some? && s.row.value.expiresAt == seconds
    ensures var after := Step(s, Attempt(seconds + 1), maximum, seconds);
            after.row == Some(Row(1, seconds + 1 + seconds))
                && after.admitted == s.admitted + [Admission(seconds + 1, seconds + 1, 1)]
  {
  }

  /** Late in one window and early in the next, `2 * maximum - 1` attempts are let through within one second. */
  lemma TwiceLessOneIsReached(maximum: nat, seconds: nat)
    requires maximum > 0
    ensures InOrder(Burst(maximum, seconds))
    ensures var admitted := Run(Burst(maximum, seconds), maximum, seconds).admitted;
            && |admitted| == 2 * maximum
            && forall i | 1 <= i < |admitted| :: seconds <= admitted[i].time <= seconds + 1
  {
    hide Run, InOrder, Attempts, Step;
    BurstInOrder(maximum, seconds);
    FirstAttempt(maximum, seconds);
    var first := [Attempt(0)];
    var late := first + Attempts(maximum - 1, seconds);
    SameMoment(first, maximum - 1, seconds, maximum, seconds);
    OneMoreEvent(late, Attempt(seconds + 1), maximum, seconds);
    NextWindowOpens(Run(late, maximum, seconds), maximum, seconds);
    SameMoment(late + [Attempt(seconds + 1)], maximum - 1, seconds + 1, maximum, seconds);
  }

  // ---------------------------------------------------------------- the row in the database

  datatype Limit = Limit(key: string, maximum: nat, seconds: nat)

  class Attempted {
    var rows: map<string, Row>

    constructor ()
      ensures rows == map[]
    {
      rows := map[];
    }

    function RowOf(key: string): Option<Row>
      reads this
    {
      if key in rows then Some(rows[key]) else None
    }

    /** One attempt counts for its own key only, and is let through while the count is within the maximum. */
    method Allow(key: string, maximum: nat, seconds: nat, now: nat) returns (allowed: bool)
      modifies this
      ensures rows == old(rows)[key := Counted(old(RowOf(key)), now, maximum, seconds)]
      ensures var begins := key !in old(rows) || old(rows)[key].expiresAt < now;
              && (allowed <==> maximum > 0 && (begins || old(rows)[key].count < maximum))
              && rows[key].expiresAt == if begins then now + seconds else old(rows)[key].expiresAt
    {
      if key !in rows || rows[key].expiresAt < now {
        rows := rows[key := Row(1, now + seconds)];
      } else {
        var r := rows[key];
        rows := rows[key := r.(count := if r.count + 1 < maximum + 1 then r.count + 1 else maximum + 1)];
      }
      allowed := rows[key].count <= maximum;
    }

    /** One more attempt would be within this limit. */
    static predicate Within(before: map<string, Row>, limit: Limit, now: nat) {
      && limit.maximum > 0
      && (limit.key in before ==> before[limit.key].expiresAt < now || before[limit.key].count < limit.maximum)
    }

    /**
    The limits are counted in turn. The attempt is admitted exactly when it is within all of them;
    the first one it exceeds is still counted, and those after it are not.
    */
    method Admit(limits: seq<Limit>, now: nat) returns (admitted: bool)
      requires forall i, j | 0 <= i < j < |limits| :: limits[i].key != limits[j].key
      modifies this
      ensures admitted <==> forall i | 0 <= i < |limits| :: Within(old(rows), limits[i], now)
      ensures forall i | 0 <= i < |limits| && (forall j | 0 <= j < i :: Within(old(rows), limits[j], now)) ::
                limits[i].key in rows
                && rows[limits[i].key]
                    == Counted(old(RowOf(limits[i].key)), now, limits[i].maximum, limits[i].seconds)
      ensures forall k | k in rows && (forall i | 0 <= i < |limits| :: limits[i].key != k) ::
                k in old(rows) && rows[k] == old(rows)[k]
    {
      for i := 0 to |limits|
        invariant forall j | 0 <= j < i :: Within(old(rows), limits[j], now)
        invariant forall j | 0 <= j < i :: limits[j].key in rows
                    && rows[limits[j].key] == Counted(old(RowOf(limits[j].key)), now, limits[j].maximum,
                        limits[j].seconds)
        invariant forall j | i <= j < |limits| :: RowOf(limits[j].key) == old(RowOf(limits[j].key))
        invariant forall k | k in rows && (forall j | 0 <= j < |limits| :: limits[j].key != k) ::
                  k in old(rows) && rows[k] == old(rows)[k]
      {
        var allowed := Allow(limits[i].key, limits[i].maximum, limits[i].seconds, now);
        if !allowed { return false; }
      }
      admitted := true;
    }
  }
}
