/**
The worker's event loop, as far as its destinations go: when a lost output is tried again, when
it is given up, and that the destinations never meddle with each other.

Delays are arbitrary: a retry that was scheduled comes back as a `Due` event at any later point
of the sequence, or never.
*/
module Reconnects {
  import opened Options

  datatype Destination = Destination(attempt: nat, generation: nat, streamingSince: Option<int>, waiting: bool,
      terminal: bool)

  const FRESH := Destination(0, 0, None, false, false)

  datatype Event =
    | Due(id: string, generation: nat, reconnected: bool)
    | Streaming(id: string, generation: nat, now: int)
    | Stopped(id: string, generation: nat)
    | Lost(id: string, generation: nat, permanent: bool, now: int)

  datatype Reason = Refused | Exhausted

  datatype Report =
    | Connecting(id: string, generation: nat, attempt: nat)
    | NotReconnected(id: string, generation: nat, attempt: nat)
    | Live(id: string, generation: nat, attempt: nat)
    | Ended(id: string, generation: nat)
    | Failed(id: string, generation: nat, attempt: nat, reason: Reason)
    | Scheduled(id: string, generation: nat, attempt: nat)

  /** `maxAttempts` is 0 where attempts are not bounded. */
  datatype Settings = Settings(maxAttempts: nat, stableInterval: int)

  function OrFresh(d: Option<Destination>): Destination {
    if d.Some? then d.value else FRESH
  }

  /** Long enough live that earlier attempts no longer count. */
  predicate Stable(d: Destination, now: int, s: Settings) {
    d.streamingSince.Some? && now - d.streamingSince.value >= s.stableInterval
  }

  predicate Ignored(d: Destination, e: Event) {
    e.generation < d.generation || d.waiting || d.terminal
  }

  /** What one event makes of the destination it is about, and what is reported of it. */
  function Handle(d: Option<Destination>, e: Event, s: Settings): (Option<Destination>, seq<Report>) {
    match e
    case Due(id, generation, reconnected) =>
      if d.None? || d.value.generation != generation || d.value.terminal then (d, [])
      else
        (Some(d.value.(waiting := false)),
         [Connecting(id, generation, d.value.attempt)] + if reconnected then []
             else [NotReconnected(id, generation, d.value.attempt)])
    case Streaming(id, generation, now) =>
      var live := OrFresh(d).(generation := generation, streamingSince := Some(now), waiting := false,
          terminal := false);
      (Some(live), [Live(id, generation, live.attempt)])
    case Stopped(id, generation) => (None, [Ended(id, generation)])
    case Lost(id, generation, permanent, now) =>
      var known := OrFresh(d);
      if Ignored(known, e) then (Some(known), [])
      else
        var lost := known.(generation := generation, attempt := if Stable(known, now, s) then 0 else known.attempt);
        if permanent then (Some(lost.(terminal := true)), [Failed(id, generation, lost.attempt, Refused)])
        else if s.maxAttempts > 0 && lost.attempt >= s.maxAttempts
            then (Some(lost.(terminal := true)), [Failed(id, generation, lost.attempt, Exhausted)])
        else (Some(lost.(attempt := lost.attempt + 1, waiting := true)), [Scheduled(id, generation, lost.attempt + 1)])
  }

  /** A worker with this destination alone. */
  function Alone(id: string, start: Option<Destination>, events: seq<Event>, s: Settings): (Option<Destination>,
      seq<Report>) {
    if events == [] then (start, [])
    else
      var (before, reports) := Alone(id, start, events[..|events| - 1], s);
      var e := events[|events| - 1];
      if e.id != id then (before, reports)
      else
        var (after, more) := Handle(before, e, s);
        (after, reports + more)
  }

  /** The reports about one destination, in order. */
  function About(id: string, reports: seq<Report>): seq<Report> {
    if reports == [] then []
    else if reports[|reports| - 1].id == id then About(id, reports[..|reports| - 1]) + [reports[|reports| - 1]]
    else About(id, reports[..|reports| - 1])
  }

  lemma {:induction false} AboutBoth(id: string, a: seq<Report>, b: seq<Report>)
    ensures About(id, a + b) == About(id, a) + About(id, b)
  {
    if b == [] {
      assert a + b == a;
    } else {
      AboutBoth(id, a, b[..|b| - 1]);
      assert (a + b)[..|a + b| - 1] == a + b[..|b| - 1] && (a + b)[|a + b| - 1] == b[|b| - 1];
    }
  }

  lemma HandledAbout(d: Option<Destination>, e: Event, s: Settings, id: string)
    ensures About(id, Handle(d, e, s).1) == if e.id == id then Handle(d, e, s).1 else []
  {
    var reports := Handle(d, e, s).1;
    hide About;
    AboutNone(id);
    assert |reports| <= 2 && forall i | 0 <= i < |reports| :: reports[i].id == e.id;
    if |reports| == 0 {
      assert reports == [];
    } else if |reports| == 1 {
      assert reports == [reports[0]];
      AboutOne(id, reports[0]);
    } else {
      assert reports == [reports[0]] + [reports[1]];
      AboutBoth(id, [reports[0]], [reports[1]]);
      AboutOne(id, reports[0]);
      AboutOne(id, reports[1]);
    }
  }

  lemma AboutNone(id: string)
    ensures About(id, []) == []
  {
  }

  lemma AboutOne(id: string, r: Report)
    ensures About(id, [r]) == if r.id == id then [r] else []
  {
    assert [r][..0] == [];
  }

  class Service {
    var states: map<string, Destination>

    function StateOf(id: string): Option<Destination>
      reads this
    {
      if id in states then Some(states[id]) else None
    }

    constructor (ids: set<string>)
      ensures forall id :: StateOf(id) == if id in ids then Some(FRESH) else None
    {
      states := map id | id in ids :: FRESH;
    }

    /** One turn of the loop, on the table of all destinations. */
    method Turn(e: Event, s: Settings) returns (reports: seq<Report>)
      modifies this
      ensures reports == Handle(old(StateOf(e.id)), e, s).1 && StateOf(e.id) == Handle(old(StateOf(e.id)), e, s).0
      ensures forall id | id != e.id :: StateOf(id) == old(StateOf(id))
    {
      reports := [];
      match e {
        case Due(id, generation, reconnected) =>
          if id !in states || states[id].generation != generation || states[id].terminal { return; }
          states := states[id := states[id].(waiting := false)];
          reports := [Connecting(id, generation, states[id].attempt)];
          if !reconnected { reports := reports + [NotReconnected(id, generation, states[id].attempt)]; }
        case Streaming(id, generation, now) =>
          Ensure(id);
          states := states[id := states[id].(generation := generation, streamingSince := Some(now), waiting := false,
              terminal := false)];
          reports := [Live(id, generation, states[id].attempt)];
        case Stopped(id, generation) =>
          reports := [Ended(id, generation)];
          states := states - {id};
        case Lost(id, generation, permanent, now) =>
          Ensure(id);
          var d := states[id];
          if generation < d.generation || d.waiting || d.terminal { return; }
          d := d.(generation := generation, attempt := if Stable(d, now, s) then 0 else d.attempt);
          if permanent || (s.maxAttempts > 0 && d.attempt >= s.maxAttempts) {
            states := states[id := d.(terminal := true)];
            reports := [Failed(id, generation, d.attempt, if permanent then Refused else Exhausted)];
          } else {
            d := d.(attempt := d.attempt + 1, waiting := true);
            states := states[id := d];
            reports := [Scheduled(id, generation, d.attempt)];
          }
      }
    }

    method Ensure(id: string)
      modifies this
      ensures states == old(states)[id := OrFresh(old(StateOf(id)))]
    {
      if id !in states { states := states[id := FRESH]; }
    }

    /** Whatever happens to the other destinations, each one fares as it would in a worker of its own. */
    method Run(events: seq<Event>, s: Settings) returns (reports: seq<Report>)
      modifies this
      ensures forall id :: StateOf(id) == Alone(id, old(StateOf(id)), events, s).0
      ensures forall id :: About(id, reports) == Alone(id, old(StateOf(id)), events, s).1
    {
      reports := [];
      for i := 0 to |events|
        invariant forall id :: StateOf(id) == Alone(id, old(StateOf(id)), events[..i], s).0
        invariant forall id :: About(id, reports) == Alone(id, old(StateOf(id)), events[..i], s).1
      {
        var e := events[i];
        ghost var before := StateOf(e.id);
        var more := Turn(e, s);
        assert events[..i + 1][..i] == events[..i];
        forall id ensures About(id, reports + more) == About(id, reports) + (if e.id == id then more else []) {
          AboutBoth(id, reports, more);
          HandledAbout(before, e, s, id);
        }
        reports := reports + more;
      }
      assert events[..|events|] == events;
    }
  }

  // ---------------------------------------------------------------- how often it is tried again

  /** The event makes the count of attempts begin again. */
  predicate Resets(d: Option<Destination>, e: Event, s: Settings) {
    || e.Stopped?
    || (e.Lost? && d.Some? && d.value.streamingSince.Some? && e.now - d.value.streamingSince.value >= s.stableInterval
        && e.generation >= d.value.generation && !d.value.waiting && !d.value.terminal)
  }

  /** None of the events about the destination, from the given state on, resets its count. */
  predicate NoReset(id: string, start: Option<Destination>, events: seq<Event>, s: Settings) {
    events != [] ==>
      && NoReset(id, start, events[..|events| - 1], s)
      && (events[|events| - 1].id == id ==>
          !Resets(Alone(id, start, events[..|events| - 1], s).0, events[|events| - 1], s))
  }

  function Retries(reports: seq<Report>): nat {
    if reports == [] then 0 else Retries(reports[..|reports| - 1]) + if reports[|reports| - 1].Scheduled? then 1 else 0
  }

  lemma {:induction false} RetriesOfBoth(a: seq<Report>, b: seq<Report>)
    ensures Retries(a + b) == Retries(a) + Retries(b)
  {
    if b == [] {
      assert a + b == a;
    } else {
      RetriesOfBoth(a, b[..|b| - 1]);
      assert (a + b)[..|a + b| - 1] == a + b[..|b| - 1] && (a + b)[|a + b| - 1] == b[|b| - 1];
    }
  }

  lemma HandleRetries(d: Option<Destination>, e: Event, s: Settings)
    requires s.maxAttempts > 0 && !Resets(d, e, s)
    ensures var after := Handle(d, e, s);
            && OrFresh(after.0).attempt == OrFresh(d).attempt + Retries(after.1)
            && (OrFresh(d).attempt <= s.maxAttempts ==> OrFresh(after.0).attempt <= s.maxAttempts)
  {
    var reports := Handle(d, e, s).1;
    if |reports| == 1 { assert reports[..0] == []; }
    if |reports| == 2 {
      assert reports[..1][..0] == [] && Retries(reports[..1]) == 0;
    }
  }

  /** Between two resets at most `maxAttempts` reconnections are scheduled, and the count says how many they were. */
  lemma {:induction false} BoundedRetries(id: string, start: Option<Destination>, events: seq<Event>, s: Settings)
    requires s.maxAttempts > 0 && OrFresh(start).attempt <= s.maxAttempts && NoReset(id, start, events, s)
    ensures var after := Alone(id, start, events, s);
            && OrFresh(after.0).attempt == OrFresh(start).attempt + Retries(after.1) <= s.maxAttempts
  {
    hide Handle, Resets;
    if events != [] {
      var shorter, e := events[..|events| - 1], events[|events| - 1];
      BoundedRetries(id, start, shorter, s);
      if e.id == id {
        var before := Alone(id, start, shorter, s);
        HandleRetries(before.0, e, s);
        RetriesOfBoth(before.1, Handle(before.0, e, s).1);
      }
    }
  }

  /** What is on record when an output is lost: the attempts since it was last live for long enough. */
  function AttemptsBefore(d: Option<Destination>, now: int, s: Settings): nat {
    match d
    case None => 0
    case Some(k) => if k.streamingSince.Some? && k.streamingSince.value + s.stableInterval <= now then 0 else k.attempt
  }

  /**
  A lost output is tried again exactly when its loss is news, it was not refused for good and there
  are attempts left; else, if it is news, it is given up and said so.
  */
  lemma LossIsAnswered(d: Option<Destination>, e: Event, s: Settings)
    requires e.Lost?
    ensures var known, attempts := OrFresh(d), AttemptsBefore(d, e.now, s);
            var (after, reports) := Handle(d, e, s);
            var news := e.generation >= known.generation && !known.waiting && !known.terminal;
            && after.Some?
            && (!news ==> reports == [] && after.value == known)
            && (news && !e.permanent && (s.maxAttempts == 0 || attempts < s.maxAttempts) ==>
                  && reports == [Scheduled(e.id, e.generation, attempts + 1)]
                  && after.value.waiting && !after.value.terminal && after.value.generation == e.generation)
            && (news && (e.permanent || (s.maxAttempts > 0 && attempts >= s.maxAttempts)) ==>
                  && reports == [Failed(e.id, e.generation, attempts, if e.permanent then Refused else Exhausted)]
                  && after.value.terminal && !after.value.waiting)
  {
  }

  /** A retry that comes due reconnects, unless the output has a newer generation, was stopped or given up meanwhile. */
  lemma DueReconnects(d: Option<Destination>, e: Event, s: Settings)
    requires e.Due?
    ensures var (after, reports) := Handle(d, e, s);
            if d.Some? && d.value.generation == e.generation && !d.value.terminal
            then reports != [] && reports[0] == Connecting(e.id, e.generation, d.value.attempt)
                 && after == Some(d.value.(waiting := false))
            else reports == [] && after == d
  {
  }

  /**
  Once live again, an output is tried again when it is lost, whatever was reported before; the
  attempts count on unless it was live for long enough.
  */
  lemma LiveThenLost(d: Option<Destination>, live: Event, lost: Event, s: Settings)
    requires live.Streaming? && lost.Lost? && live.id == lost.id
    requires live.generation <= lost.generation && !lost.permanent
    ensures var (between, first) := Handle(d, live, s);
            var (after, second) := Handle(between, lost, s);
            var attempts := if live.now + s.stableInterval <= lost.now || d.None? then 0 else d.value.attempt;
            && first == [Live(live.id, live.generation, OrFresh(d).attempt)]
            && second == [if s.maxAttempts == 0 || attempts < s.maxAttempts
                         then Scheduled(lost.id, lost.generation, attempts + 1)
                         else Failed(lost.id, lost.generation, attempts, Exhausted)]
  {
  }

  /** A stopped output is forgotten: what is lost under its name later is a first loss. */
  lemma StoppedThenLost(d: Option<Destination>, stopped: Event, lost: Event, s: Settings)
    requires stopped.Stopped? && lost.Lost? && stopped.id == lost.id && !lost.permanent
    ensures var (between, first) := Handle(d, stopped, s);
            && first == [Ended(stopped.id, stopped.generation)]
            && Handle(between, lost, s).1 == [Scheduled(lost.id, lost.generation, 1)]
  {
  }

  /** Whoever gives up has scheduled as many reconnections as were allowed, since the count last began again. */
  lemma GivesUpWhenSpent(id: string, events: seq<Event>, e: Event, s: Settings)
    requires s.maxAttempts > 0 && NoReset(id, None, events + [e], s) && e.id == id
    requires var before := Alone(id, None, events, s);
             var reports := Handle(before.0, e, s).1; reports != [] && reports[0].Failed? && reports[0].reason == Exhausted
    ensures Retries(Alone(id, None, events, s).1) == s.maxAttempts
  {
    assert (events + [e])[..|events|] == events;
    BoundedRetries(id, None, events, s);
  }
}
