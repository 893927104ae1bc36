/** The debouncer that groups network events into batches, and why polling it never changes the grouping. */
module Debouncer {
  import opened Sequences
  import opened Wrappers
  import opened Netlink

  /** Times are nanoseconds; `Duration::MAX` is where additions saturate. */
  const MAX_TIME: nat := 0x1_0000_0000_0000_0000 * 1_000_000_000 - 1
  const MAX_COUNT: nat := 0xffff_ffff

  type Time = t: nat | t <= MAX_TIME

  function Plus(a: Time, b: Time): Time {
    if a + b <= MAX_TIME then a + b else MAX_TIME
  }

  function Min(a: nat, b: nat): nat {
    if a <= b then a else b
  }

  datatype Batch = Batch(events: set<Event>, count: nat, first: Time, last: Time)

  datatype Windows = Windows(quiet: Time, max: Time) {
    predicate Valid() {
      0 < quiet <= max
    }
  }

  datatype State = State(pending: Option<Batch>, clock: Option<Time>)

  function Deadline(w: Windows, b: Batch): Time {
    Min(Plus(b.last, w.quiet), Plus(b.first, w.max))
  }

  predicate Due(w: Windows, s: State, now: Time) {
    s.pending.Some? && now >= Deadline(w, s.pending.value)
  }

  predicate Regressed(s: State, now: Time) {
    s.clock.Some? && now < s.clock.value
  }

  function Started(now: Time, event: Event): Batch {
    Batch({event}, 1, now, now)
  }

  function Joined(b: Batch, now: Time, event: Event): Batch {
    Batch(b.events + {event}, Min(b.count + 1, MAX_COUNT), b.first, now)
  }

  /** What a call returns, and the state it leaves. */
  datatype Step = Step(state: State, ready: Option<Batch>)

  function Observed(w: Windows, s: State, now: Time, event: Event): Step
    requires !Regressed(s, now)
  {
    if s.pending.None? then
      Step(State(Some(Started(now, event)), Some(now)), None)
    else if Due(w, s, now) then
      Step(State(Some(Started(now, event)), Some(now)), s.pending)
    else
      Step(State(Some(Joined(s.pending.value, now, event)), Some(now)), None)
  }

  function Polled(w: Windows, s: State, now: Time): Step
    requires !Regressed(s, now)
  {
    if Due(w, s, now) then Step(State(None, Some(now)), s.pending) else Step(s.(clock := Some(now)), None)
  }

  datatype ClockError = ClockRegressed

  class NetlinkDebouncer {
    const windows: Windows
    var pending: Option<Batch>
    var lastClock: Option<Time>

    ghost function Now(): State
      reads this
    {
      State(pending, lastClock)
    }

    constructor (windows: Windows)
      requires windows.Valid()
      ensures this.windows == windows && Now() == State(None, None)
    {
      this.windows := windows;
      pending, lastClock := None, None;
    }

    method ValidateClock(now: Time) returns (r: Result<(), ClockError>)
      modifies this`lastClock
      ensures r.Ok? <==> !Regressed(old(Now()), now)
      ensures lastClock == if r.Ok? then Some(now) else old(lastClock)
    {
      if lastClock.Some? && now < lastClock.value {
        return Err(ClockRegressed);
      }
      lastClock := Some(now);
      r := Ok(());
    }

    method Observe(now: Time, event: Event) returns (r: Result<Option<Batch>, ClockError>)
      modifies this
      ensures r.Err? <==> Regressed(old(Now()), now)
      ensures r.Err? ==> Now() == old(Now())
      ensures r.Ok? ==> Step(Now(), r.value) == Observed(windows, old(Now()), now, event)
    {
      var valid := ValidateClock(now);
      if valid.Err? {
        return Err(valid.error);
      }
      var ready: Option<Batch> := None;
      if pending.Some? && now >= Deadline(windows, pending.value) {
        ready, pending := pending, None;
      }
      match pending {
        case Some(batch) => pending := Some(Joined(batch, now, event));
        case None => pending := Some(Started(now, event));
      }
      r := Ok(ready);
    }

    method TakeReady(now: Time) returns (r: Result<Option<Batch>, ClockError>)
      modifies this
      ensures r.Err? <==> Regressed(old(Now()), now)
      ensures r.Err? ==> Now() == old(Now())
      ensures r.Ok? ==> Step(Now(), r.value) == Polled(windows, old(Now()), now)
    {
      var valid := ValidateClock(now);
      if valid.Err? {
        return Err(valid.error);
      }
      if pending.Some? && now >= Deadline(windows, pending.value) {
        r := Ok(pending);
        pending := None;
      } else {
        r := Ok(None);
      }
    }
  }

  datatype LimitsError = InvalidDebounceLimits

  method NewDebouncer(quiet: Time, max: Time) returns (r: Result<NetlinkDebouncer, LimitsError>)
    ensures r.Ok? <==> Windows(quiet, max).Valid()
    ensures r.Ok? ==>
      fresh(r.value) && r.value.windows == Windows(quiet, max) && r.value.Now() == State(None, None)
  {
    if quiet == 0 || max < quiet {
      return Err(InvalidDebounceLimits);
    }
    var debouncer := new NetlinkDebouncer(Windows(quiet, max));
    r := Ok(debouncer);
  }

  // ---- The grouping, as a function of what was observed alone ----

  datatype Sighting = Sighting(at: Time, event: Event)

  type Segment = s: seq<Sighting> | s != [] witness [Sighting(0, Event(Upsert, Link))]

  function EventsIn(s: seq<Sighting>): set<Event> {
    set i | 0 <= i < |s| :: s[i].event
  }

  function Summary(s: Segment): Batch {
    Batch(EventsIn(s), Min(|s|, MAX_COUNT), s[0].at, s[|s| - 1].at)
  }

  /** An event joins the last group if it comes before that group is due, and starts a new one otherwise. */
  function Segments(w: Windows, seen: seq<Sighting>): seq<Segment> {
    if seen == [] then []
    else
      var next := seen[|seen| - 1];
      var before := Segments(w, seen[..|seen| - 1]);
      if before != [] && next.at < Deadline(w, Summary(before[|before| - 1]))
      then before[..|before| - 1] + [before[|before| - 1] + [next]]
      else before + [[next]]
  }

  function Summaries(segments: seq<Segment>): seq<Batch> {
    seq(|segments|, i requires 0 <= i < |segments| => Summary(segments[i]))
  }

  // ---- Runs ----

  datatype Op = Observe(at: Time, event: Event) | TakeReady(at: Time)

  function Listed(ready: Option<Batch>): seq<Batch> {
    if ready.Some? then [ready.value] else []
  }

  datatype Run = Run(state: State, emitted: seq<Batch>)

  /** A call with an earlier time than a previous one is refused and changes nothing. */
  function After(w: Windows, ops: seq<Op>): Run {
    if ops == [] then Run(State(None, None), [])
    else
      var before := After(w, ops[..|ops| - 1]);
      var op := ops[|ops| - 1];
      if Regressed(before.state, op.at) then before
      else
        var step := match op
          case Observe(at, event) => Observed(w, before.state, at, event)
          case TakeReady(at) => Polled(w, before.state, at);
        Run(step.state, before.emitted + Listed(step.ready))
  }

  /** The events of the calls that were not refused. */
  function Seen(w: Windows, ops: seq<Op>): seq<Sighting> {
    if ops == [] then []
    else
      var before := Seen(w, ops[..|ops| - 1]);
      var op := ops[|ops| - 1];
      if op.Observe? && !Regressed(After(w, ops[..|ops| - 1]).state, op.at)
      then before + [Sighting(op.at, op.event)]
      else before
  }

  lemma JoinedSummary(s: Segment, next: Sighting)
    ensures Summary(s + [next]) == Joined(Summary(s), next.at, next.event)
  {
    var all := s + [next];
    assert EventsIn(all) == EventsIn(s) + {next.event} by {
      assert all[|s|] == next;
      forall e | e in EventsIn(s) + {next.event}
        ensures e in EventsIn(all)
      {
        if e in EventsIn(s) {
          var i :| 0 <= i < |s| && s[i].event == e;
          assert all[i] == s[i];
        }
      }
    }
  }

  lemma StartedSummary(next: Sighting)
    ensures Summary([next]) == Started(next.at, next.event)
  {
    assert [next][0] == next;
    assert EventsIn([next]) == {next.event};
  }

  /**
   * Where a run stands: everything emitted so far, with what is pending, is the grouping of what was seen; if
   * nothing is pending, the last group is already due.
   */
  ghost predicate Tracks(w: Windows, run: Run, seen: seq<Sighting>) {
    var segments := Segments(w, seen);
    && run.emitted + Listed(run.state.pending) == Summaries(segments)
    && (run.state.pending.None? && segments != [] ==>
          && run.state.clock.Some?
          && Deadline(w, Summary(segments[|segments| - 1])) <= run.state.clock.value)
  }

  lemma SegmentsSnoc(w: Windows, seen: seq<Sighting>, next: Sighting)
    ensures var before := Segments(w, seen);
      Segments(w, seen + [next]) ==
        if before != [] && next.at < Deadline(w, Summary(before[|before| - 1]))
        then before[..|before| - 1] + [before[|before| - 1] + [next]]
        else before + [[next]]
  {
    assert (seen + [next])[..|seen|] == seen;
  }

  lemma SummariesSnoc(segments: seq<Segment>, s: Segment)
    ensures Summaries(segments + [s]) == Summaries(segments) + [Summary(s)]
  {
    hide Summary;
    forall i | 0 <= i < |segments|
      ensures Summaries(segments + [s])[i] == Summaries(segments)[i]
    {
      assert (segments + [s])[i] == segments[i];
    }
  }

  lemma SummariesTake(segments: seq<Segment>, n: nat)
    requires n <= |segments|
    ensures Summaries(segments[..n]) == Summaries(segments)[..n]
  {
    hide Summary;
    forall i | 0 <= i < n
      ensures Summaries(segments[..n])[i] == Summaries(segments)[..n][i]
    {
      assert segments[..n][i] == segments[i];
    }
  }

  /** What is pending is the last group, and what was emitted is the groups before it. */
  lemma PendingIsLast(run: Run, segments: seq<Segment>)
    requires run.emitted + Listed(run.state.pending) == Summaries(segments)
    requires run.state.pending.Some?
    ensures segments != []
    ensures run.state.pending.value == Summary(segments[|segments| - 1])
    ensures run.emitted == Summaries(segments[..|segments| - 1])
  {
    hide Summary;
    var batches, last := run.emitted + Listed(run.state.pending), |segments| - 1;
    assert |batches| == |segments| == |run.emitted| + 1;
    assert batches[last] == Summaries(segments)[last];
    assert batches[..last] == run.emitted;
    SummariesTake(segments, last);
  }

  lemma ObserveTracks(w: Windows, run: Run, seen: seq<Sighting>, at: Time, event: Event)
    requires Tracks(w, run, seen) && !Regressed(run.state, at)
    ensures var step := Observed(w, run.state, at, event);
      Tracks(w, Run(step.state, run.emitted + Listed(step.ready)), seen + [Sighting(at, event)])
  {
    var next := Sighting(at, event);
    var segments := Segments(w, seen);
    SegmentsSnoc(w, seen, next);
    StartedSummary(next);
    hide Segments, Deadline, EventsIn, Summaries, Summary;
    SummariesSnoc(segments, [next]);
    if run.state.pending.Some? {
      PendingIsLast(run, segments);
      var last := |segments| - 1;
      JoinedSummary(segments[last], next);
      SummariesSnoc(segments[..last], segments[last] + [next]);
    } else {
      assert run.emitted == Summaries(segments);
    }
  }

  lemma PollTracks(w: Windows, run: Run, seen: seq<Sighting>, at: Time)
    requires Tracks(w, run, seen) && !Regressed(run.state, at)
    ensures var step := Polled(w, run.state, at);
      Tracks(w, Run(step.state, run.emitted + Listed(step.ready)), seen)
  {
    var segments := Segments(w, seen);
    hide Segments, Deadline, EventsIn, Summaries, Summary;
    if run.state.pending.Some? {
      PendingIsLast(run, segments);
    }
  }

  /** However a run interleaves events and polls, the batches are the grouping of its events. */
  lemma {:induction false} RunsGroup(w: Windows, ops: seq<Op>)
    ensures Tracks(w, After(w, ops), Seen(w, ops))
  {
    if ops != [] {
      var n := |ops| - 1;
      RunsGroup(w, ops[..n]);
      var before, seen := After(w, ops[..n]), Seen(w, ops[..n]);
      hide Tracks;
      if !Regressed(before.state, ops[n].at) {
        match ops[n]
        case Observe(at, event) => ObserveTracks(w, before, seen, at, event);
        case TakeReady(at) => PollTracks(w, before, seen, at);
      }
    }
  }

  /** Runs that saw the same events have produced the same batches, whenever and however often each was polled. */
  lemma PollIndependent(w: Windows, a: seq<Op>, b: seq<Op>)
    requires Seen(w, a) == Seen(w, b)
    ensures After(w, a).emitted + Listed(After(w, a).state.pending)
         == After(w, b).emitted + Listed(After(w, b).state.pending)
  {
    RunsGroup(w, a);
    RunsGroup(w, b);
  }

  // ---- What the grouping is like ----

  function Flattened(segments: seq<Segment>): seq<Sighting> {
    if segments == [] then [] else Flattened(segments[..|segments| - 1]) + segments[|segments| - 1]
  }

  lemma FlattenedSnoc(segments: seq<Segment>, s: Segment)
    ensures Flattened(segments + [s]) == Flattened(segments) + s
  {
    assert (segments + [s])[..|segments|] == segments;
  }

  /** Every event is in exactly one group, in order. */
  lemma {:induction false} SegmentsCover(w: Windows, seen: seq<Sighting>)
    ensures Flattened(Segments(w, seen)) == seen
  {
    if seen != [] {
      var n := |seen| - 1;
      SegmentsCover(w, seen[..n]);
      var before, next := Segments(w, seen[..n]), seen[n];
      assert seen == seen[..n] + [next];
      SegmentsSnoc(w, seen[..n], next);
      hide Segments, Deadline, Summary;
      FlattenedSnoc(before, [next]);
      if before != [] {
        var last := |before| - 1;
        FlattenedSnoc(before[..last], before[last] + [next]);
        Regroup(Flattened(before[..last]), before[last], [next]);
      }
    }
  }

  /** Inside a group, each event comes within the quiet period of the one before and within the delay of the first. */
  ghost predicate Tight(w: Windows, s: Segment) {
    forall i, j :: 0 <= i < j < |s| && j == i + 1 ==> s[j].at < s[i].at + w.quiet && s[j].at < s[0].at + w.max
  }

  /** A group ends because the next begins only once it is due. */
  ghost predicate Apart(w: Windows, a: Segment, b: Segment) {
    Deadline(w, Summary(a)) <= b[0].at
  }

  /** In times: it had been quiet for long enough, or the group had waited for long enough, or time has run out. */
  lemma ApartMeans(w: Windows, a: Segment, b: Segment)
    ensures Apart(w, a, b) <==>
      || a[|a| - 1].at + w.quiet <= b[0].at
      || a[0].at + w.max <= b[0].at
      || b[0].at == MAX_TIME
  {
  }

  ghost predicate Maximal(w: Windows, segments: seq<Segment>) {
    && (forall i :: 0 <= i < |segments| ==> Tight(w, segments[i]))
    && (forall i, j :: 0 <= i < j < |segments| && j == i + 1 ==> Apart(w, segments[i], segments[j]))
  }

  lemma MaximalGrows(w: Windows, segments: seq<Segment>, next: Sighting)
    requires Maximal(w, segments) && segments != []
    requires next.at < Deadline(w, Summary(segments[|segments| - 1]))
    ensures var last := |segments| - 1; Maximal(w, segments[..last] + [segments[last] + [next]])
  {
    var last := |segments| - 1;
    var grown := segments[..last] + [segments[last] + [next]];
    TightGrows(w, segments[last], next);
    hide Tight, Deadline, Summary;
    forall i, j | 0 <= i < j < |grown| && j == i + 1
      ensures Apart(w, grown[i], grown[j])
    {
      assert Apart(w, segments[i], segments[j]);
    }
  }

  lemma MaximalStarts(w: Windows, segments: seq<Segment>, next: Sighting)
    requires Maximal(w, segments)
    requires segments != [] ==> next.at >= Deadline(w, Summary(segments[|segments| - 1]))
    ensures Maximal(w, segments + [[next]])
  {
    SingleIsTight(w, next);
    hide Tight, Deadline, Summary;
  }

  /** Groups are as long as the two windows allow, and no longer. */
  lemma {:induction false} GroupsAreMaximal(w: Windows, seen: seq<Sighting>)
    ensures Maximal(w, Segments(w, seen))
  {
    if seen != [] {
      var n := |seen| - 1;
      GroupsAreMaximal(w, seen[..n]);
      var before := Segments(w, seen[..n]);
      if before != [] && seen[n].at < Deadline(w, Summary(before[|before| - 1])) {
        MaximalGrows(w, before, seen[n]);
      } else {
        MaximalStarts(w, before, seen[n]);
      }
    }
  }

  lemma SingleIsTight(w: Windows, next: Sighting)
    ensures Tight(w, [next])
  {
  }

  lemma TightGrows(w: Windows, s: Segment, next: Sighting)
    requires Tight(w, s) && next.at < Deadline(w, Summary(s))
    ensures Tight(w, s + [next])
  {
    var grown := s + [next];
    forall i, j | 0 <= i < j < |grown| && j == i + 1
      ensures grown[j].at < grown[i].at + w.quiet && grown[j].at < grown[0].at + w.max
    {
      if j == |s| {
        assert grown[i] == s[|s| - 1] && grown[j] == next;
      } else {
        assert grown[i] == s[i] && grown[j] == s[j];
      }
    }
  }

  ghost predicate Rising(s: seq<Sighting>) {
    forall i, j :: 0 <= i < j < |s| ==> s[i].at <= s[j].at
  }

  /** The last group ends with the last event. */
  lemma SegmentsEnd(w: Windows, seen: seq<Sighting>)
    requires seen != []
    ensures var segments := Segments(w, seen);
      segments != [] && segments[|segments| - 1][|segments[|segments| - 1]| - 1] == seen[|seen| - 1]
  {
    hide Deadline, Summary;
  }

  lemma {:induction false} SegmentsRise(w: Windows, seen: seq<Sighting>)
    requires Rising(seen)
    ensures forall s :: s in Segments(w, seen) ==> Rising(s)
  {
    if seen != [] {
      var n := |seen| - 1;
      SegmentsRise(w, seen[..n]);
      var before, next := Segments(w, seen[..n]), seen[n];
      assert seen == seen[..n] + [next];
      SegmentsSnoc(w, seen[..n], next);
      assert Rising([next]);
      if before != [] {
        SegmentsEnd(w, seen[..n]);
        hide Segments, Deadline, Summary;
        RisingSnoc(before[|before| - 1], next);
      }
    }
  }

  lemma RisingSnoc(s: seq<Sighting>, next: Sighting)
    requires Rising(s) && (s != [] ==> s[|s| - 1].at <= next.at)
    ensures Rising(s + [next])
  {
  }

  /** What a run saw, it saw in order of time. */
  lemma {:induction false} SeenRises(w: Windows, ops: seq<Op>)
    ensures var seen, clock := Seen(w, ops), After(w, ops).state.clock;
      Rising(seen) && (seen != [] ==> clock.Some? && seen[|seen| - 1].at <= clock.value)
  {
    if ops != [] {
      var n := |ops| - 1;
      SeenRises(w, ops[..n]);
      if ops[n].Observe? && !Regressed(After(w, ops[..n]).state, ops[n].at) {
        RisingSnoc(Seen(w, ops[..n]), Sighting(ops[n].at, ops[n].event));
      }
    }
  }

  /** Short of the end of time, each group of a run begins strictly after the one before it ended. */
  lemma GroupsAreOrdered(w: Windows, ops: seq<Op>, i: nat)
    requires w.Valid() && i + 1 < |Segments(w, Seen(w, ops))|
    ensures var segments := Segments(w, Seen(w, ops));
      var ended := segments[i][|segments[i]| - 1].at;
      ended < segments[i + 1][0].at || ended == MAX_TIME
  {
    var segments := Segments(w, Seen(w, ops));
    SeenRises(w, ops);
    SegmentsRise(w, Seen(w, ops));
    GroupsAreMaximal(w, Seen(w, ops));
    hide Segments, Seen;
    var a := segments[i];
    assert Rising(a) && Tight(w, a) && Apart(w, a, segments[i + 1]);
    assert |a| > 1 ==> a[|a| - 2].at <= a[|a| - 1].at;
  }
}
