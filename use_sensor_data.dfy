/** The polling hook: four state cells (`data`, `loading`, `error`,
    `lastUpdate`), the `fetchData` transition that the mount effect, the
    fifteen-second interval and `refetch` all run, and the interval's
    teardown. The network call is not modelled: the awaited result of
    `fetchThingSpeakData` arrives as a FetchOutcome, and the clock reading
    `new Date()` travels with it. One fetch runs to completion before the next
    event, so the refetch-versus-timer race is not represented. */
module SensorDataHook {
  import opened SensorTypes

  /** What a `catch` clause receives: an `Error` object with its message,
      or any other thrown value. */
  datatype Thrown = ErrorObject(message: string) | OtherValue

  /** How the awaited fetch ended: the normalised readings together with the
      clock at that moment, or a thrown value. */
  datatype FetchOutcome = Fetched(newData: seq<SensorData>, now: Date) | Threw(err: Thrown)

  /** The message shown for a thrown value that is not an `Error`. */
  const FallbackMessage: string := "Failed to fetch data"

  /** `err instanceof Error ? err.message : 'Failed to fetch data'`. */
  function ErrorMessage(err: Thrown): (msg: string)
    ensures err.ErrorObject? ==> msg == err.message
    ensures err.OtherValue? ==> msg == FallbackMessage && |msg| > 0
  {
    match err
    case ErrorObject(message) => message
    case OtherValue => FallbackMessage
  }

  /** The four state cells the hook returns. */
  datatype PollState = PollState(
    data: seq<SensorData>,
    loading: bool,
    error: Option<string>,
    lastUpdate: Option<Date>
  )

  /** The `useState` initial values: no data, loading, no error, never
      updated; a consistent state. */
  function Initial(): (s: PollState)
    ensures s.data == [] && s.loading && s.error == None && s.lastUpdate == None
    ensures Consistent(s)
  {
    PollState([], true, None, None)
  }

  /** `setLoading(true); setError(null)`: a fetch is under way. */
  function Begin(s: PollState): (t: PollState)
    ensures t.loading && t.error == None
    ensures t.data == s.data && t.lastUpdate == s.lastUpdate
  {
    s.(loading := true, error := None)
  }

  /** The rest of `fetchData` once the await resolves: on success the data is
      replaced and the time recorded, on failure the message is stored, and in
      both cases `finally` clears `loading`. */
  function Settle(s: PollState, outcome: FetchOutcome): (t: PollState)
    ensures !t.loading
    ensures outcome.Fetched? ==>
      t.data == outcome.newData && t.lastUpdate == Some(outcome.now) && t.error == s.error
    ensures outcome.Threw? ==>
      t.data == s.data && t.lastUpdate == s.lastUpdate && t.error == Some(ErrorMessage(outcome.err))
  {
    match outcome
    case Fetched(newData, now) => s.(data := newData, lastUpdate := Some(now), loading := false)
    case Threw(err) => s.(error := Some(ErrorMessage(err)), loading := false)
  }

  /** One complete run of `fetchData`. */
  function Fetch(s: PollState, outcome: FetchOutcome): (t: PollState)
    ensures !t.loading
    ensures outcome.Fetched? ==>
      t.data == outcome.newData && t.lastUpdate == Some(outcome.now) && t.error == None
    ensures outcome.Threw? ==>
      t.data == s.data && t.lastUpdate == s.lastUpdate && t.error == Some(ErrorMessage(outcome.err))
  {
    Settle(Begin(s), outcome)
  }

  /** What every reachable state satisfies: no update time means nothing was
      ever loaded, and an error is only on display once loading has ended. */
  predicate Consistent(s: PollState) {
    && (s.lastUpdate.None? ==> s.data == [])
    && (s.error.Some? ==> !s.loading)
  }

  /** The hook's state together with whether its interval is still armed. */
  datatype Hook = Hook(poll: PollState, intervalActive: bool)

  /** What can happen to a mounted hook. */
  datatype Event = TimerTick(outcome: FetchOutcome) | Refetch(outcome: FetchOutcome) | Teardown

  /** One event: a tick fetches only while the interval is armed, `refetch`
      always fetches, and teardown clears the interval. */
  function Step(h: Hook, e: Event): (g: Hook)
    ensures e.Teardown? ==> g == Hook(h.poll, false)
    ensures e.Refetch? ==> g == Hook(Fetch(h.poll, e.outcome), h.intervalActive)
    ensures e.TimerTick? && !h.intervalActive ==> g == h
    ensures e.TimerTick? && h.intervalActive ==> g == Hook(Fetch(h.poll, e.outcome), true)
  {
    match e
    case TimerTick(outcome) =>
      if h.intervalActive then Hook(Fetch(h.poll, outcome), true) else h
    case Refetch(outcome) => Hook(Fetch(h.poll, outcome), h.intervalActive)
    case Teardown => Hook(h.poll, false)
  }

  /** A sequence of events, oldest first. */
  function Run(h: Hook, events: seq<Event>): Hook {
    if events == [] then h else Step(Run(h, events[..|events| - 1]), events[|events| - 1])
  }

  /** The mount effect: the first fetch, then the interval is armed. */
  function Mounted(outcome: FetchOutcome): (h: Hook)
    ensures h.intervalActive
    ensures h.poll == Fetch(Initial(), outcome)
  {
    Hook(Fetch(Initial(), outcome), true)
  }

  /** Whether an event runs `fetchData`. */
  predicate Fetches(h: Hook, e: Event) {
    e.Refetch? || (e.TimerTick? && h.intervalActive)
  }

  /** The data after a run: that of the last successful fetch, or what was
      there before if none succeeded. */
  function LastLoaded(before: seq<SensorData>, outcomes: seq<FetchOutcome>): seq<SensorData> {
    if outcomes == [] then before
    else if outcomes[|outcomes| - 1].Fetched? then outcomes[|outcomes| - 1].newData
    else LastLoaded(before, outcomes[..|outcomes| - 1])
  }

  /** The fetch outcomes of a run, in order. */
  function Outcomes(h: Hook, events: seq<Event>): seq<FetchOutcome> {
    if events == [] then []
    else
      var prev := events[..|events| - 1];
      var e := events[|events| - 1];
      if Fetches(Run(h, prev), e) then Outcomes(h, prev) + [e.outcome] else Outcomes(h, prev)
  }

  /** Every fetch, and every event, keeps the state consistent. */
  lemma FetchConsistent(s: PollState, outcome: FetchOutcome)
    requires Consistent(s)
    ensures Consistent(Begin(s))
    ensures Consistent(Settle(Begin(s), outcome))
    ensures Consistent(Fetch(s, outcome))
  {
  }

  lemma {:induction false} RunConsistent(h: Hook, events: seq<Event>)
    requires Consistent(h.poll)
    ensures Consistent(Run(h, events).poll)
  {
    if events != [] {
      var prev := events[..|events| - 1];
      RunConsistent(h, prev);
      var e := events[|events| - 1];
      match e
      case TimerTick(o) => FetchConsistent(Run(h, prev).poll, o);
      case Refetch(o) => FetchConsistent(Run(h, prev).poll, o);
      case Teardown =>
    }
  }

  /** Every state the mounted hook reaches is consistent. */
  lemma ReachableConsistent(outcome: FetchOutcome, events: seq<Event>)
    ensures Consistent(Run(Mounted(outcome), events).poll)
  {
  }

  /** On the timer and on demand the same transition runs. */
  lemma RefetchIsTick(h: Hook, outcome: FetchOutcome)
    requires h.intervalActive
    ensures Step(h, Refetch(outcome)) == Step(h, TimerTick(outcome))
  {
  }

  /** Once the interval is cleared, no sequence of ticks changes anything. */
  lemma {:induction false} NoTicksAfterTeardown(h: Hook, ticks: seq<Event>)
    requires forall i :: 0 <= i < |ticks| ==> ticks[i].TimerTick?
    ensures Run(Step(h, Teardown), ticks) == Step(h, Teardown)
  {
    if ticks != [] {
      NoTicksAfterTeardown(h, ticks[..|ticks| - 1]);
    }
  }

  /** The interval stays cleared after teardown whatever happens later. */
  lemma {:induction false} TeardownIsFinal(h: Hook, events: seq<Event>)
    requires !h.intervalActive
    ensures !Run(h, events).intervalActive
  {
    if events != [] {
      TeardownIsFinal(h, events[..|events| - 1]);
    }
  }

  /** A failed fetch keeps the data shown before it (stale but present). */
  lemma FailureKeepsData(s: PollState, err: Thrown)
    ensures Fetch(s, Threw(err)).data == s.data
    ensures Fetch(s, Threw(err)).lastUpdate == s.lastUpdate
    ensures Fetch(s, Threw(err)).error.Some?
  {
  }

  /** After a run, the data is that of the last successful fetch, and the
      error belongs to the last fetch alone: a success clears it. */
  lemma {:induction false} RunData(h: Hook, events: seq<Event>)
    ensures Run(h, events).poll.data == LastLoaded(h.poll.data, Outcomes(h, events))
    ensures var os := Outcomes(h, events);
      os != [] ==>
        Run(h, events).poll.error ==
          (if os[|os| - 1].Fetched? then None else Some(ErrorMessage(os[|os| - 1].err)))
  {
    if events != [] {
      var prev := events[..|events| - 1];
      var e := events[|events| - 1];
      RunData(h, prev);
      var os := Outcomes(h, prev);
      if Fetches(Run(h, prev), e) {
        assert Outcomes(h, events) == os + [e.outcome];
        assert (os + [e.outcome])[..|os|] == os;
      }
    }
  }

  /** The hook as React holds it: four state cells and the interval handle. */
  class SensorDataHook {
    var data: seq<SensorData>
    var loading: bool
    var error: Option<string>
    var lastUpdate: Option<Date>
    var intervalActive: bool

    function State(): PollState
      reads this
    {
      PollState(data, loading, error, lastUpdate)
    }

    function Snapshot(): Hook
      reads this
    {
      Hook(State(), intervalActive)
    }

    predicate Valid()
      reads this
    {
      Consistent(State())
    }

    /** The `useState` initial values, before the mount effect has run. */
    constructor ()
      ensures Valid() && State() == Initial() && !intervalActive
    {
      data, loading, error, lastUpdate := [], true, None, None;
      intervalActive := false;
    }

    /** `setLoading(true); setError(null)`. */
    method BeginFetch()
      requires Valid()
      modifies this
      ensures Valid() && State() == Begin(old(State()))
      ensures intervalActive == old(intervalActive)
    {
      loading := true;
      error := None;
    }

    /** The awaited fetch resolved: `setData`, `setLastUpdate`, then `finally`. */
    method Succeed(newData: seq<SensorData>, now: Date)
      requires Valid()
      modifies this
      ensures Valid() && State() == Settle(old(State()), Fetched(newData, now))
      ensures intervalActive == old(intervalActive)
    {
      data := newData;
      lastUpdate := Some(now);
      loading := false;
    }

    /** The awaited fetch threw: `setError(...)`, then `finally`. */
    method Fail(err: Thrown)
      requires Valid()
      modifies this
      ensures Valid() && State() == Settle(old(State()), Threw(err))
      ensures intervalActive == old(intervalActive)
    {
      error := Some(ErrorMessage(err));
      loading := false;
    }

    /** `fetchData`: begin, await, then success or failure. */
    method FetchData(outcome: FetchOutcome)
      requires Valid()
      modifies this
      ensures Valid() && State() == Fetch(old(State()), outcome)
      ensures intervalActive == old(intervalActive)
    {
      BeginFetch();
      match outcome
      case Fetched(newData, now) => Succeed(newData, now);
      case Threw(err) => Fail(err);
    }

    /** The mount effect: the initial fetch, then `setInterval`. */
    method Mount(outcome: FetchOutcome)
      requires Valid()
      modifies this
      ensures Valid() && Snapshot() == Hook(Fetch(old(State()), outcome), true)
    {
      FetchData(outcome);
      intervalActive := true;
    }

    /** The interval fires; reports whether a fetch ran. */
    method Tick(outcome: FetchOutcome) returns (fired: bool)
      requires Valid()
      modifies this
      ensures Valid() && Snapshot() == Step(old(Snapshot()), TimerTick(outcome))
      ensures fired == old(intervalActive)
    {
      fired := intervalActive;
      if fired {
        FetchData(outcome);
      }
    }

    /** `refetch`, which is `fetchData` itself. */
    method Refetch(outcome: FetchOutcome)
      requires Valid()
      modifies this
      ensures Valid() && Snapshot() == Step(old(Snapshot()), Event.Refetch(outcome))
    {
      FetchData(outcome);
    }

    /** The effect cleanup: `clearInterval`. */
    method Teardown()
      requires Valid()
      modifies this
      ensures Valid() && Snapshot() == Step(old(Snapshot()), Event.Teardown)
    {
      intervalActive := false;
    }
  }
}
