/** A task of the list that doubles as a stopwatch: triggering a stopped task
    starts it, triggering a running task stops it and credits the whole
    seconds of that run to the task's total. */
module Items {
  import opened Millis

  datatype Option<T> = None | Some(value: T)

  /** What a trigger reports: `Started` where the item calls its start hook,
      `Stopped` where it calls its stop hook. `at` is the instant of the
      trigger, `total` the item's duration once the trigger is done. */
  datatype Event = Started(at: int, total: int) | Stopped(at: int, total: int)

  /** The stopwatch part of an item. `startTime` is the instant (epoch
      milliseconds) the current run began, absent when the item is stopped;
      `duration` is the whole seconds credited by the runs already stopped. */
  datatype Timer = Timer(startTime: Option<int>, duration: int) {
    predicate Running() { startTime.Some? }
  }

  /** The timer of a newly made item: stopped, nothing credited. */
  const Idle: Timer := Timer(None, 0)

  /** The effect of one trigger at instant `now`, and what it reports. */
  function Toggle(t: Timer, now: int): (r: (Timer, Event))
    ensures r.0.Running() <==> !t.Running()
    ensures r.1.Started? <==> r.0.Running()
    ensures r.1.at == now && r.1.total == r.0.duration
    ensures r.0.Running() ==> r.0.startTime == Some(now)
    ensures !t.Running() ==> r.0.duration == t.duration
    ensures t.Running() ==> r.0.duration == t.duration + StandardSeconds(now - t.startTime.value)
  {
    match t.startTime
    case Some(start) =>
      var total := t.duration + StandardSeconds(now - start);
      (Timer(None, total), Stopped(now, total))
    case None =>
      (Timer(Some(now), t.duration), Started(now, t.duration))
  }

  /** When the clock has not gone back, the seconds a stop credits are the
      plain quotient of the elapsed milliseconds by 1000. */
  lemma ToggleStops(t: Timer, now: int)
    requires t.Running() && now >= t.startTime.value
    ensures Toggle(t, now).0.duration == t.duration + (now - t.startTime.value) / MillisPerSecond
  {
  }

  /** The code does not clamp a run the clock went back over: a stop lowers
      the total exactly when it comes a full second or more before the
      recorded start, and a step back of less than a second credits nothing. */
  lemma BackwardClockLowersTotal(t: Timer, now: int)
    requires t.Running()
    ensures Toggle(t, now).0.duration < t.duration <==> now <= t.startTime.value - MillisPerSecond
    ensures t.startTime.value - MillisPerSecond < now <= t.startTime.value ==>
            Toggle(t, now).0.duration == t.duration
  {
  }

  /** A start at `t0` followed by a stop at `t1` returns the timer to stopped
      with the run's whole seconds added. */
  lemma StartThenStop(t: Timer, t0: int, t1: int)
    requires !t.Running() && t0 <= t1
    ensures Toggle(Toggle(t, t0).0, t1).0 == Timer(None, t.duration + (t1 - t0) / MillisPerSecond)
  {
  }

  /** Two triggers restore the running state; a running timer credits the run
      the first trigger ends and restarts at the second, a stopped one credits
      the run between the two. */
  lemma ToggleTwice(t: Timer, t1: int, t2: int)
    ensures var u := Toggle(Toggle(t, t1).0, t2).0;
            u.Running() == t.Running() &&
            (t.Running() ==> u == Timer(Some(t2), t.duration + StandardSeconds(t1 - t.startTime.value))) &&
            (!t.Running() ==> u == Timer(None, t.duration + StandardSeconds(t2 - t1)))
  {
  }

  /** Instants in non-decreasing order, as a clock that never goes back reads them. */
  predicate Ordered(times: seq<int>) {
    forall i, j :: 0 <= i < j < |times| ==> times[i] <= times[j]
  }

  /** The timer after a trigger at each of `times`, in order. */
  function Run(t: Timer, times: seq<int>): Timer
    decreases |times|
  {
    if times == [] then t else Run(Toggle(t, times[0]).0, times[1..])
  }

  /** Whole seconds credited by the runs [times[0], times[1]], [times[2],
      times[3]], ... that a stopped timer goes through; a last unpaired
      instant opens a run that credits nothing yet. On an ordered clock the
      credit is never negative and never exceeds the wall time covered. */
  function Accrued(times: seq<int>): (r: int)
    ensures Ordered(times) ==> r >= 0
    ensures Ordered(times) && |times| >= 2 ==> r * MillisPerSecond <= times[|times| - 1] - times[0]
    decreases |times|
  {
    if |times| < 2 then 0
    else StandardSeconds(times[1] - times[0]) + Accrued(times[2..])
  }

  /** Triggering a stopped timer at `times` leaves it stopped after an even
      number of triggers and running since the last instant after an odd
      number, with exactly the credit of the completed runs added. */
  lemma {:induction false} RunFromStopped(t: Timer, times: seq<int>)
    requires !t.Running()
    ensures Run(t, times).duration == t.duration + Accrued(times)
    ensures Run(t, times).startTime ==
            if |times| % 2 == 0 then None else Some(times[|times| - 1])
    decreases |times|
  {
    if |times| >= 2 {
      var u := Toggle(Toggle(t, times[0]).0, times[1]).0;
      assert Run(t, times) == Run(u, times[2..]) by {
        assert times[1..][0] == times[1] && times[1..][1..] == times[2..];
      }
      RunFromStopped(u, times[2..]);
      if |times| % 2 == 1 {
        assert times[2..][|times[2..]| - 1] == times[|times| - 1];
      }
    } else if |times| == 1 {
      assert Run(t, times) == Run(Toggle(t, times[0]).0, []);
    }
  }

  /** On a clock that never goes back, the seconds a stopped item gains over
      any sequence of triggers are never negative and never exceed the wall
      time from the first trigger to the last. */
  lemma RunCreditWithinWallTime(t: Timer, times: seq<int>)
    requires !t.Running() && Ordered(times) && |times| >= 2
    ensures 0 <= (Run(t, times).duration - t.duration) * MillisPerSecond <= times[|times| - 1] - times[0]
  {
    RunFromStopped(t, times);
  }

  /** On a clock that never goes back, and with a running timer's start no
      later than the first trigger, no sequence of triggers lowers the total. */
  lemma {:induction false} RunNeverLowersTotal(t: Timer, times: seq<int>)
    requires Ordered(times)
    requires t.Running() && times != [] ==> t.startTime.value <= times[0]
    ensures Run(t, times).duration >= t.duration
    decreases |times|
  {
    if times != [] {
      var u := Toggle(t, times[0]).0;
      if t.Running() {
        StandardSecondsMonotone(0, times[0] - t.startTime.value);
      }
      assert Ordered(times[1..]);
      RunNeverLowersTotal(u, times[1..]);
    }
  }

  /** A stored task. The fields the code updates in place are those of the
      stopwatch; `id`, `name` and `data` are set by the constructors and the
      store. The start and stop hooks are replaced by the event `Trigger`
      returns. */
  class Item {
    var id: int
    var name: string
    var data: string
    var startTime: Option<int>
    var duration: int

    /** The item's stopwatch state. */
    function Timing(): Timer
      reads this
    {
      Timer(startTime, duration)
    }

    /** An empty item: no id yet, blank name and description, stopped, nothing credited. */
    constructor ()
      ensures id == 0 && name == "" && data == ""
      ensures Timing() == Idle
    {
      id := 0;
      name := "";
      data := "";
      startTime := None;
      duration := 0;
    }

    /** An item with the given name and description, otherwise as the empty one. */
    constructor WithNameAndData(name: string, data: string)
      ensures this.id == 0 && this.name == name && this.data == data
      ensures Timing() == Idle
    {
      this.id := 0;
      this.name := name;
      this.data := data;
      startTime := None;
      duration := 0;
    }

    /** Starts the item if it is stopped, stops it if it is running, at
        instant `now`, and reports which through `e`. Only the stopwatch
        fields change. */
    method Trigger(now: int) returns (e: Event)
      modifies this
      ensures old(startTime).Some? ==>
                startTime == None &&
                duration == old(duration) + StandardSeconds(now - old(startTime).value) &&
                e == Stopped(now, duration)
      ensures old(startTime).None? ==>
                startTime == Some(now) && duration == old(duration) && e == Started(now, duration)
      ensures (Timing(), e) == Toggle(old(Timing()), now)
      ensures id == old(id) && name == old(name) && data == old(data)
    {
      if startTime.Some? {
        var lastMoment := startTime.value;
        var difference := now - lastMoment;
        duration := duration + StandardSeconds(difference);
        startTime := None;
        e := Stopped(now, duration);
      } else {
        startTime := Some(now);
        e := Started(now, duration);
      }
    }
  }

  /** A task made with a name, started at `t0`, stopped 125 seconds later and
      started again at that instant: the stop reports 125 seconds and the
      restart keeps them. */
  method StartStopRestart(t0: int) returns (e1: Event, e2: Event, e3: Event)
    ensures e1 == Started(t0, 0)
    ensures e2 == Stopped(t0 + 125000, 125)
    ensures e3 == Started(t0 + 125000, 125)
  {
    var item := new Item.WithNameAndData("Write report", "");
    e1 := item.Trigger(t0);
    e2 := item.Trigger(t0 + 125000);
    e3 := item.Trigger(t0 + 125000);
    assert item.Timing() == Timer(Some(t0 + 125000), 125);
  }
}
