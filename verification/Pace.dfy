/** Upload pacing: a slot semaphore with a counter beside it, and smoothed CPU load. */
module Pace {
  import opened Model

  // ---------------------------------------------------------------- slots, step by step

  /** Where a goroutine stands between taking a slot and giving it back. */
  datatype Stage = Idle | Taken | Holding | Returned

  datatype Slots = Slots(max: nat, sem: nat, active: int, stages: map<nat, Stage>)

  datatype Event = Send(g: nat) | Increment(g: nat) | Receive(g: nat) | Decrement(g: nat)

  function StageOf(s: Slots, g: nat): Stage {
    if g in s.stages then s.stages[g] else Idle
  }

  function To(s: Slots, g: nat, stage: Stage): Slots {
    s.(stages := s.stages[g := stage])
  }

  /** One channel operation or one atomic add; an event that cannot happen changes nothing. */
  function After(s: Slots, e: Event): Slots {
    match (e, StageOf(s, e.g))
    case (Send(g), Idle) => if s.sem < s.max then To(s.(sem := s.sem + 1), g, Taken) else s
    case (Increment(g), Taken) => To(s.(active := s.active + 1), g, Holding)
    case (Receive(g), Holding) => if s.sem > 0 then To(s.(sem := s.sem - 1), g, Returned) else s
    case (Decrement(g), Returned) => To(s.(active := s.active - 1), g, Idle)
    case _ => s
  }

  function Run(max: nat, events: seq<Event>): Slots {
    if events == [] then Slots(max, 0, 0, map[])
    else After(Run(max, events[..|events| - 1]), events[|events| - 1])
  }

  function In(s: Slots, stage: Stage): set<nat> {
    set g | g in s.stages && s.stages[g] == stage
  }

  /** The channel holds one token per slot taken, and the counter the increments not yet undone. */
  predicate Counted(s: Slots) {
    && s.sem == |In(s, Taken)| + |In(s, Holding)| <= s.max
    && s.active == |In(s, Holding)| + |In(s, Returned)|
  }

  lemma MoveCounts(s: Slots, t: Slots, g: nat, stage: Stage, other: Stage)
    requires t.stages == s.stages[g := stage]
    ensures |In(t, other)| == |In(s, other)|
      + (if stage == other then 1 else 0) - (if g in s.stages && s.stages[g] == other then 1 else 0)
  {
    if stage == other {
      assert In(t, other) == In(s, other) + {g};
    } else {
      assert In(t, other) == In(s, other) - {g};
    }
  }

  lemma EventKeepsCount(s: Slots, e: Event)
    requires Counted(s)
    ensures Counted(After(s, e)) && After(s, e).max == s.max
  {
    var t := After(s, e);
    if t.stages != s.stages {
      MoveCounts(s, t, e.g, t.stages[e.g], Taken);
      MoveCounts(s, t, e.g, t.stages[e.g], Holding);
      MoveCounts(s, t, e.g, t.stages[e.g], Returned);
    }
  }

  /**
   * Under every interleaving at most max goroutines hold a slot, the counter is never negative and
   * differs from the holders by those that have not yet counted up or down, and it is zero once all
   * are idle. A goroutine holding a slot can always give it back.
   */
  lemma {:induction false} EveryRunCounted(max: nat, events: seq<Event>)
    ensures var s := Run(max, events);
      && Counted(s) && s.max == max && s.active >= 0
      && (In(s, Taken) + In(s, Holding) + In(s, Returned) == {} ==> s.active == 0 && s.sem == 0)
      && (forall g :: StageOf(s, g) == Holding ==> s.sem > 0)
    decreases |events|
  {
    if events != [] {
      EveryRunCounted(max, events[..|events| - 1]);
      EventKeepsCount(Run(max, events[..|events| - 1]), events[|events| - 1]);
    }
    var s := Run(max, events);
    assert In(s, Taken) + In(s, Holding) + In(s, Returned) == {} ==> In(s, Taken) == {} && In(s, Holding) == {} && In(s, Returned) == {};
    forall g | StageOf(s, g) == Holding ensures s.sem > 0 { assert g in In(s, Holding); }
  }

  lemma RunAppend(max: nat, events: seq<Event>, e: Event)
    ensures Run(max, events + [e]) == After(Run(max, events), e)
  {
    assert (events + [e])[..|events|] == events;
  }

  /** Goroutines below n have returned their tokens and not counted down. */
  ghost predicate Lagging(s: Slots, n: nat) {
    s.sem == 0 && s.active == n && forall g: nat :: StageOf(s, g) == if g < n then Returned else Idle
  }

  /** One more goroutine takes a slot, gives it back and is slow to count down. */
  lemma LagMore(s: Slots, n: nat)
    requires s.max >= 1 && Lagging(s, n)
    ensures var t := After(After(After(s, Send(n)), Increment(n)), Receive(n)); Lagging(t, n + 1) && t.max == s.max
  {
    assert StageOf(s, n) == Idle;
    var t := After(After(After(s, Send(n)), Increment(n)), Receive(n));
    assert t.stages == s.stages[n := Taken][n := Holding][n := Returned];
    forall h: nat ensures h != n ==> StageOf(t, h) == StageOf(s, h) {}
  }

  lemma RunThree(max: nat, events: seq<Event>, a: Event, b: Event, c: Event)
    ensures Run(max, events + [a] + [b] + [c]) == After(After(After(Run(max, events), a), b), c)
  {
    RunAppend(max, events, a);
    RunAppend(max, events + [a], b);
    RunAppend(max, events + [a] + [b], c);
  }

  /** The counter alone has no bound: goroutines may give back their slots and be slow to count down. */
  lemma {:induction false} CounterUnbounded(max: nat, n: nat) returns (events: seq<Event>)
    requires max >= 1
    ensures Lagging(Run(max, events), n) && Run(max, events).max == max && Run(max, events).active == n
  {
    if n == 0 {
      events := [];
    } else {
      var before := CounterUnbounded(max, n - 1);
      LagMore(Run(max, before), n - 1);
      RunThree(max, before, Send(n - 1), Increment(n - 1), Receive(n - 1));
      events := before + [Send(n - 1)] + [Increment(n - 1)] + [Receive(n - 1)];
    }
  }

  lemma CounterCanPassMax(max: nat)
    requires max >= 1
    ensures exists events :: Run(max, events).active > Run(max, events).max
  {
    var events := CounterUnbounded(max, max + 1);
    assert Run(max, events).active > Run(max, events).max;
  }

  /** A goroutine by itself gets a free slot, holds it counted, and leaves no trace. */
  lemma CycleAlone(s: Slots, g: nat)
    requires StageOf(s, g) == Idle && s.sem < s.max
    ensures var h := After(After(s, Send(g)), Increment(g));
      StageOf(h, g) == Holding && h.sem == s.sem + 1 && h.active == s.active + 1
    ensures var e := After(After(After(After(s, Send(g)), Increment(g)), Receive(g)), Decrement(g));
      StageOf(e, g) == Idle && e.sem == s.sem && e.active == s.active && forall f :: f != g ==> StageOf(e, f) == StageOf(s, f)
  {
  }

  // ---------------------------------------------------------------- advice

  datatype Mode = Fast | Normal | Slow | Pause

  datatype Advice = Advice(mode: Mode, delayMs: nat, accept: bool, retryAfter: nat, batch: nat)

  /** Controller.Snapshot: load and occupancy choose how clients are told to proceed. */
  function AdviceFor(cpu: real, active: nat, max: nat): Advice {
    var occupancy := if max > 0 then active as real / max as real else 0.0;
    if cpu >= 92.0 || (occupancy >= 1.0 && cpu >= 80.0) then Advice(Pause, 3000, false, 5, 1)
    else if cpu >= 85.0 || occupancy >= 0.85 then Advice(Slow, 2000, true, 2, 2)
    else if cpu <= 50.0 && occupancy < 0.5 then Advice(Fast, 60, true, 0, 19)
    else Advice(Normal, 300, true, 0, 10)
  }

  lemma ShareExact(active: nat, max: nat, num: nat, den: nat)
    requires max > 0 && den > 0
    ensures active as real / max as real >= num as real / den as real <==> active * den >= num * max
  {
    var share, bound := active as real / max as real, num as real / den as real;
    assert share * (max as real) == active as real && bound * (den as real) == num as real;
    assert (share - bound) * (max as real) * (den as real) == (active * den - num * max) as real;
    if share >= bound {
      assert (share - bound) * (max as real) * (den as real) >= 0.0;
    } else {
      assert (share - bound) * (max as real) < 0.0;
      assert (share - bound) * (max as real) * (den as real) < 0.0;
    }
  }

  /** The bands of load and of slots in use, counted in whole slots. */
  lemma AdviceBands(cpu: real, active: nat, max: nat)
    requires max > 0
    ensures var a := AdviceFor(cpu, active, max);
      && (a.mode == Pause <==> cpu >= 92.0 || (active >= max && cpu >= 80.0))
      && (a.mode == Slow <==> a.mode != Pause && (cpu >= 85.0 || active * 20 >= 17 * max))
      && (a.mode == Fast <==> cpu <= 50.0 && active * 2 < max)
      && (a.accept <==> a.mode != Pause)
  {
    ShareExact(active, max, 1, 1);
    ShareExact(active, max, 17, 20);
    ShareExact(active, max, 1, 2);
  }

  lemma MoreIsFuller(a: nat, b: nat, max: nat)
    requires a <= b && max > 0
    ensures a as real / max as real <= b as real / max as real
  {
  }

  /** More load or more uploads never speed clients up, enlarge their batches or reopen admission. */
  lemma AdviceMonotone(cpu: real, load: real, active: nat, more: nat, max: nat)
    requires cpu <= load && active <= more
    ensures var a, b := AdviceFor(cpu, active, max), AdviceFor(load, more, max);
      a.delayMs <= b.delayMs && a.batch >= b.batch && a.retryAfter <= b.retryAfter && (b.accept ==> a.accept)
  {
    if max > 0 { MoreIsFuller(active, more, max); }
  }

  // ---------------------------------------------------------------- smoothed load

  const WORD: int := 0x1_0000_0000_0000_0000

  function Distance(x: real, y: real): real {
    if x < y then y - x else x - y
  }

  /** 0.6 to the power n. */
  function Share(n: nat): real {
    if n == 0 then 1.0 else 0.6 * Share(n - 1)
  }

  function Clamped(x: real): real {
    if x < 0.0 then 0.0 else if x > 100.0 then 100.0 else x
  }

  /** Smoothing: the first positive reading is taken as it is, later ones weigh 0.4. */
  function Smoothed(cpu: real, usage: real): real {
    if cpu <= 0.0 then usage else cpu * 0.6 + usage * 0.4
  }

  /** The share of the interval that was not idle, in percent; counters wrap at 64 bits. */
  function Usage(idle: int, total: int, prevIdle: int, prevTotal: int): real
    requires total > prevTotal
  {
    Clamped((1.0 - ((idle - prevIdle) % WORD) as real / (total - prevTotal) as real) * 100.0)
  }

  class Sampler {
    var cpuPercent: real
    var prevIdle: int
    var prevTotal: int
    var haveSample: bool

    ghost predicate Valid()
      reads this
    {
      0.0 <= cpuPercent <= 100.0
    }

    constructor ()
      ensures Valid() && !haveSample && cpuPercent == 0.0
    {
      cpuPercent, prevIdle, prevTotal, haveSample := 0.0, 0, 0, false;
    }

    /** sampleCPU; None stands for a machine without the counters, where goroutines stand in for load. */
    method Sample(reading: Option<(int, int)>, goroutines: nat)
      requires Valid()
      modifies this
      ensures Valid()
      ensures reading.None? ==>
        && cpuPercent == (if goroutines >= 200 then 15.0 else goroutines as real * 0.075)
        && haveSample == old(haveSample) && prevIdle == old(prevIdle) && prevTotal == old(prevTotal)
      ensures reading.Some? ==> haveSample && prevIdle == reading.value.0 && prevTotal == reading.value.1
      ensures reading.Some? && !(old(haveSample) && reading.value.1 > old(prevTotal)) ==> cpuPercent == old(cpuPercent)
      ensures reading.Some? && old(haveSample) && reading.value.1 > old(prevTotal) ==>
        cpuPercent == Smoothed(old(cpuPercent), Usage(reading.value.0, reading.value.1, old(prevIdle), old(prevTotal)))
    {
      if reading.None? {
        var approx := goroutines as real / 2.0;
        if approx > 100.0 { approx := 100.0; }
        cpuPercent := approx * 0.15;
        return;
      }
      var (idle, total) := reading.value;
      if haveSample && total > prevTotal {
        var usage := (1.0 - ((idle - prevIdle) % WORD) as real / (total - prevTotal) as real) * 100.0;
        if usage < 0.0 { usage := 0.0; }
        if usage > 100.0 { usage := 100.0; }
        if cpuPercent <= 0.0 {
          cpuPercent := usage;
        } else {
          cpuPercent := cpuPercent * 0.6 + usage * 0.4;
        }
      }
      prevIdle, prevTotal, haveSample := idle, total, true;
    }
  }

  ghost function SmoothedOver(cpu: real, usages: seq<real>): real {
    if usages == [] then cpu else Smoothed(SmoothedOver(cpu, usages[..|usages| - 1]), usages[|usages| - 1])
  }

  /** Whatever is sampled, the smoothed value stays between the bounds its start and its samples keep to. */
  lemma {:induction false} SmoothedStays(cpu: real, usages: seq<real>, low: real, high: real)
    requires 0.0 <= low <= cpu <= high && forall k :: 0 <= k < |usages| ==> low <= usages[k] <= high
    ensures low <= SmoothedOver(cpu, usages) <= high
    decreases |usages|
  {
    if usages != [] {
      SmoothedStays(cpu, usages[..|usages| - 1], low, high);
      assert low <= usages[|usages| - 1] <= high;
    }
  }

  /** Under steady load the distance to it shrinks by four tenths at every sample. */
  lemma {:induction false} SteadyConverges(cpu: real, usage: real, n: nat)
    requires cpu > 0.0 && usage > 0.0
    ensures var x := SmoothedOver(cpu, seq(n, i => usage));
      x > 0.0 && Distance(x, usage) == Share(n) * Distance(cpu, usage)
    decreases n
  {
    if n > 0 {
      SteadyConverges(cpu, usage, n - 1);
      var all := seq(n, i => usage);
      assert all[..n - 1] == seq(n - 1, i => usage);
      var x := SmoothedOver(cpu, seq(n - 1, i => usage));
      assert Distance(Smoothed(x, usage), usage) == 0.6 * Distance(x, usage);
    }
  }

  /** The busy share of the interval, where the counters behave. */
  lemma UsageExact(idle: int, total: int, prevIdle: int, prevTotal: int)
    requires total > prevTotal && 0 <= idle - prevIdle <= total - prevTotal < WORD
    ensures Usage(idle, total, prevIdle, prevTotal) * ((total - prevTotal) as real)
            == 100.0 * ((total - prevTotal) - (idle - prevIdle)) as real
  {
    var span, rest := (total - prevTotal) as real, (idle - prevIdle) as real;
    assert (idle - prevIdle) % WORD == idle - prevIdle;
    var share := rest / span;
    assert share * span == rest;
    assert 0.0 <= share <= 1.0;
    assert (1.0 - share) * 100.0 * span == 100.0 * (span - rest);
  }
}
