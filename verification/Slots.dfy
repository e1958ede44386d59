/** Slot timing: when the scheduler wakes, and why a scheduler that keeps up
    never sees its watchdog fire. */
module Slots {
  import opened Transmit
  import opened TransmitRuns
  import opened TransmitEffects
  import opened TransmitAir
  import opened TransmitLaws

  const SLOT := 15.0
  const TARGET_OFFSET := 0.01

  /** The number of the slot that holds a time, and its start. */
  function SlotOf(now: real): int { (now / SLOT).Floor }

  function Boundary(k: int): real { k as real * SLOT }

  /** `now % 15`: Python's remainder is never negative. */
  function Past(now: real): real { now - Boundary(SlotOf(now)) }

  function SecondsUntilNextPreflight(now: real): (r: real)
    ensures TARGET_OFFSET < r <= SLOT + TARGET_OFFSET
  {
    var target := SLOT - Past(now) + TARGET_OFFSET;
    if target <= 0.0 then target + SLOT else target
  }

  /** The scheduler next wakes just inside the next slot. */
  lemma WakesInNextSlot(now: real)
    ensures now + SecondsUntilNextPreflight(now) == Boundary(SlotOf(now) + 1) + TARGET_OFFSET
    ensures SlotOf(now + SecondsUntilNextPreflight(now)) == SlotOf(now) + 1
  {
  }

  /** The start of the `i`th tick, when each takes as long as `work` says. */
  function TickStart(first: real, work: nat -> real, i: nat): real
    decreases i, first
  {
    if i == 0 then first
    else
      var end := TickStart(first, work, i - 1) + work(i - 1);
      end + SecondsUntilNextPreflight(end)
  }

  /** Ticks whose work ends before the next boundary start exactly a slot
      apart, each just inside its own slot. */
  lemma {:induction false} TicksAreSlotsApart(k: int, work: nat -> real, i: nat)
    requires forall j :: 0 <= j < i ==> 0.0 <= work(j) < SLOT - TARGET_OFFSET
    ensures TickStart(Boundary(k) + TARGET_OFFSET, work, i) == Boundary(k + i) + TARGET_OFFSET
    decreases i
  {
    if i > 0 {
      TicksAreSlotsApart(k, work, i - 1);
      var end := TickStart(Boundary(k) + TARGET_OFFSET, work, i - 1) + work(i - 1);
      assert SlotOf(end) == k + i - 1;
      WakesInNextSlot(end);
    }
  }

  // ---- The watchdog of a scheduler that keeps up ----

  /** `now` is read while the tick of this slot is at work; `base` is the
      number of the slot before the first. */
  predicate Within(now: real, base: int, slot: nat) {
    Boundary(base + slot) + TARGET_OFFSET <= now < Boundary(base + slot + 1)
  }

  /** Every reading of the clock falls in the slot of its own tick. */
  ghost predicate Timely(base: int, s: System, a: Action) {
    match a
    case Watch(now) => Within(now, base, s.p.slot + 1)
    case Advance(_, env) => Within(env.startNow, base, s.p.slot)
    case Restart => false
    case _ => true
  }

  ghost predicate TimelyRun(encode: Encoder, base: int, s: System, run: seq<Action>)
    requires Possible(encode, s, run)
    decreases |run|
  {
    run == [] || (Timely(base, s, run[0]) && TimelyRun(encode, base, Next(encode, s, run[0]), run[1..]))
  }

  /** The slot in which the burst in progress began. */
  function FirstSlot(s: System): int
    requires s.p.bursts != []
  {
    s.p.slot - s.p.bursts[0].next + if SlotBegun(s.phase) then 0 else 1
  }

  /** The deadline is 20 s a frame after the slot in which the burst began. */
  ghost predicate Budgeted(base: int, s: System) {
    s.p.bursts != [] ==>
      s.p.bursts[0].deadline
      >= Boundary(base + FirstSlot(s)) + |s.p.bursts[0].frames| as real * WATCHDOG_PER_FRAME
  }

  lemma BudgetedKept(encode: Encoder, base: int, s: System, a: Action)
    requires Sound(s) && Enabled(s, a) && Budgeted(base, s) && Timely(base, s, a)
    ensures Budgeted(base, Next(encode, s, a))
  {
    if a.Advance? {
      var e := AdvanceEffect(encode, s.p, s.phase.held, a.pick, a.env);
    } else {
      var e := StepEffect(encode, s, a);
    }
  }

  lemma NeverOverdue(base: int, s: System, now: real)
    requires Sound(s) && Budgeted(base, s) && s.phase.Swept? && s.p.bursts != [] && Within(now, base, s.p.slot + 1)
    ensures now <= s.p.bursts[0].deadline
  {
    var b := s.p.bursts[0];
    assert b in s.p.bursts;
    var left := |b.frames| - b.next;
    assert Boundary(base + s.p.slot + 2) == Boundary(base + FirstSlot(s)) + (b.next + 1) as real * SLOT;
  }

  /** The rounds of the watchdog in which it ended a burst. */
  ghost function Fired(encode: Encoder, s: System, run: seq<Action>): nat
    requires Possible(encode, s, run)
    decreases |run|
  {
    if run == [] then 0
    else
      var t := Next(encode, s, run[0]);
      (if run[0].Watch? && t.p.bursts != s.p.bursts then 1 else 0) + Fired(encode, t, run[1..])
  }

  /** While every tick's work stays in its slot the watchdog never fires. */
  lemma {:induction false} WatchdogNeverFires(encode: Encoder, base: int, s: System, run: seq<Action>)
    requires Inv(encode, s) && Possible(encode, s, run) && TimelyRun(encode, base, s, run) && Budgeted(base, s)
    ensures Fired(encode, s, run) == 0
    decreases |run|
  {
    if run != [] {
      var t := Next(encode, s, run[0]);
      if run[0].Watch? {
        if s.p.bursts != [] { NeverOverdue(base, s, run[0].now); }
        var e := WatchEffect(s.p, run[0].now);
      }
      InvKept(encode, s, run[0]);
      BudgetedKept(encode, base, s, run[0]);
      WatchdogNeverFires(encode, base, t, run[1..]);
    }
  }

  // ---- Frames in consecutive slots ----

  /** Where on the air the burst in progress began. */
  function BurstStart(s: System): int
    requires s.p.bursts != []
  {
    |s.p.air| - (2 * s.p.bursts[0].next + 1) - if s.phase.Playing? then 1 else 0
  }

  /** The frames begun in the burst in progress. */
  function FramesBegun(s: System): nat
    requires s.p.bursts != []
  {
    s.p.bursts[0].next + if s.phase.Playing? then 1 else 0
  }

  /** Frame `i` of the burst in progress was begun in slot `first + i`. */
  ghost predicate FrameIn(s: System, first: int, i: nat)
    requires s.p.bursts != []
  {
    var b, at := s.p.bursts[0], BurstStart(s) + 2 * i + 1;
    0 <= at < |s.p.air| && s.p.air[at].Frame? && s.p.air[at].id == b.id && s.p.air[at].index == i
    && s.p.air[at].slot == first + i && i < |b.frames| && s.p.air[at].audio == b.frames[i]
  }

  lemma FrameOfAired(b: Burst, first: nat, air: Air, extra: Air, i: nat)
    requires b.next < |b.frames| && i < b.next
    requires EndsWith(air, Aired(b.id, b.frames, first, b.next) + extra)
    ensures |extra| + 2 * b.next + 1 <= |air|
    ensures air[|air| - |extra| - (2 * b.next + 1) + 2 * i + 1] == Frame(b.id, i, b.frames[i], first + i)
  {
    var aired := Aired(b.id, b.frames, first, b.next);
    AiredAt(b.id, b.frames, first, b.next);
    var tail := aired + extra;
    assert tail[2 * i + 1] == aired[2 * i + 1];
    assert air[|air| - |tail|..][2 * i + 1] == tail[2 * i + 1];
  }

  lemma BegunFrame(b: Burst, first: nat, slot: nat, air: Air, playing: bool, i: nat)
    requires b.next < |b.frames| && i < b.next + (if playing then 1 else 0) && (playing ==> first + b.next == slot)
    requires EndsWith(air, Aired(b.id, b.frames, first, b.next) + if playing then [FrameOf(b, slot)] else [])
    ensures var at := |air| - (2 * b.next + 1) - (if playing then 1 else 0) + 2 * i + 1;
      0 <= at < |air| && air[at] == Frame(b.id, i, b.frames[i], first + i)
  {
    AiredAt(b.id, b.frames, first, b.next);
    if i < b.next {
      FrameOfAired(b, first, air, if playing then [FrameOf(b, slot)] else [], i);
    } else {
      LastOfTail(air, Aired(b.id, b.frames, first, b.next), FrameOf(b, slot));
    }
  }

  /** However the burst will end, its frames go out one a slot. */
  lemma FramesInSlots(s: System, i: nat)
    requires InFlight(s.p, s.phase) && s.p.bursts != [] && i < FramesBegun(s)
    ensures FrameIn(s, FirstSlot(s), i)
  {
    BegunFrame(s.p.bursts[0], FirstSlot(s), s.p.slot, s.p.air, s.phase.Playing?, i);
  }

  lemma LastOfTail(air: Air, tail: Air, x: AirEvent)
    requires EndsWith(air, tail + [x])
    ensures air[|air| - 1] == x
  {
    assert air[|air| - |tail + [x]|..][|tail|] == x;
  }

  // ---- A scheduler that keeps up ----

  /** The `i`th tick starts at its `TickStart` and works for `work(i)`; `before`
      ticks came earlier. */
  ghost predicate AtWork(first: real, work: nat -> real, before: nat, slot: nat, now: real) {
    before < slot
    && var start := TickStart(first, work, slot - before - 1);
       start <= now <= start + work(slot - before - 1)
  }

  /** The clock is read only while a tick is at work. */
  ghost predicate OnSchedule(first: real, work: nat -> real, before: nat, s: System, a: Action) {
    match a
    case Watch(now) => AtWork(first, work, before, s.p.slot + 1, now)
    case Advance(_, env) => AtWork(first, work, before, s.p.slot, env.startNow)
    case Restart => false
    case _ => true
  }

  ghost predicate ScheduledRun(
    encode: Encoder, first: real, work: nat -> real, before: nat, s: System, run: seq<Action>)
    requires Possible(encode, s, run)
    decreases |run|
  {
    run == []
    || (OnSchedule(first, work, before, s, run[0])
        && ScheduledRun(encode, first, work, before, Next(encode, s, run[0]), run[1..]))
  }

  ghost predicate KeepsUp(work: nat -> real) {
    forall i: nat :: 0.0 <= work(i) < SLOT - TARGET_OFFSET
  }

  lemma AtWorkIsWithin(k: int, work: nat -> real, before: nat, slot: nat, now: real)
    requires KeepsUp(work) && AtWork(Boundary(k) + TARGET_OFFSET, work, before, slot, now)
    ensures Within(now, k - before - 1, slot)
  {
    TicksAreSlotsApart(k, work, slot - before - 1);
  }

  /** A burst that began on schedule. */
  ghost predicate BeganAfter(before: nat, s: System) {
    s.p.bursts != [] ==> before < FirstSlot(s)
  }

  lemma BeganAfterKept(encode: Encoder, first: real, work: nat -> real, before: nat, s: System, a: Action)
    requires Sound(s) && Enabled(s, a) && BeganAfter(before, s) && OnSchedule(first, work, before, s, a)
    ensures BeganAfter(before, Next(encode, s, a))
  {
    var e := StepEffect(encode, s, a);
  }

  lemma {:induction false} ScheduleIsTimely(
    encode: Encoder, k: int, work: nat -> real, before: nat, s: System, run: seq<Action>)
    requires Inv(encode, s) && Possible(encode, s, run) && KeepsUp(work) && BeganAfter(before, s)
    requires ScheduledRun(encode, Boundary(k) + TARGET_OFFSET, work, before, s, run)
    ensures TimelyRun(encode, k - before - 1, s, run) && BeganAfter(before, After(encode, s, run))
    decreases |run|
  {
    if run != [] {
      var a, first := run[0], Boundary(k) + TARGET_OFFSET;
      if a.Watch? {
        AtWorkIsWithin(k, work, before, s.p.slot + 1, a.now);
      } else if a.Advance? {
        AtWorkIsWithin(k, work, before, s.p.slot, a.env.startNow);
      }
      BeganAfterKept(encode, first, work, before, s, a);
      InvKept(encode, s, a);
      ScheduleIsTimely(encode, k, work, before, Next(encode, s, a), run[1..]);
    }
  }

  /** When the tick of a slot starts. */
  function TickOf(k: int, work: nat -> real, before: nat, slot: int): real
    requires before < slot
  {
    TickStart(Boundary(k) + TARGET_OFFSET, work, slot - before - 1)
  }

  lemma TickOfSlot(k: int, work: nat -> real, before: nat, slot: int)
    requires before < slot && KeepsUp(work)
    ensures TickOf(k, work, before, slot) == Boundary(k + slot - before - 1) + TARGET_OFFSET
  {
    TicksAreSlotsApart(k, work, slot - before - 1);
  }

  /** Frame `i` went out in the tick that started `i` times 15 s after the one
      in which its burst began. */
  ghost predicate FrameOnTime(k: int, work: nat -> real, before: nat, s: System, i: nat) {
    && s.p.bursts != [] && before < FirstSlot(s) && FrameIn(s, FirstSlot(s), i)
    && TickOf(k, work, before, FirstSlot(s) + i) == TickOf(k, work, before, FirstSlot(s)) + i as real * SLOT
  }

  lemma FramesOnTime(k: int, work: nat -> real, before: nat, s: System)
    requires InFlight(s.p, s.phase) && KeepsUp(work) && BeganAfter(before, s) && s.p.bursts != []
    ensures forall i: nat :: i < FramesBegun(s) ==> FrameOnTime(k, work, before, s, i)
  {
    TickOfSlot(k, work, before, FirstSlot(s));
    forall i: nat | i < FramesBegun(s) ensures FrameOnTime(k, work, before, s, i) {
      FramesInSlots(s, i);
      TickOfSlot(k, work, before, FirstSlot(s) + i);
    }
  }

  lemma RunInFlight(encode: Encoder, s: System, run: seq<Action>)
    requires Inv(encode, s) && Possible(encode, s, run)
    ensures InFlight(After(encode, s, run).p, After(encode, s, run).phase)
  {
    RunKeeps(encode, s, run);
  }

  /** If every tick's work ends before the next boundary, the watchdog never
      fires. */
  lemma KeepingUpNeverFires(encode: Encoder, k: int, work: nat -> real, s: System, run: seq<Action>)
    requires Inv(encode, s) && s.p.bursts == [] && Possible(encode, s, run) && KeepsUp(work)
    requires ScheduledRun(encode, Boundary(k) + TARGET_OFFSET, work, s.p.slot, s, run)
    ensures Fired(encode, s, run) == 0
  {
    ScheduleIsTimely(encode, k, work, s.p.slot, s, run);
    WatchdogNeverFires(encode, k - s.p.slot - 1, s, run);
  }

  /** And every burst sends its frames in ticks exactly 15 s apart. */
  lemma KeepingUpFrames(encode: Encoder, k: int, work: nat -> real, s: System, run: seq<Action>)
    requires Inv(encode, s) && s.p.bursts == [] && Possible(encode, s, run) && KeepsUp(work)
    requires ScheduledRun(encode, Boundary(k) + TARGET_OFFSET, work, s.p.slot, s, run)
    requires After(encode, s, run).p.bursts != []
    ensures var t := After(encode, s, run);
      forall i: nat :: i < FramesBegun(t) ==> FrameOnTime(k, work, s.p.slot, t, i)
  {
    ScheduleIsTimely(encode, k, work, s.p.slot, s, run);
    RunInFlight(encode, s, run);
    FramesOnTime(k, work, s.p.slot, After(encode, s, run));
  }
}
