/** What one scheduler slot does to the queue, the audio cache, the burst in
    progress and the transmitter. */
module Transmit {
  import opened Text
  import opened Sequences
  import opened Outbound

  type Audio = seq<int>

  /** An encoded message: one buffer for each frame, and at least one. */
  type Clip = frames: seq<Audio> | frames != [] witness [[]]

  type Encoder = Text -> Option<Clip>

  const WATCHDOG_PER_FRAME := 20.0

  /** A multi-frame transmission in progress. */
  datatype Burst = Burst(id: nat, frames: Clip, next: nat, deadline: real)

  /** What has gone out: PTT keyed for a row, a frame begun in a slot, that
      frame played to its end, PTT released, and restarts of the daemon. */
  datatype AirEvent =
    | KeyUp(id: nat)
    | Frame(id: nat, index: nat, audio: Audio, slot: nat)
    | Played
    | Release
    | Boot

  /** `bursts` is the scheduler's insertion-ordered dict of transmissions. */
  datatype Pipeline = Pipeline(
    rows: Table, cache: map<nat, Clip>, bursts: seq<Burst>, keyed: bool, air: seq<AirEvent>, slot: nat)

  ghost predicate BurstsOpen(p: Pipeline) {
    forall b :: b in p.bursts ==> b.next < |b.frames|
  }

  // ---- Acknowledgement timeouts ----

  function Verdict(r: Row): State { if r.attempts >= MAX_ATTEMPTS then Abandoned else Queued }

  function AckSwept(t: Table, now: real): Table {
    map id | id in t :: if TimedOut(t[id], now) then t[id].(state := Verdict(t[id])) else t[id]
  }

  function Exhausted(t: Table, now: real): set<nat> {
    set id | id in t && TimedOut(t[id], now) && t[id].attempts >= MAX_ATTEMPTS
  }

  /** The rows sent back to the queue in this slot: not to be picked yet. */
  function Retried(t: Table, now: real): set<nat> {
    set id | id in t && TimedOut(t[id], now) && t[id].attempts < MAX_ATTEMPTS
  }

  function AfterSweep(p: Pipeline, now: real): Pipeline {
    p.(rows := AckSwept(p.rows, now), cache := p.cache - Exhausted(p.rows, now))
  }

  // ---- The burst watchdog ----

  function InTime(now: real): Burst -> bool { (b: Burst) => now <= b.deadline }

  function LateIds(bs: seq<Burst>, now: real): set<nat> { set b | b in bs && now > b.deadline :: b.id }

  function AbandonAll(t: Table, ids: set<nat>): Table {
    map id | id in t :: if id in ids then t[id].(state := Abandoned) else t[id]
  }

  /** `end_burst` does nothing when no burst is active. */
  function Released(p: Pipeline): Pipeline {
    if p.keyed then p.(keyed := false, air := p.air + [Release]) else p
  }

  /** Ends the transmissions of those rows. */
  function Cut(p: Pipeline, ids: set<nat>): Pipeline {
    if ids == {} then p else Released(p).(rows := AbandonAll(p.rows, ids), cache := p.cache - ids)
  }

  function AfterWatchdog(p: Pipeline, now: real): Pipeline {
    Cut(p, LateIds(p.bursts, now)).(bursts := Filter(p.bursts, InTime(now)))
  }

  // ---- Choosing the row ----

  predicate OnAir(t: Table, b: Burst) { b.id in t && t[b.id].state.Sending? }

  /** Transmissions whose row is gone or no longer SENDING are dropped, up to
      the first live one. PTT is not released for them. */
  function DropDead(t: Table, bs: seq<Burst>): seq<Burst> {
    if bs == [] || OnAir(t, bs[0]) then bs else DropDead(t, bs[1..])
  }

  ghost predicate Picks(t: Table, pick: Option<nat>) {
    match pick
    case None => IdsIn(t, Queued) == {}
    case Some(id) => Oldest(t, Queued, id)
  }

  // ---- Starting a burst and a frame ----

  /** What the outside world answers during one slot. */
  datatype SlotEnv = SlotEnv(
    sweepNow: real, watchNow: real, startNow: real, markNow: real,
    gateOk: bool, startOk: bool, frameOk: bool)

  /** The state once the slot's frame, if any, is being played. */
  datatype Begun = Begun(p: Pipeline, sending: bool)

  function AudioFor(encode: Encoder, p: Pipeline, id: nat): Option<Clip>
    requires id in p.rows
  {
    if id in p.cache then Some(p.cache[id]) else encode(p.rows[id].draft.text)
  }

  /** A failed attempt: back to the queue, or given up. */
  function Failed(p: Pipeline, id: nat): Pipeline
    requires id in p.rows
  {
    p.(rows := SetState(p.rows, id, Verdict(p.rows[id])),
       cache := if p.rows[id].attempts >= MAX_ATTEMPTS then p.cache - {id} else p.cache)
  }

  function StartFrame(p: Pipeline): Pipeline
    requires p.bursts != [] && p.bursts[0].next < |p.bursts[0].frames|
  {
    var b := p.bursts[0];
    p.(air := p.air + [Frame(b.id, b.next, b.frames[b.next], p.slot)])
  }

  function StartBurst(encode: Encoder, p: Pipeline, id: nat, env: SlotEnv): Begun
    requires id in p.rows && p.bursts == []
  {
    var marked := p.(rows := MarkSending(p.rows, id, env.markNow));
    match AudioFor(encode, p, id)
    case None => Begun(marked.(rows := SetState(marked.rows, id, Abandoned), cache := p.cache - {id}), false)
    case Some(frames) =>
      if !env.startOk then Begun(Failed(marked, id), false)
      else
        var b := Burst(id, frames, 0, env.startNow + |frames| as real * WATCHDOG_PER_FRAME);
        Begun(StartFrame(marked.(bursts := [b], keyed := true, air := p.air + [KeyUp(id)])), true)
  }

  /** From the choice of a row to its frame. */
  function Proceed(encode: Encoder, p: Pipeline, held: set<nat>, pick: Option<nat>, env: SlotEnv): Begun
    requires BurstsOpen(p) && (pick.Some? ==> pick.value in p.rows)
  {
    DropDeadSuffix(p.rows, p.bursts);
    var q := p.(bursts := DropDead(p.rows, p.bursts));
    if q.bursts != [] then Begun(StartFrame(q), true)
    else if pick.None? || pick.value in held || !env.gateOk then Begun(q, false)
    else StartBurst(encode, q, pick.value, env)
  }

  function AfterBegin(encode: Encoder, p: Pipeline, held: set<nat>, pick: Option<nat>, env: SlotEnv): Begun
    requires BurstsOpen(p) && (pick.Some? ==> pick.value in p.rows)
  {
    Proceed(encode, AfterWatchdog(p, env.watchNow).(slot := p.slot + 1), held, pick, env)
  }

  lemma {:induction false} DropDeadSuffix(t: Table, bs: seq<Burst>)
    ensures forall b :: b in DropDead(t, bs) ==> b in bs
  {
    if bs != [] && !OnAir(t, bs[0]) { DropDeadSuffix(t, bs[1..]); }
  }

  // ---- The frame ends ----

  function AfterFinish(p: Pipeline, ok: bool): Pipeline
    requires p.bursts != [] && p.bursts[0].id in p.rows && p.bursts[0].next < |p.bursts[0].frames|
  {
    var b, rest := p.bursts[0], p.bursts[1..];
    if !ok then Failed(Released(p).(bursts := rest), b.id)
    else
      var played := p.(air := p.air + [Played]);
      if b.next + 1 < |b.frames| then played.(bursts := [b.(next := b.next + 1)] + rest)
      else
        var done := Released(played).(bursts := rest);
        if FireAndForget(p.rows[b.id].draft)
        then done.(rows := SetState(p.rows, b.id, Delivered), cache := p.cache - {b.id})
        else done.(rows := SetState(p.rows, b.id, WaitAck))
  }

  /** One undisturbed slot. */
  function AfterTick(encode: Encoder, p: Pipeline, pick: Option<nat>, env: SlotEnv): Pipeline
    requires BurstsOpen(p) && (pick.Some? ==> pick.value in p.rows)
  {
    var r := AfterBegin(encode, AfterSweep(p, env.sweepNow), Retried(p.rows, env.sweepNow), pick, env);
    BeginSends(encode, AfterSweep(p, env.sweepNow), Retried(p.rows, env.sweepNow), pick, env);
    if r.sending then AfterFinish(r.p, env.frameOk) else r.p
  }

  lemma BeginSends(encode: Encoder, p: Pipeline, held: set<nat>, pick: Option<nat>, env: SlotEnv)
    requires BurstsOpen(p) && (pick.Some? ==> pick.value in p.rows)
    ensures var r := AfterBegin(encode, p, held, pick, env);
      r.sending ==> r.p.bursts != [] && OnAir(r.p.rows, r.p.bursts[0])
                    && r.p.bursts[0].next < |r.p.bursts[0].frames|
  {
    var w := AfterWatchdog(p, env.watchNow);
    DropDeadFirst(w.rows, w.bursts);
    DropDeadSuffix(w.rows, w.bursts);
  }

  lemma {:induction false} DropDeadFirst(t: Table, bs: seq<Burst>)
    ensures var live := DropDead(t, bs); live != [] ==> OnAir(t, live[0])
  {
    if bs != [] && !OnAir(t, bs[0]) { DropDeadFirst(t, bs[1..]); }
  }
}
