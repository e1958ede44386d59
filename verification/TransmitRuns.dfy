/** The transmit side as a transition system: the application, the encode
    worker and the scheduler take their steps in any order, and the daemon may
    restart at any moment. */
module TransmitRuns {
  import opened Text
  import opened Outbound
  import opened Transmit
  import opened Scheduler

  /** The worker has chosen a row, and then stored its audio. */
  datatype Worker = Resting | Rendering(id: nat) | Stored(id: nat)

  /** How far the scheduler is in its slot. */
  datatype Phase = Between | Swept(held: set<nat>) | Watched(held: set<nat>) | Playing

  /** A restart: the first id and the first event after it. */
  datatype BootMark = BootMark(firstId: nat, firstEvent: nat)

  /** `settled` is the acknowledged row whose audio is about to be discarded.
      The other fields after it record history: every draft ever enqueued, the
      rows that never passed through the encode worker since the last restart,
      the restarts, the last look at the clock by the watchdog, whether two looks
      were more than 20 s apart since the burst in progress began, and whether
      the clock stepped back between a look and the start of that burst. */
  datatype System = System(
    p: Pipeline, nextId: nat, worker: Worker, phase: Phase, settled: Option<nat>,
    born: map<nat, Draft>, cold: set<nat>, boots: seq<BootMark>, lastWatch: real, late: bool,
    stepped: bool)

  const START :=
    System(Pipeline(map[], map[], [], false, [], 0), 1, Resting, Between, None, map[], {}, [], 0.0, false, false)

  datatype Action =
    | Enqueue(draft: Draft, direct: bool)
    | WorkerPick(id: nat)
    | WorkerStore
    | WorkerMark
    | Sweep(now: real)
    | Watch(now: real)
    | Advance(pick: Option<nat>, env: SlotEnv)
    | Finish(ok: bool)
    | Ack(caller: Text, found: Option<nat>)
    | Discard
    | Restart

  /** What the steps rely on, and keep. */
  ghost predicate Sound(s: System) {
    && Coherent(s.p) && (s.phase.Playing? ==> s.p.bursts != [])
    && (!s.worker.Resting? ==> s.worker.id in s.p.rows && s.p.rows[s.worker.id].state.Encoding?)
    && 0 < s.nextId && forall id :: id in s.p.rows ==> 0 < id < s.nextId
  }

  ghost predicate Enabled(s: System, a: Action) {
    match a
    case Enqueue(_, _) => true
    case WorkerPick(id) => s.worker.Resting? && Oldest(s.p.rows, Encoding, id)
    case WorkerStore => s.worker.Rendering?
    case WorkerMark => s.worker.Stored?
    case Sweep(_) => s.phase.Between?
    case Watch(_) => s.phase.Swept?
    case Advance(pick, env) =>
      && s.phase.Watched?
      && (s.p.bursts == [] ==> Picks(s.p.rows, pick)) && (pick.Some? ==> pick.value in s.p.rows)
    case Finish(_) => s.phase.Playing?
    case Ack(caller, found) =>
      && s.settled.None?
      && (match found
          case Some(id) => caller != [] && Acknowledges(s.p.rows, caller, id)
          case None => caller == [] || forall id :: id in s.p.rows ==> !Awaits(s.p.rows[id], caller))
    case Discard => s.settled.Some?
    case Restart => true
  }

  // ---- The steps ----

  function Enqueued(s: System, d: Draft, direct: bool): System {
    if |ActiveIds(s.p.rows)| >= QUEUE_DEPTH then s
    else
      s.(p := s.p.(rows := s.p.rows[s.nextId := Row(d, if direct then Queued else Encoding, 0, None)]),
         nextId := s.nextId + 1,
         born := s.born[s.nextId := d],
         cold := if direct then s.cold + {s.nextId} else s.cold)
  }

  function StoredBy(encode: Encoder, s: System): System
    requires s.worker.Rendering? && s.worker.id in s.p.rows
  {
    var id := s.worker.id;
    match encode(s.p.rows[id].draft.text)
    case Some(frames) => s.(p := s.p.(cache := s.p.cache[id := frames]), worker := Stored(id))
    case None => s.(p := s.p.(rows := SetState(s.p.rows, id, Abandoned)), worker := Resting)
  }

  function MarkedBy(s: System): System
    requires s.worker.Stored?
  {
    var id := s.worker.id;
    s.(p := s.p.(rows := if id in IdsIn(s.p.rows, Encoding) then SetState(s.p.rows, id, Queued) else s.p.rows),
       worker := Resting)
  }

  function SweptAt(s: System, now: real): System {
    s.(p := AfterSweep(s.p, now), phase := Swept(Retried(s.p.rows, now)))
  }

  function WatchedAt(s: System, now: real): System
    requires s.phase.Swept?
  {
    s.(p := AfterWatchdog(s.p, now).(slot := s.p.slot + 1), phase := Watched(s.phase.held),
       lastWatch := now, late := s.late || now - s.lastWatch > WATCHDOG_PER_FRAME)
  }

  function Advanced(encode: Encoder, s: System, pick: Option<nat>, env: SlotEnv): System
    requires Coherent(s.p) && s.phase.Watched? && (pick.Some? ==> pick.value in s.p.rows)
  {
    var r := Proceed(encode, s.p, s.phase.held, pick, env);
    s.(p := r.p, phase := if r.sending then Playing else Between, late := s.late && s.p.bursts != [],
       stepped := if s.p.bursts == [] then env.startNow < s.lastWatch else s.stepped)
  }

  function Finished(s: System, ok: bool): System
    requires Coherent(s.p) && s.p.bursts != []
  {
    assert s.p.bursts[0] in s.p.bursts;
    s.(p := AfterFinish(s.p, ok), phase := Between)
  }

  function Acked(s: System, found: Option<nat>): System {
    match found
    case Some(id) => s.(p := s.p.(rows := SetState(s.p.rows, id, Delivered)), settled := found)
    case None => s
  }

  function Discarded(s: System): System
    requires s.settled.Some?
  {
    s.(p := s.p.(cache := s.p.cache - {s.settled.value}), settled := None)
  }

  /** Only the table outlives the daemon. */
  function Restarted(s: System): System {
    var rows := Recovered(s.p.rows);
    s.(p := Pipeline(rows, map[], [], false, s.p.air + [Boot], s.p.slot),
       worker := Resting, phase := Between, settled := None,
       cold := IdsIn(rows, WaitAck),
       boots := s.boots + [BootMark(s.nextId, |s.p.air| + 1)])
  }

  ghost function Next(encode: Encoder, s: System, a: Action): System
    requires Sound(s) && Enabled(s, a)
  {
    match a
    case Enqueue(d, direct) => Enqueued(s, d, direct)
    case WorkerPick(id) => s.(worker := Rendering(id))
    case WorkerStore => StoredBy(encode, s)
    case WorkerMark => MarkedBy(s)
    case Sweep(now) => SweptAt(s, now)
    case Watch(now) => WatchedAt(s, now)
    case Advance(pick, env) => Advanced(encode, s, pick, env)
    case Finish(ok) => Finished(s, ok)
    case Ack(_, found) => Acked(s, found)
    case Discard => Discarded(s)
    case Restart => Restarted(s)
  }

  // ---- Every row follows its state machine ----

  ghost predicate Follows(t: Table, u: Table) {
    u.Keys == t.Keys && forall id :: id in t ==> Moves(t[id], u[id])
  }

  lemma WatchdogFollows(p: Pipeline, now: real)
    requires Coherent(p)
    ensures Follows(p.rows, AfterWatchdog(p, now).rows)
  {
    var late := LateIds(p.bursts, now);
    forall id | id in late ensures id in p.rows && p.rows[id].state.Sending? {
      var b :| b in p.bursts && b.id == id;
    }
  }

  lemma SweepFollows(p: Pipeline, now: real)
    ensures Follows(p.rows, AfterSweep(p, now).rows)
  {
  }

  lemma ProceedFollows(encode: Encoder, p: Pipeline, held: set<nat>, pick: Option<nat>, env: SlotEnv)
    requires Coherent(p) && (pick.Some? ==> pick.value in p.rows) && (p.bursts == [] ==> Picks(p.rows, pick))
    requires forall id :: id in p.rows ==> AttemptsFit(p.rows[id])
    ensures Follows(p.rows, Proceed(encode, p, held, pick, env).p.rows)
  {
    CoherentLives(p);
  }

  lemma FinishFollows(p: Pipeline, ok: bool)
    requires Coherent(p) && p.bursts != [] && p.bursts[0] in p.bursts
    requires forall id :: id in p.rows ==> AttemptsFit(p.rows[id])
    ensures Follows(p.rows, AfterFinish(p, ok).rows)
  {
  }

  /** A step other than a restart moves rows only along their state machine,
      and adds at most one, under an id never used before. */
  lemma StepFollows(encode: Encoder, s: System, a: Action)
    requires Sound(s) && Enabled(s, a) && !a.Restart?
    requires forall id :: id in s.p.rows ==> AttemptsFit(s.p.rows[id])
    ensures var t, u := s.p.rows, Next(encode, s, a).p.rows;
      if a.Enqueue? && |ActiveIds(t)| < QUEUE_DEPTH
      then s.nextId !in t && u == t[s.nextId := Row(a.draft, if a.direct then Queued else Encoding, 0, None)]
      else Follows(t, u)
  {
    match a
    case Enqueue(d, direct) =>
    case WorkerPick(id) =>
    case WorkerStore => StateFollows(s.p.rows, s.worker.id, Abandoned);
    case WorkerMark => StateFollows(s.p.rows, s.worker.id, Queued);
    case Sweep(now) => SweepFollows(s.p, now);
    case Watch(now) => WatchdogFollows(s.p, now);
    case Advance(pick, env) => ProceedFollows(encode, s.p, s.phase.held, pick, env);
    case Finish(ok) => assert s.p.bursts[0] in s.p.bursts; FinishFollows(s.p, ok);
    case Ack(_, found) => if found.Some? { StateFollows(s.p.rows, found.value, Delivered); }
    case Discard =>
    case Restart =>
  }

  lemma StateFollows(t: Table, id: nat, state: State)
    requires id in t && Moves(t[id], t[id].(state := state))
    ensures Follows(t, SetState(t, id, state))
  {
  }
}
