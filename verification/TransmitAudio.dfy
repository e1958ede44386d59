/** The audio cache: it holds what the encoder made of each row's text, for
    exactly the rows that went through the worker and are not finished. */
module TransmitAudio {
  import opened Text
  import opened Outbound
  import opened Transmit
  import opened Scheduler
  import opened TransmitRuns
  import opened TransmitEffects
  import opened TransmitAir

  /** A row past encoding and not finished. */
  predicate Ready(r: Row) { r.state.Queued? || r.state.Sending? || r.state.WaitAck? }

  /** Cached audio is the text's, and belongs to an unfinished row, but for an
      acknowledged one about to be discarded. */
  ghost predicate CacheTrue(encode: Encoder, s: System) {
    && (forall id :: id in s.p.cache ==> id in s.born && encode(s.born[id].text) == Some(s.p.cache[id]))
    && (forall id :: id in s.p.cache ==> (id in s.p.rows && Active(s.p.rows[id])) || s.settled == Some(id))
    && (s.settled.Some? ==> s.settled.value in s.p.rows && s.p.rows[s.settled.value].state.Delivered?)
  }

  /** A row is uncached exactly if it never passed through the worker since the
      last restart. */
  ghost predicate CacheFull(s: System) {
    && (forall id :: id in s.p.rows && Ready(s.p.rows[id]) ==> (id in s.p.cache <==> id !in s.cold))
    && (forall id :: id in s.p.rows && s.p.rows[id].state.Encoding? ==>
          id !in s.cold && (id in s.p.cache <==> s.worker == Stored(id)))
    && (forall id :: id in s.cold ==> id < s.nextId)
  }

  ghost predicate AudioOk(encode: Encoder, s: System) {
    CacheTrue(encode, s) && CacheFull(s) && FramesAre(encode, s.p)
  }

  /** One row's part in a step of the scheduler. */
  ghost predicate Settles(p: Pipeline, q: Pipeline, id: nat)
    requires id in p.rows && id in q.rows
  {
    var r, u := p.rows[id], q.rows[id];
    && u.draft == r.draft
    && (r.state == u.state || (Ready(r) && (Ready(u) || !Active(u))))
    && (id in q.cache <==> id in p.cache && !(Ready(r) && !Active(u)))
  }

  /** A step of the scheduler: finished rows, and only those, lose their audio. */
  ghost predicate AllSettle(p: Pipeline, q: Pipeline) {
    && q.rows.Keys == p.rows.Keys && q.cache.Keys <= p.cache.Keys
    && (forall id :: id in q.cache ==> q.cache[id] == p.cache[id])
    && (forall id :: id in p.cache && id !in p.rows ==> id in q.cache)
    && forall id :: id in p.rows ==> Settles(p, q, id)
  }

  ghost predicate SameRest(s: System, t: System) {
    t.born == s.born && t.nextId == s.nextId && t.cold == s.cold && t.worker == s.worker && t.settled == s.settled
  }

  lemma SettledAudio(encode: Encoder, s: System, t: System)
    requires AudioOk(encode, s) && AllSettle(s.p, t.p) && SameRest(s, t)
    ensures CacheTrue(encode, t) && CacheFull(t)
  {
    forall id | id in t.p.rows ensures Settles(s.p, t.p, id) {}
  }

  lemma SweepSettles(p: Pipeline, now: real)
    ensures AllSettle(p, AfterSweep(p, now))
  {
  }

  lemma WatchSettles(p: Pipeline, now: real)
    requires Coherent(p)
    ensures AllSettle(p, AfterWatchdog(p, now))
  {
    var e := WatchEffect(p, now);
    if p.bursts != [] { assert p.bursts[0] in p.bursts; }
  }

  lemma AdvanceSettles(encode: Encoder, p: Pipeline, held: set<nat>, pick: Option<nat>, env: SlotEnv)
    requires Coherent(p) && (pick.Some? ==> pick.value in p.rows) && (p.bursts == [] ==> Picks(p.rows, pick))
    ensures AllSettle(p, Proceed(encode, p, held, pick, env).p)
  {
    CoherentLives(p);
  }

  lemma FinishSettles(p: Pipeline, ok: bool)
    requires Coherent(p) && p.bursts != [] && p.bursts[0] in p.bursts
    ensures AllSettle(p, AfterFinish(p, ok))
  {
  }

  // ---- The frames being sent ----

  /** Cached or encoded on the spot, the frames are the encoder's. */
  lemma FramesAreKept(encode: Encoder, s: System, a: Action)
    requires Sound(s) && Enabled(s, a) && AudioOk(encode, s)
    requires forall id :: id in s.p.rows ==> id in s.born && s.born[id] == s.p.rows[id].draft
    ensures FramesAre(encode, Next(encode, s, a).p)
  {
    var e := StepEffect(encode, s, a);
    var q := Next(encode, s, a).p;
    if s.p.bursts != [] { assert s.p.bursts[0] in s.p.bursts; }
    if a.Advance? && e.Opened? {
      OpenedFrames(encode, s, a.pick, a.env, e);
    }
  }

  lemma OpenedFrames(encode: Encoder, s: System, pick: Option<nat>, env: SlotEnv, e: Effect)
    requires Sound(s) && Enabled(s, Advance(pick, env)) && AudioOk(encode, s)
    requires forall id :: id in s.p.rows ==> id in s.born && s.born[id] == s.p.rows[id].draft
    requires e.Opened? && Has(e, s.p, Proceed(encode, s.p, s.phase.held, pick, env).p)
    ensures encode(s.p.rows[e.burst.id].draft.text) == Some(e.burst.frames)
  {
    var d := AdvanceEffect(encode, s.p, s.phase.held, pick, env);
    assert d.Opened? && d.burst == e.burst;
  }

  // ---- The other steps ----

  lemma PickAudio(encode: Encoder, s: System, id: nat)
    requires Sound(s) && Enabled(s, WorkerPick(id)) && AudioOk(encode, s)
    ensures CacheTrue(encode, s.(worker := Rendering(id))) && CacheFull(s.(worker := Rendering(id)))
  {
  }

  lemma StoreAudio(encode: Encoder, s: System)
    requires Sound(s) && s.worker.Rendering? && AudioOk(encode, s)
    requires s.worker.id in s.born && s.born[s.worker.id] == s.p.rows[s.worker.id].draft
    ensures CacheTrue(encode, StoredBy(encode, s)) && CacheFull(StoredBy(encode, s))
  {
    match encode(s.p.rows[s.worker.id].draft.text)
    case Some(frames) => PutAudio(encode, s, s.worker.id, frames);
    case None => GiveUpAudio(encode, s, s.worker.id);
  }

  lemma PutAudio(encode: Encoder, s: System, id: nat, frames: Clip)
    requires Sound(s) && s.worker == Rendering(id) && AudioOk(encode, s)
    requires id in s.born && encode(s.born[id].text) == Some(frames)
    ensures var t := s.(p := s.p.(cache := s.p.cache[id := frames]), worker := Stored(id));
      CacheTrue(encode, t) && CacheFull(t)
  {
  }

  lemma GiveUpAudio(encode: Encoder, s: System, id: nat)
    requires Sound(s) && s.worker == Rendering(id) && AudioOk(encode, s)
    ensures var t := s.(p := s.p.(rows := SetState(s.p.rows, id, Abandoned)), worker := Resting);
      CacheTrue(encode, t) && CacheFull(t)
  {
  }

  lemma MarkAudio(encode: Encoder, s: System)
    requires Sound(s) && s.worker.Stored? && AudioOk(encode, s)
    ensures CacheTrue(encode, MarkedBy(s)) && CacheFull(MarkedBy(s))
  {
    var t := MarkedBy(s);
    forall id | id in s.p.rows && id != s.worker.id ensures id in t.p.rows && t.p.rows[id] == s.p.rows[id] {}
  }

  lemma EnqueueTrue(encode: Encoder, s: System, d: Draft, direct: bool)
    requires s.nextId !in s.p.rows && s.nextId !in s.born && CacheTrue(encode, s)
    ensures CacheTrue(encode, Enqueued(s, d, direct))
  {
  }

  lemma EnqueueFull(s: System, d: Draft, direct: bool)
    requires s.nextId !in s.p.rows && s.nextId !in s.p.cache && s.worker != Stored(s.nextId) && CacheFull(s)
    ensures CacheFull(Enqueued(s, d, direct))
  {
  }

  lemma EnqueueAudio(encode: Encoder, s: System, d: Draft, direct: bool)
    requires Sound(s) && AudioOk(encode, s) && forall id :: id in s.born ==> id < s.nextId
    ensures CacheTrue(encode, Enqueued(s, d, direct)) && CacheFull(Enqueued(s, d, direct))
  {
    EnqueueTrue(encode, s, d, direct);
    EnqueueFull(s, d, direct);
  }

  lemma AckAudio(encode: Encoder, s: System, caller: Text, found: Option<nat>)
    requires Sound(s) && Enabled(s, Ack(caller, found)) && AudioOk(encode, s)
    ensures CacheTrue(encode, Acked(s, found)) && CacheFull(Acked(s, found))
  {
  }

  lemma DiscardAudio(encode: Encoder, s: System)
    requires Sound(s) && AudioOk(encode, s) && s.settled.Some?
    ensures CacheTrue(encode, Discarded(s)) && CacheFull(Discarded(s))
  {
  }

  lemma RestartAudio(encode: Encoder, s: System)
    requires Sound(s)
    ensures CacheTrue(encode, Restarted(s)) && CacheFull(Restarted(s))
  {
  }

  lemma StepSettles(encode: Encoder, s: System, a: Action)
    requires Sound(s) && Enabled(s, a) && (a.Sweep? || a.Watch? || a.Advance? || a.Finish?)
    ensures AllSettle(s.p, Next(encode, s, a).p) && SameRest(s, Next(encode, s, a))
  {
    if a.Sweep? {
      SweepSettles(s.p, a.now);
    } else if a.Watch? {
      WatchSettles(s.p, a.now);
      SlotSettles(s.p, AfterWatchdog(s.p, a.now), s.p.slot + 1);
    } else if a.Advance? {
      AdvanceSettles(encode, s.p, s.phase.held, a.pick, a.env);
    } else {
      assert s.p.bursts[0] in s.p.bursts;
      FinishSettles(s.p, a.ok);
    }
  }

  lemma SlotSettles(p: Pipeline, q: Pipeline, slot: nat)
    requires AllSettle(p, q)
    ensures AllSettle(p, q.(slot := slot))
  {
    forall id | id in p.rows ensures Settles(p, q.(slot := slot), id) { assert Settles(p, q, id); }
  }

  lemma SchedulerAudio(encode: Encoder, s: System, a: Action)
    requires Sound(s) && Enabled(s, a) && AudioOk(encode, s)
    requires a.Sweep? || a.Watch? || a.Advance? || a.Finish?
    ensures CacheTrue(encode, Next(encode, s, a)) && CacheFull(Next(encode, s, a))
  {
    StepSettles(encode, s, a);
    SettledAudio(encode, s, Next(encode, s, a));
  }

  lemma OtherAudio(encode: Encoder, s: System, a: Action)
    requires Sound(s) && Enabled(s, a) && AudioOk(encode, s)
    requires forall id :: id in s.p.rows ==> id in s.born && s.born[id] == s.p.rows[id].draft
    requires forall id :: id in s.born ==> id < s.nextId
    requires !a.Sweep? && !a.Watch? && !a.Advance? && !a.Finish?
    ensures CacheTrue(encode, Next(encode, s, a)) && CacheFull(Next(encode, s, a))
  {
    match a
    case Enqueue(d, direct) => EnqueueAudio(encode, s, d, direct);
    case WorkerPick(id) => PickAudio(encode, s, id);
    case WorkerStore => StoreAudio(encode, s);
    case WorkerMark => MarkAudio(encode, s);
    case Ack(caller, found) => AckAudio(encode, s, caller, found);
    case Discard => DiscardAudio(encode, s);
    case Restart => RestartAudio(encode, s);
  }

  lemma AudioKept(encode: Encoder, s: System, a: Action)
    requires Sound(s) && Enabled(s, a) && AudioOk(encode, s)
    requires forall id :: id in s.p.rows ==> id in s.born && s.born[id] == s.p.rows[id].draft
    requires forall id :: id in s.born ==> id < s.nextId
    ensures AudioOk(encode, Next(encode, s, a))
  {
    FramesAreKept(encode, s, a);
    if a.Sweep? || a.Watch? || a.Advance? || a.Finish? {
      SchedulerAudio(encode, s, a);
    } else {
      OtherAudio(encode, s, a);
    }
  }
}
