/** What the transmit side must do, in every reachable state and under any
    interleaving: begin what is due, send it to its end, settle it, and lose
    nothing over a restart. */
module TransmitDuties {
  import opened Text
  import opened Sequences
  import opened Outbound
  import opened Transmit
  import opened Scheduler
  import opened TransmitRuns
  import opened TransmitEffects
  import opened TransmitInvariants
  import opened TransmitAir
  import opened TransmitAudio
  import opened TransmitLaws

  // ---- Beginning a burst ----

  /** No QUEUED row was enqueued before this one. */
  ghost predicate HeadOfQueue(t: Table, id: nat) {
    && id in t && t[id].state.Queued?
    && forall other :: other in t && t[other].state.Queued? ==> t[id].draft.enqueuedAt <= t[other].draft.enqueuedAt
  }

  /** The row's transmission is on the air, with its first frame. */
  ghost predicate Begins(s: System, t: System, id: nat, frames: Clip, env: SlotEnv) {
    && id in s.p.rows
    && t.phase.Playing? && t.p.keyed
    && t.p.bursts == [Burst(id, frames, 0, env.startNow + |frames| as real * 20.0)]
    && t.p.air == s.p.air + [KeyUp(id), Frame(id, 0, frames[0], s.p.slot)]
    && t.p.cache == s.p.cache
    && t.p.rows == s.p.rows[id := s.p.rows[id].(
         state := Sending, attempts := s.p.rows[id].attempts + 1, lastTx := Some(env.markNow))]
  }

  /** The attempt failed before anything went out. */
  ghost predicate FailsToBegin(s: System, t: System, id: nat, next: State, env: SlotEnv) {
    && id in s.p.rows
    && t.phase.Between? && t.p.bursts == [] && !t.p.keyed && t.p.air == s.p.air
    && t.p.rows == s.p.rows[id := s.p.rows[id].(
         state := next, attempts := s.p.rows[id].attempts + 1, lastTx := Some(env.markNow))]
    && t.p.cache == if next.Abandoned? then s.p.cache - {id} else s.p.cache
  }

  /** With the gate open and no burst in progress the head of the queue, unless it
      was retried in this very slot, is attempted: it is on the air if and only if
      its text encodes and PTT can be keyed. */
  lemma HeadIsAttempted(encode: Encoder, s: System, id: nat, env: SlotEnv)
    requires Reachable(encode, s) && s.phase.Watched? && s.p.bursts == []
    requires HeadOfQueue(s.p.rows, id) && id !in s.phase.held && env.gateOk
    ensures Sound(s) && Enabled(s, Advance(Some(id), env))
    ensures id in s.born && s.born[id] == s.p.rows[id].draft
    ensures var t, audio := Next(encode, s, Advance(Some(id), env)), encode(s.born[id].text);
      match audio
      case None => FailsToBegin(s, t, id, Abandoned, env)
      case Some(frames) =>
        if env.startOk then Begins(s, t, id, frames, env)
        else FailsToBegin(s, t, id, if s.p.rows[id].attempts + 1 < 3 then Queued else Abandoned, env)
  {
    ReachableInv(encode, s);
    HeadAudio(encode, s, id);
    AttemptsOutcome(encode, s, id, env);
  }

  /** Cached or not, its audio is what its text encodes to. */
  lemma HeadAudio(encode: Encoder, s: System, id: nat)
    requires Inv(encode, s) && id in s.p.rows
    ensures id in s.born && s.born[id] == s.p.rows[id].draft
    ensures AudioFor(encode, s.p, id) == encode(s.born[id].text)
  {
  }

  lemma AttemptsOutcome(encode: Encoder, s: System, id: nat, env: SlotEnv)
    requires Sound(s) && s.phase.Watched? && s.p.bursts == [] && !s.p.keyed
    requires HeadOfQueue(s.p.rows, id) && id !in s.phase.held && env.gateOk
    ensures Enabled(s, Advance(Some(id), env))
    ensures var t := Advanced(encode, s, Some(id), env);
      match AudioFor(encode, s.p, id)
      case None => FailsToBegin(s, t, id, Abandoned, env)
      case Some(frames) =>
        if env.startOk then Begins(s, t, id, frames, env)
        else FailsToBegin(s, t, id, if s.p.rows[id].attempts + 1 < 3 then Queued else Abandoned, env)
  {
  }

  /** Otherwise nothing happens: there is nothing QUEUED, the head was retried in
      this slot, or the gate is closed. */
  lemma NothingDue(encode: Encoder, s: System, pick: Option<nat>, env: SlotEnv)
    requires Sound(s) && Enabled(s, Advance(pick, env)) && s.p.bursts == []
    ensures (pick.None? ==> forall id :: id in s.p.rows ==> !s.p.rows[id].state.Queued?)
         && (pick.Some? ==> HeadOfQueue(s.p.rows, pick.value))
    ensures pick.None? || pick.value in s.phase.held || !env.gateOk ==>
      Next(encode, s, Advance(pick, env)).p == s.p && Next(encode, s, Advance(pick, env)).phase.Between?
  {
    if pick.None? {
      forall id | id in s.p.rows ensures !s.p.rows[id].state.Queued? { assert id !in IdsIn(s.p.rows, Queued); }
    }
  }

  /** A step of the application or the encode worker. */
  predicate Outside(a: Action) {
    a.Enqueue? || a.WorkerPick? || a.WorkerStore? || a.WorkerMark? || a.Ack? || a.Discard?
  }

  lemma OutsideKeepsSlot(encode: Encoder, s: System, a: Action)
    requires Sound(s) && Enabled(s, a) && Outside(a)
    ensures Next(encode, s, a).phase == s.phase && Next(encode, s, a).p.bursts == s.p.bursts
  {
  }

  lemma {:induction false} OutsideRun(encode: Encoder, s: System, run: seq<Action>)
    requires Possible(encode, s, run) && forall a :: a in run ==> Outside(a)
    ensures After(encode, s, run).phase == s.phase && After(encode, s, run).p.bursts == s.p.bursts
    decreases |run|
  {
    if run != [] {
      OutsideKeepsSlot(encode, s, run[0]);
      OutsideRun(encode, Next(encode, s, run[0]), run[1..]);
    }
  }

  /** The state in which the slot chooses a row: after the sweep of timeouts and
      the watchdog's round, with any steps of application and worker between. */
  ghost predicate Chooses(encode: Encoder, s: System, sweepNow: real, xs: seq<Action>, watchNow: real,
                          ys: seq<Action>, u: System) {
    && s.phase.Between? && (forall a :: a in xs + ys ==> Outside(a))
    && var swept := SweptAt(s, sweepNow);
       && Possible(encode, swept, xs)
       && var mid := After(encode, swept, xs);
          && mid.phase.Swept?
          && var watched := WatchedAt(mid, watchNow);
             Possible(encode, watched, ys) && u == After(encode, watched, ys)
  }

  lemma ChooserIsReady(encode: Encoder, s: System, sweepNow: real, xs: seq<Action>, watchNow: real,
                       ys: seq<Action>, u: System)
    requires Inv(encode, s) && s.p.bursts == [] && Chooses(encode, s, sweepNow, xs, watchNow, ys, u)
    ensures Inv(encode, u) && u.phase == Watched(Retried(s.p.rows, sweepNow)) && u.p.bursts == []
  {
    var swept := SweptAt(s, sweepNow);
    InvKept(encode, s, Sweep(sweepNow));
    forall a | a in xs ensures a in xs + ys {}
    OutsideRun(encode, swept, xs);
    RunKeeps(encode, swept, xs);
    WatchAndOn(encode, After(encode, swept, xs), watchNow, ys);
    forall a | a in ys ensures a in xs + ys {}
  }

  lemma WatchAndOn(encode: Encoder, s: System, watchNow: real, ys: seq<Action>)
    requires Inv(encode, s) && s.phase.Swept? && s.p.bursts == [] && forall a :: a in ys ==> Outside(a)
    requires Possible(encode, WatchedAt(s, watchNow), ys)
    ensures var u := After(encode, WatchedAt(s, watchNow), ys);
      Inv(encode, u) && u.phase == Watched(s.phase.held) && u.p.bursts == []
  {
    InvKept(encode, s, Watch(watchNow));
    OutsideRun(encode, WatchedAt(s, watchNow), ys);
    RunKeeps(encode, WatchedAt(s, watchNow), ys);
  }

  /** Whatever else happens in the slot: with no burst in progress, the gate open
      and keying in order, the head of the queue is on the air in that slot, if its
      text encodes and it was not sent back to the queue by the slot's own sweep. */
  lemma HeadGoesOut(encode: Encoder, s: System, sweepNow: real, xs: seq<Action>, watchNow: real, ys: seq<Action>,
                    u: System, id: nat, env: SlotEnv)
    requires Reachable(encode, s) && s.p.bursts == [] && Chooses(encode, s, sweepNow, xs, watchNow, ys, u)
    requires HeadOfQueue(u.p.rows, id) && env.gateOk && env.startOk
    requires id in s.p.rows && s.p.rows[id].state.WaitAck? && s.p.rows[id].lastTx.Some? ==>
      sweepNow <= s.p.rows[id].lastTx.value + 90.0
    ensures id in u.born && Sound(u) && Enabled(u, Advance(Some(id), env))
    ensures encode(u.born[id].text).Some? ==>
      Begins(u, Next(encode, u, Advance(Some(id), env)), id, encode(u.born[id].text).value, env)
  {
    ReachableInv(encode, s);
    ChooserIsReady(encode, s, sweepNow, xs, watchNow, ys, u);
    HeadAudio(encode, u, id);
    AttemptsOutcome(encode, u, id, env);
  }

  /** A transmission in progress goes on, whatever the gate and the queue say. */
  lemma BurstGoesOn(encode: Encoder, s: System, pick: Option<nat>, env: SlotEnv)
    requires Reachable(encode, s) && Enabled(s, Advance(pick, env)) && s.p.bursts != []
    ensures Sound(s)
    ensures var t, b := Next(encode, s, Advance(pick, env)), s.p.bursts[0];
      && t.phase.Playing? && t.p == s.p.(air := t.p.air) && b.next < |b.frames|
      && t.p.air == s.p.air + [Frame(b.id, b.next, b.frames[b.next], s.p.slot)]
  {
    ReachableInv(encode, s);
    CoherentLives(s.p);
  }

  // ---- Ending a frame ----

  /** Was the row enqueued as DIRECTED, and does its text expect an ACK? */
  predicate ExpectsAck(d: Draft) { d.kind.Directed? && InferKind(d.text).Directed? }

  ghost predicate RowIs(s: System, t: System, id: nat, state: State) {
    id in s.p.rows && t.p.rows == s.p.rows[id := s.p.rows[id].(state := state)]
  }

  /** The end of a frame: the next one is due, or the row has been sent and waits
      for its ACK if it expects one, or the attempt failed. */
  lemma FrameEnds(encode: Encoder, s: System, ok: bool)
    requires Reachable(encode, s) && s.phase.Playing?
    ensures Sound(s) && s.p.bursts != [] && s.p.bursts[0].id in s.p.rows
    ensures var t, b := Next(encode, s, Finish(ok)), s.p.bursts[0];
      var r := s.p.rows[b.id];
      if !ok then
        && t.p.bursts == [] && !t.p.keyed && t.p.air == s.p.air + [Release]
        && RowIs(s, t, b.id, if r.attempts < 3 then Queued else Abandoned)
        && t.p.cache == if r.attempts < 3 then s.p.cache else s.p.cache - {b.id}
      else if b.next + 1 < |b.frames| then
        && t.p.bursts == [b.(next := b.next + 1)] && t.p.keyed && t.p.air == s.p.air + [Played]
        && t.p.rows == s.p.rows && t.p.cache == s.p.cache
      else
        && t.p.bursts == [] && !t.p.keyed && t.p.air == s.p.air + [Played, Release]
        && RowIs(s, t, b.id, if ExpectsAck(r.draft) then WaitAck else Delivered)
        && t.p.cache == if ExpectsAck(r.draft) then s.p.cache else s.p.cache - {b.id}
  {
    ReachableInv(encode, s);
    FinishOutcome(encode, s, ok);
  }

  lemma FinishOutcome(encode: Encoder, s: System, ok: bool)
    requires Sound(s) && s.phase.Playing?
    ensures s.p.bursts != [] && s.p.bursts[0].id in s.p.rows
    ensures var t, b := Finished(s, ok), s.p.bursts[0];
      var r := s.p.rows[b.id];
      if !ok then
        && t.p.bursts == [] && !t.p.keyed && t.p.air == s.p.air + [Release]
        && RowIs(s, t, b.id, if r.attempts < 3 then Queued else Abandoned)
        && t.p.cache == if r.attempts < 3 then s.p.cache else s.p.cache - {b.id}
      else if b.next + 1 < |b.frames| then
        && t.p.bursts == [b.(next := b.next + 1)] && t.p.keyed && t.p.air == s.p.air + [Played]
        && t.p.rows == s.p.rows && t.p.cache == s.p.cache
      else
        && t.p.bursts == [] && !t.p.keyed && t.p.air == s.p.air + [Played, Release]
        && RowIs(s, t, b.id, if ExpectsAck(r.draft) then WaitAck else Delivered)
        && t.p.cache == if ExpectsAck(r.draft) then s.p.cache else s.p.cache - {b.id}
  {
    assert s.p.bursts[0] in s.p.bursts && s.p.bursts[1..] == [];
    assert s.p.air + [Played] + [Release] == s.p.air + [Played, Release];
  }

  /** In words: once the last frame of "<call> <verb> ..." is out, the row waits
      for its ACK, its audio kept for a retry, if and only if it was enqueued as
      DIRECTED, the verb is MSG and the call is no group's. */
  lemma MailAwaitsAck(encode: Encoder, s: System, call: Text, verb: Text, rest: Text)
    requires Reachable(encode, s) && s.phase.Playing? && IsWord(call) && IsWord(verb)
    requires rest != [] ==> IsSpace(rest[0])
    ensures Sound(s) && s.p.bursts != [] && s.p.bursts[0].id in s.p.rows
    ensures var t, b := Next(encode, s, Finish(true)), s.p.bursts[0];
      var d := s.p.rows[b.id].draft;
      d.text == call + ([' '] + (verb + rest)) && b.next + 1 == |b.frames| ==>
        if d.kind.Directed? && call[0] != '@' && UpperText(verb) == "MSG"
        then RowIs(s, t, b.id, WaitAck) && t.p.cache == s.p.cache
        else RowIs(s, t, b.id, Delivered) && b.id !in t.p.cache
  {
    FrameEnds(encode, s, true);
    InfersDirected(call, verb, rest);
  }

  // ---- The watchdog ----

  /** The watchdog ends a transmission if and only if its deadline has passed: PTT
      is released and the row given up. */
  lemma WatchdogIff(encode: Encoder, s: System, now: real)
    requires Reachable(encode, s) && s.phase.Swept?
    ensures var t := WatchedAt(s, now);
      && t.p.slot == s.p.slot + 1
      && if s.p.bursts != [] && now > s.p.bursts[0].deadline then
           && t.p.bursts == [] && !t.p.keyed && t.p.air == s.p.air + [Release]
           && RowIs(s, t, s.p.bursts[0].id, Abandoned) && t.p.cache == s.p.cache - {s.p.bursts[0].id}
         else t.p == s.p.(slot := s.p.slot + 1)
  {
    ReachableInv(encode, s);
    WatchdogOutcome(s.p, now);
  }

  lemma WatchdogOutcome(p: Pipeline, now: real)
    requires Coherent(p)
    ensures var q := AfterWatchdog(p, now);
      if p.bursts != [] && now > p.bursts[0].deadline then
        && q.bursts == [] && !q.keyed && q.air == p.air + [Release] && q.slot == p.slot
        && p.bursts[0].id in p.rows && q.rows == p.rows[p.bursts[0].id := p.rows[p.bursts[0].id].(state := Abandoned)]
        && q.cache == p.cache - {p.bursts[0].id}
      else q == p
  {
    var e := WatchEffect(p, now);
    if p.bursts != [] { assert p.bursts[0] in p.bursts; }
    if e.CutShort? {
    } else if p.bursts == [] {
      assert AfterWatchdog(p, now) == p;
    } else {
      assert p.bursts == [p.bursts[0]];
      assert LateIds(p.bursts, now) == {};
      FilterAll(p.bursts, InTime(now));
    }
  }

  // ---- Acknowledgements ----

  /** Does the row wait for an ACK from this callsign? Only ASCII letters of the
      stored name are compared without regard to case. */
  predicate WaitsFor(r: Row, caller: Text) {
    && r.state.WaitAck? && r.draft.toCall.Some? && |r.draft.toCall.value| == |caller|
    && forall i :: 0 <= i < |caller| ==>
         var c := r.draft.toCall.value[i];
         Upper(caller[i]) == if 'a' <= c <= 'z' then (c as int - 32) as char else c
  }

  /** An ACK from a station settles a row that waits for one from it if there is
      any, and then one with the latest attempt; it settles no other. */
  lemma AckSettles(encode: Encoder, s: System, caller: Text, found: Option<nat>)
    requires Sound(s) && caller != [] && s.settled.None?
    ensures Enabled(s, Ack(caller, found)) <==>
      match found
      case None => forall id :: id in s.p.rows ==> !WaitsFor(s.p.rows[id], caller)
      case Some(id) =>
        && id in s.p.rows && WaitsFor(s.p.rows[id], caller)
        && forall other :: other in s.p.rows && WaitsFor(s.p.rows[other], caller) && s.p.rows[other].lastTx.Some? ==>
             s.p.rows[id].lastTx.Some? && s.p.rows[other].lastTx.value <= s.p.rows[id].lastTx.value
    ensures Enabled(s, Ack(caller, found)) ==>
      var t := Next(encode, s, Ack(caller, found));
      match found
      case None => t == s
      case Some(id) => RowIs(s, t, id, Delivered) && t.settled == found
  {
    forall id | id in s.p.rows ensures WaitsFor(s.p.rows[id], caller) <==> Awaits(s.p.rows[id], caller) {
      WaitsIsAwaits(s.p.rows[id], caller);
    }
  }

  lemma WaitsIsAwaits(r: Row, caller: Text)
    ensures WaitsFor(r, caller) <==> Awaits(r, caller)
  {
    if r.draft.toCall.Some? && |r.draft.toCall.value| == |caller| {
      var a, b := SqlUpper(r.draft.toCall.value), UpperText(caller);
      forall i | 0 <= i < |caller|
        ensures a[i] == var c := r.draft.toCall.value[i]; if 'a' <= c <= 'z' then (c as int - 32) as char else c
        ensures b[i] == Upper(caller[i])
      {
      }
      if WaitsFor(r, caller) { assert a == b; }
    }
  }

  // ---- Accepting messages ----

  /** A message is accepted if and only if fewer than three rows are unfinished. */
  lemma EnqueueIff(encode: Encoder, s: System, d: Draft, direct: bool)
    requires Sound(s)
    ensures var t, open := Next(encode, s, Enqueue(d, direct)),
                           set id | id in s.p.rows && s.p.rows[id].state in {Encoding, Queued, Sending, WaitAck};
      s.nextId !in s.p.rows
      && if |open| < 3 then
           t.p == s.p.(rows := s.p.rows[s.nextId := Row(d, if direct then Queued else Encoding, 0, None)])
         else t == s
  {
    assert ActiveIds(s.p.rows)
        == set id | id in s.p.rows && s.p.rows[id].state in {Encoding, Queued, Sending, WaitAck};
  }

  // ---- Nothing is lost over a restart ----

  /** Everything ever enqueued is still in the table, but for what a restart
      found unfinished of kind ALLCALL or HEARTBEAT. */
  ghost predicate Kept(s: System) {
    forall id :: id in s.born && !(s.born[id].kind in {AllCall, Kind.Heartbeat}) ==> id in s.p.rows
  }

  lemma KeptStays(encode: Encoder, s: System, a: Action)
    requires Inv(encode, s) && Enabled(s, a) && Kept(s)
    ensures Kept(Next(encode, s, a))
  {
    if a.Restart? {
      RestartLeaves(s.p.rows);
    } else {
      StepFollows(encode, s, a);
      if !a.Enqueue? { SameBirths(encode, s, a); }
    }
  }

  lemma {:induction false} RunKeepsRows(encode: Encoder, s: System, run: seq<Action>)
    requires Inv(encode, s) && Possible(encode, s, run) && Kept(s)
    ensures Kept(After(encode, s, run))
    decreases |run|
  {
    if run != [] {
      KeptStays(encode, s, run[0]);
      InvKept(encode, s, run[0]);
      RunKeepsRows(encode, Next(encode, s, run[0]), run[1..]);
    }
  }

  /** Whatever happens, restarts included, a message that is not a broadcast is
      never lost from the table. */
  lemma NeverLost(encode: Encoder, s: System, id: nat)
    requires Reachable(encode, s) && id in s.born && !(s.born[id].kind in {AllCall, Kind.Heartbeat})
    ensures id in s.p.rows && s.p.rows[id].draft == s.born[id]
  {
    var run :| Possible(encode, START, run) && After(encode, START, run) == s;
    StartInv(encode);
    RunKeepsRows(encode, START, run);
    ReachableInv(encode, s);
  }

  /** What a restart leaves: the table as `Survives` says, and nothing else. */
  lemma RestartOutcome(encode: Encoder, s: System)
    requires Sound(s)
    ensures var t := Next(encode, s, Restart);
      && Survives(s.p.rows, t.p.rows) && t.born == s.born && t.nextId == s.nextId
      && t.p.cache == map[] && t.p.bursts == [] && !t.p.keyed && t.p.air == s.p.air + [Boot]
      && t.worker.Resting? && t.phase.Between? && t.settled.None?
  {
    RestartLeaves(s.p.rows);
  }

  // ---- A burst is sent to its end ----

  /** No restart, no failing frame, no watchdog round past the deadline. */
  ghost predicate Benign(a: Action, deadline: real) {
    match a
    case Watch(now) => now <= deadline
    case Finish(ok) => ok
    case Restart => false
    case _ => true
  }

  ghost predicate AllBenign(run: seq<Action>, deadline: real) {
    run == [] || (Benign(run[0], deadline) && AllBenign(run[1..], deadline))
  }

  function Ends(a: Action): nat { if a.Finish? then 1 else 0 }

  function Finishes(run: seq<Action>): nat {
    if run == [] then 0 else Ends(run[0]) + Finishes(run[1..])
  }

  function Onward(b: Burst, k: nat): Burst { b.(next := b.next + k) }

  /** One step of an undisturbed transmission that is not its last. */
  lemma StepsOn(encode: Encoder, s: System, a: Action, b: Burst)
    requires Sound(s) && Enabled(s, a) && s.p.bursts == [b] && Benign(a, b.deadline)
    requires a.Finish? ==> b.next + 1 < |b.frames|
    ensures Next(encode, s, a).p.bursts == [Onward(b, Ends(a))]
  {
    if a.Watch? {
      var e := WatchEffect(s.p, a.now);
    } else if a.Finish? {
      FinishOutcome(encode, s, true);
    } else {
      var e := StepEffect(encode, s, a);
    }
  }

  lemma {:induction false} BurstAdvances(encode: Encoder, s: System, run: seq<Action>, b: Burst)
    requires Possible(encode, s, run) && s.p.bursts == [b] && AllBenign(run, b.deadline)
    requires b.next + Finishes(run) < |b.frames|
    ensures After(encode, s, run).p.bursts == [Onward(b, Finishes(run))]
    decreases |run|
  {
    if run != [] {
      StepsOn(encode, s, run[0], b);
      BurstAdvances(encode, Next(encode, s, run[0]), run[1..], Onward(b, Ends(run[0])));
    }
  }

  /** What the last frame of a transmission leaves. */
  ghost predicate SentNow(encode: Encoder, t: System, b: Burst, d: Draft, first: nat) {
    && encode(d.text) == Some(b.frames) && EndsWith(t.p.air, WholeBurst(b.id, b.frames, first))
    && b.id in t.p.rows && t.p.rows[b.id].draft == d
    && t.p.rows[b.id].state == if ExpectsAck(d) then WaitAck else Delivered
  }

  lemma LastFrame(encode: Encoder, s: System, b: Burst) returns (first: nat)
    requires Inv(encode, s) && s.phase.Playing? && s.p.bursts == [b] && b.next + 1 == |b.frames|
    ensures b.id in s.born && SentNow(encode, Finished(s, true), b, s.born[b.id], first)
  {
    assert s.p.bursts[0] in s.p.bursts;
    FinishOutcome(encode, s, true);
    first := s.p.slot - b.next;
    LastFrameEnds(s.p, Finished(s, true).p, first);
  }

  /** Once begun and undisturbed, a transmission goes out whole: with the last of
      its frames the air ends with the unbroken burst, and the row is WAIT_ACK or
      DELIVERED as its draft says. */
  lemma BurstIsSent(encode: Encoder, s: System, run: seq<Action>, b: Burst) returns (first: nat)
    requires Reachable(encode, s) && Possible(encode, s, run) && s.p.bursts == [b] && AllBenign(run, b.deadline)
    requires b.next + Finishes(run) + 1 == |b.frames| && After(encode, s, run).phase.Playing?
    ensures var u := After(encode, s, run);
      && b.id in s.born && Sound(u) && Enabled(u, Finish(true))
      && SentNow(encode, Finished(u, true), Onward(b, Finishes(run)), s.born[b.id], first)
  {
    LaterState(encode, s, run, b);
    BurstAdvances(encode, s, run, b);
    first := LastFrame(encode, After(encode, s, run), Onward(b, Finishes(run)));
  }

  lemma LaterState(encode: Encoder, s: System, run: seq<Action>, b: Burst)
    requires Reachable(encode, s) && Possible(encode, s, run) && b in s.p.bursts
    ensures Inv(encode, After(encode, s, run))
    ensures b.id in s.born && b.id in After(encode, s, run).born && After(encode, s, run).born[b.id] == s.born[b.id]
  {
    ReachableInv(encode, s);
    RunKeeps(encode, s, run);
    BurstIsBorn(encode, s, b);
    BirthsOverRun(encode, s, run);
  }

  lemma BurstIsBorn(encode: Encoder, s: System, b: Burst)
    requires Inv(encode, s) && b in s.p.bursts
    ensures b.id in s.born
  {
  }

  lemma {:induction false} BirthsOverRun(encode: Encoder, s: System, run: seq<Action>)
    requires Inv(encode, s) && Possible(encode, s, run)
    ensures forall id :: id in s.born ==>
      id in After(encode, s, run).born && After(encode, s, run).born[id] == s.born[id]
    decreases |run|
  {
    if run != [] {
      BirthsKept(encode, s, run[0]);
      InvKept(encode, s, run[0]);
      BirthsOverRun(encode, Next(encode, s, run[0]), run[1..]);
    }
  }

  lemma LastFrameEnds(p: Pipeline, q: Pipeline, first: int)
    requires InFlight(p, Playing) && p.bursts != [] && p.bursts[0].next + 1 == |p.bursts[0].frames|
    requires first == p.slot - p.bursts[0].next && q.air == p.air + [Played, Release]
    ensures 0 <= first && EndsWith(q.air, WholeBurst(p.bursts[0].id, p.bursts[0].frames, first))
  {
    var b := p.bursts[0];
    PlayedTail(b, p.air, p.slot);
    EndsWithMore(p.air + [Played], Aired(b.id, b.frames, first, |b.frames|), [Release]);
    assert (p.air + [Played]) + [Release] == q.air;
  }
}
