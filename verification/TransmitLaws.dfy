/** The laws of the transmit side, over every run and any number of restarts. */
module TransmitLaws {
  import opened Text
  import opened Outbound
  import opened Transmit
  import opened Scheduler
  import opened TransmitRuns
  import opened TransmitEffects
  import opened TransmitInvariants
  import opened TransmitAir
  import opened TransmitAudio

  // ---- Broadcasts do not outlive a restart ----

  predicate Broadcast(d: Draft) { d.kind.AllCall? || d.kind.Heartbeat? }

  /** The row that an event puts on the air. */
  function RowOf(x: AirEvent): Option<nat> {
    match x
    case KeyUp(id) => Some(id)
    case Frame(id, _, _, _) => Some(id)
    case _ => None
  }

  /** Since that restart, no broadcast from before it has been sent, and none
      is waiting to be. */
  ghost predicate Purges(s: System, m: BootMark) {
    && m.firstId <= s.nextId && m.firstEvent <= |s.p.air|
    && (forall id :: id in s.p.rows && id < m.firstId && Active(s.p.rows[id]) ==> !Broadcast(s.p.rows[id].draft))
    && (forall j :: m.firstEvent <= j < |s.p.air| && RowOf(s.p.air[j]).Some? && RowOf(s.p.air[j]).value < m.firstId
          ==> RowOf(s.p.air[j]).value in s.born && !Broadcast(s.born[RowOf(s.p.air[j]).value]))
  }

  lemma NewEvents(e: Effect, p: Pipeline, q: Pipeline)
    requires Coherent(p) && Has(e, p, q)
    ensures |p.air| <= |q.air| && q.air[..|p.air|] == p.air
    ensures forall j :: |p.air| <= j < |q.air| && RowOf(q.air[j]).Some? ==>
      RowOf(q.air[j]).value in p.rows && Active(p.rows[RowOf(q.air[j]).value])
  {
    if p.bursts != [] { assert p.bursts[0] in p.bursts; }
  }

  lemma ActiveBefore(encode: Encoder, s: System, a: Action, id: nat)
    requires Sound(s) && Enabled(s, a) && Ledger(s)
    requires var t := Next(encode, s, a); id in t.p.rows && Active(t.p.rows[id]) && id < s.nextId
    ensures id in s.p.rows && Active(s.p.rows[id]) && Next(encode, s, a).p.rows[id].draft == s.p.rows[id].draft
  {
    if !a.Restart? {
      StepFollows(encode, s, a);
      if Follows(s.p.rows, Next(encode, s, a).p.rows) {
        MoveKeepsAttempts(s.p.rows[id], Next(encode, s, a).p.rows[id]);
      }
    }
  }

  lemma BirthsKept(encode: Encoder, s: System, a: Action)
    requires Sound(s) && Enabled(s, a) && Ledger(s)
    ensures var t := Next(encode, s, a);
      s.nextId <= t.nextId && forall id :: id in s.born ==> id in t.born && t.born[id] == s.born[id]
  {
    if !a.Enqueue? { SameBirths(encode, s, a); }
  }

  lemma PurgesKept(encode: Encoder, s: System, a: Action, m: BootMark)
    requires Sound(s) && Enabled(s, a) && Ledger(s) && Purges(s, m)
    ensures Purges(Next(encode, s, a), m)
  {
    var t := Next(encode, s, a);
    var e := StepEffect(encode, s, a);
    NewEvents(e, s.p, t.p);
    BirthsKept(encode, s, a);
    forall id | id in t.p.rows && id < m.firstId && Active(t.p.rows[id]) ensures !Broadcast(t.p.rows[id].draft) {
      ActiveBefore(encode, s, a, id);
    }
    forall j | m.firstEvent <= j < |t.p.air| && RowOf(t.p.air[j]).Some? && RowOf(t.p.air[j]).value < m.firstId
      ensures RowOf(t.p.air[j]).value in t.born && !Broadcast(t.born[RowOf(t.p.air[j]).value])
    {
      if j < |s.p.air| { assert t.p.air[j] == s.p.air[j]; }
    }
  }

  ghost predicate AllPurge(s: System) {
    forall m :: m in s.boots ==> Purges(s, m)
  }

  lemma AllPurgeKept(encode: Encoder, s: System, a: Action)
    requires Sound(s) && Enabled(s, a) && Ledger(s) && AllPurge(s)
    ensures AllPurge(Next(encode, s, a))
  {
    var t := Next(encode, s, a);
    forall m | m in t.boots ensures Purges(t, m) {
      if m in s.boots { PurgesKept(encode, s, a, m); }
    }
  }

  // ---- The watchdog's clock ----

  /** While the watchdog is never late, and the clock did not step back as the
      burst began, it finds 20 s left for every frame still to be sent. */
  ghost predicate OnTime(s: System) {
    s.p.bursts != [] && !s.late && !s.stepped ==>
      var b := s.p.bursts[0];
      var left := |b.frames| - b.next + if SlotBegun(s.phase) then 0 else 1;
      s.lastWatch <= b.deadline - left as real * WATCHDOG_PER_FRAME
  }

  lemma OnTimeKept(encode: Encoder, s: System, a: Action)
    requires Sound(s) && Enabled(s, a) && OnTime(s)
    ensures OnTime(Next(encode, s, a))
  {
    if a.Advance? {
      var e := AdvanceEffect(encode, s.p, s.phase.held, a.pick, a.env);
    } else {
      var e := StepEffect(encode, s, a);
    }
  }

  // ---- The invariant ----

  ghost predicate AllCounted(encode: Encoder, s: System) {
    forall id: nat :: CountFits(encode, s.born, s.p, s.phase, id)
  }

  ghost predicate Inv(encode: Encoder, s: System) {
    && Sound(s) && Ledger(s) && OneSender(s.p) && HeldBy(s.p) && InFlight(s.p, s.phase)
    && AudioOk(encode, s) && CompleteSent(encode, s.p) && AllCounted(encode, s)
    && AllPurge(s) && OnTime(s)
  }

  lemma StartInv(encode: Encoder)
    ensures Inv(encode, START)
  {
    assert START.p.air == [];
    assert ActiveIds(START.p.rows) == {};
    forall id: nat ensures CountFits(encode, START.born, START.p, START.phase, id) {
      assert KeyUps([], id) == 0 && FramesSent([], id) == 0;
    }
  }

  lemma AirKept(encode: Encoder, s: System, a: Action)
    requires Inv(encode, s) && Enabled(s, a)
    ensures var t := Next(encode, s, a);
      OneSender(t.p) && HeldBy(t.p) && InFlight(t.p, t.phase) && CompleteSent(encode, t.p)
  {
    var t := Next(encode, s, a);
    var e := StepEffect(encode, s, a);
    OneSenderKept(e, s.p, t.p);
    HeldByKept(e, s.p, t.p);
    InFlightKept(e, s.p, t.p, s.phase, t.phase);
    CompleteSentKept(encode, e, s.p, t.p, s.phase, t.phase);
  }

  lemma AllCountedKept(encode: Encoder, s: System, a: Action)
    requires Inv(encode, s) && Enabled(s, a)
    ensures AllCounted(encode, Next(encode, s, a))
  {
    var t := Next(encode, s, a);
    var e := StepEffect(encode, s, a);
    BirthsKept(encode, s, a);
    NewRowIsNew(encode, s, a);
    FramesAreKept(encode, s, a);
    forall id: nat ensures CountFits(encode, t.born, t.p, t.phase, id) {
      CountFitsKept(encode, e, s.p, t.p, s.phase, t.phase, s.born, t.born, id);
    }
  }

  lemma NewRowIsNew(encode: Encoder, s: System, a: Action)
    requires Sound(s) && Enabled(s, a) && Ledger(s)
    ensures forall id :: id in Next(encode, s, a).p.rows && id !in s.p.rows ==> id !in s.born
  {
    if !a.Restart? { StepFollows(encode, s, a); }
  }

  /** Every step keeps the invariant. */
  lemma InvKept(encode: Encoder, s: System, a: Action)
    requires Inv(encode, s) && Enabled(s, a)
    ensures Inv(encode, Next(encode, s, a))
  {
    SoundKept(encode, s, a);
    LedgerKept(encode, s, a);
    AirKept(encode, s, a);
    AudioKept(encode, s, a);
    AllCountedKept(encode, s, a);
    AllPurgeKept(encode, s, a);
    OnTimeKept(encode, s, a);
  }

  // ---- Runs ----

  ghost predicate Possible(encode: Encoder, s: System, run: seq<Action>)
    decreases |run|
  {
    run == [] || (Sound(s) && Enabled(s, run[0]) && Possible(encode, Next(encode, s, run[0]), run[1..]))
  }

  ghost function After(encode: Encoder, s: System, run: seq<Action>): System
    requires Possible(encode, s, run)
    decreases |run|
  {
    if run == [] then s else After(encode, Next(encode, s, run[0]), run[1..])
  }

  lemma {:induction false} RunKeeps(encode: Encoder, s: System, run: seq<Action>)
    requires Inv(encode, s) && Possible(encode, s, run)
    ensures Inv(encode, After(encode, s, run))
    decreases |run|
  {
    if run != [] {
      InvKept(encode, s, run[0]);
      RunKeeps(encode, Next(encode, s, run[0]), run[1..]);
    }
  }

  /** A state that some run of the daemon, restarts included, can reach. */
  ghost predicate Reachable(encode: Encoder, s: System) {
    exists run :: Possible(encode, START, run) && After(encode, START, run) == s
  }

  lemma ReachableInv(encode: Encoder, s: System)
    requires Reachable(encode, s)
    ensures Inv(encode, s)
  {
    var run :| Possible(encode, START, run) && After(encode, START, run) == s;
    StartInv(encode);
    RunKeeps(encode, START, run);
  }

  // ---- Safety in every reachable state ----

  lemma {:induction false} AiredAt(id: nat, frames: Clip, first: nat, k: nat)
    requires k <= |frames|
    ensures var air := Aired(id, frames, first, k);
      && |air| == 2 * k + 1 && air[0] == KeyUp(id)
      && forall i :: 0 <= i < k ==>
           air[2 * i + 1] == Frame(id, i, frames[i], first + i) && air[2 * i + 2] == Played
  {
    if k > 0 { AiredAt(id, frames, first, k - 1); }
  }

  /** The events from `at` on are one transmission of these frames: PTT keyed
      for the row, frame `i` in slot `first + i` and played to its end, and
      nothing else until PTT is released. */
  ghost predicate Unbroken(air: Air, at: nat, id: nat, frames: Clip, first: nat) {
    && at + 2 * |frames| + 1 < |air| && air[at] == KeyUp(id)
    && (forall i :: 0 <= i < |frames| ==>
          air[at + 2 * i + 1] == Frame(id, i, frames[i], first + i) && air[at + 2 * i + 2] == Played)
    && air[at + 2 * |frames| + 1] == Release
  }

  lemma BlockAt(air: Air, block: Air, at: nat)
    requires SentAt(air, block, at)
    ensures forall i :: 0 <= i < |block| ==> air[at + i] == block[i]
  {
    forall i | 0 <= i < |block| ensures air[at + i] == block[i] {
      assert air[at..at + |block|][i] == air[at + i];
    }
  }

  lemma BlockIsUnbroken(air: Air, id: nat, frames: Clip, at: nat, first: nat)
    requires SentAt(air, WholeBurst(id, frames, first), at)
    ensures Unbroken(air, at, id, frames, first)
  {
    var block := WholeBurst(id, frames, first);
    AiredAt(id, frames, first, |frames|);
    BlockAt(air, block, at);
    assert block[0] == KeyUp(id) && block[2 * |frames| + 1] == Release;
    forall i | 0 <= i < |frames|
      ensures air[at + 2 * i + 1] == Frame(id, i, frames[i], first + i) && air[at + 2 * i + 2] == Played
    {
      assert block[2 * i + 1] == Frame(id, i, frames[i], first + i) && block[2 * i + 2] == Played;
      assert air[at + (2 * i + 1)] == block[2 * i + 1] && air[at + (2 * i + 2)] == block[2 * i + 2];
    }
  }

  lemma SentIsUnbroken(air: Air, id: nat, frames: Clip) returns (at: nat, first: nat)
    requires Sent(air, id, frames)
    ensures Unbroken(air, at, id, frames, first)
  {
    at, first :| SentAt(air, WholeBurst(id, frames, first), at);
    BlockIsUnbroken(air, id, frames, at, first);
  }

  /** A row awaits its ACK, or counts as delivered, only after one unbroken
      transmission of all the frames of its text, one a slot. */
  lemma WholeBurstSafety(encode: Encoder, s: System, id: nat) returns (at: nat, first: nat)
    requires Reachable(encode, s) && id in s.p.rows && Complete(s.p.rows[id])
    ensures id in s.born && encode(s.born[id].text).Some?
    ensures Unbroken(s.p.air, at, id, encode(s.born[id].text).value, first)
  {
    ReachableInv(encode, s);
    at, first := SentIsUnbroken(s.p.air, id, encode(s.p.rows[id].draft.text).value);
  }

  /** Over all restarts, a message is keyed at most three times and sends at
      most three times its frames. */
  lemma AirtimeBound(encode: Encoder, s: System, id: nat)
    requires Reachable(encode, s)
    ensures KeyUps(s.p.air, id) <= MAX_ATTEMPTS
    ensures FramesSent(s.p.air, id) <= MAX_ATTEMPTS * Length(encode, s.born, id)
    ensures id in s.p.rows ==> KeyUps(s.p.air, id) <= s.p.rows[id].attempts
  {
    ReachableInv(encode, s);
    assert CountFits(encode, s.born, s.p, s.phase, id);
    AtMostThrice(Length(encode, s.born, id), KeyUps(s.p.air, id));
    if s.p.bursts != [] { assert s.p.bursts[0] in s.p.bursts; }
  }

  lemma AtMostThrice(n: nat, k: nat)
    requires k <= MAX_ATTEMPTS
    ensures n * k <= MAX_ATTEMPTS * n
  {
    assert n * k <= n * MAX_ATTEMPTS;
  }

  /** PTT is keyed exactly while one transmission is in progress; its row is the
      only SENDING one; no transmission is dropped with PTT keyed; and on the
      air every frame went out under the PTT of its own row. */
  lemma PttAgrees(encode: Encoder, s: System)
    requires Reachable(encode, s)
    ensures s.p.keyed <==> |s.p.bursts| == 1
    ensures |s.p.bursts| <= 1
    ensures IdsIn(s.p.rows, Sending) == if s.p.keyed then {s.p.bursts[0].id} else {}
    ensures DropDead(s.p.rows, s.p.bursts) == s.p.bursts
    ensures Disciplined(s.p.air) && Holder(s.p.air) == if s.p.keyed then Some(s.p.bursts[0].id) else None
  {
    ReachableInv(encode, s);
    CoherentLives(s.p);
    if s.p.bursts != [] { assert s.p.bursts[0] in s.p.bursts; }
  }

  /** What is about to be sent, cached or encoded on the spot, is what the
      encoder makes of the row's text. */
  lemma FramesAreTheText(encode: Encoder, s: System, b: Burst)
    requires Reachable(encode, s) && b in s.p.bursts
    ensures b.id in s.born && encode(s.born[b.id].text) == Some(b.frames) && b.next < |b.frames|
  {
    ReachableInv(encode, s);
  }

  /** The cache misses a row to be sent exactly if it was enqueued past the
      worker, or was waiting for its ACK at the last restart. */
  lemma CacheMissIff(encode: Encoder, s: System, id: nat)
    requires Reachable(encode, s) && id in s.p.rows && s.p.rows[id].state.Queued?
    ensures id !in s.p.cache <==> id in s.cold
  {
    ReachableInv(encode, s);
  }

  /** Only encoded messages are enqueued, and none awaits its ACK at a restart. */
  ghost predicate Warm(s: System, a: Action) {
    (a.Enqueue? ==> !a.direct) && (a.Restart? ==> IdsIn(Recovered(s.p.rows), WaitAck) == {})
  }

  ghost predicate WarmRun(encode: Encoder, s: System, run: seq<Action>)
    requires Possible(encode, s, run)
    decreases |run|
  {
    run == [] || (Warm(s, run[0]) && WarmRun(encode, Next(encode, s, run[0]), run[1..]))
  }

  lemma {:induction false} WarmStaysWarm(encode: Encoder, s: System, run: seq<Action>)
    requires Possible(encode, s, run) && WarmRun(encode, s, run) && s.cold == {}
    ensures After(encode, s, run).cold == {}
    decreases |run|
  {
    if run != [] {
      assert Next(encode, s, run[0]).cold == {};
      WarmStaysWarm(encode, Next(encode, s, run[0]), run[1..]);
    }
  }

  /** In such runs every QUEUED row is cached, however the worker's steps and
      the scheduler's interleave: nothing is encoded on the spot. */
  lemma NeverEncodedLate(encode: Encoder, run: seq<Action>, id: nat)
    requires Possible(encode, START, run) && WarmRun(encode, START, run)
    requires var s := After(encode, START, run); id in s.p.rows && s.p.rows[id].state.Queued?
    ensures id in After(encode, START, run).p.cache
  {
    WarmStaysWarm(encode, START, run);
    CacheMissIff(encode, After(encode, START, run), id);
  }

  /** Cached audio belongs to unfinished rows, but for an ACK in progress. */
  lemma CacheIsBounded(encode: Encoder, s: System)
    requires Reachable(encode, s)
    ensures s.p.cache.Keys <= ActiveIds(s.p.rows) + (if s.settled.Some? then {s.settled.value} else {})
    ensures |ActiveIds(s.p.rows)| <= QUEUE_DEPTH && |s.p.cache| <= QUEUE_DEPTH + 1
  {
    ReachableInv(encode, s);
    CachedAreActive(encode, s);
    var active, settled := ActiveIds(s.p.rows), if s.settled.Some? then {s.settled.value} else {};
    UnionSize(active, settled);
    SubsetSize(s.p.cache.Keys, active + settled);
    assert |s.p.cache.Keys| == |s.p.cache|;
  }

  lemma CachedAreActive(encode: Encoder, s: System)
    requires CacheTrue(encode, s)
    ensures s.p.cache.Keys <= ActiveIds(s.p.rows) + (if s.settled.Some? then {s.settled.value} else {})
  {
  }

  lemma UnionSize(a: set<nat>, b: set<nat>)
    ensures |a + b| <= |a| + |b|
  {
    assert |a + b| == |a| + |b| - |a * b|;
  }

  /** After a restart, no broadcast enqueued before it is sent. */
  lemma NoStaleBroadcast(encode: Encoder, s: System, m: BootMark, j: nat)
    requires Reachable(encode, s) && m in s.boots && m.firstEvent <= j < |s.p.air|
    requires RowOf(s.p.air[j]).Some? && RowOf(s.p.air[j]).value < m.firstId
    ensures RowOf(s.p.air[j]).value in s.born && !Broadcast(s.born[RowOf(s.p.air[j]).value])
  {
    ReachableInv(encode, s);
    assert Purges(s, m);
  }

  /** The burst watchdog fires only if two of its rounds since the burst began
      were more than 20 s apart, unless the clock stepped back as it began. */
  lemma WatchdogNeedsAGap(encode: Encoder, s: System, now: real)
    requires Reachable(encode, s) && s.phase.Swept? && !s.stepped
    requires s.p.bursts != [] && now > s.p.bursts[0].deadline
    ensures WatchedAt(s, now).late
    ensures !s.late ==> now - s.lastWatch > WATCHDOG_PER_FRAME
  {
    ReachableInv(encode, s);
  }

  /** A burst is begun only with the gate open and PTT free, for the oldest
      QUEUED row, and not for one sent back to the queue in the same slot. */
  lemma NewBurstsAreGated(encode: Encoder, s: System, pick: Option<nat>, env: SlotEnv)
    requires Reachable(encode, s) && Enabled(s, Advance(pick, env))
    ensures Sound(s)
    ensures var t := Next(encode, s, Advance(pick, env));
      t.p.bursts != s.p.bursts ==>
        && s.p.bursts == [] && !s.p.keyed && env.gateOk && env.startOk
        && pick.Some? && Oldest(s.p.rows, Queued, pick.value) && pick.value !in s.phase.held
        && |t.p.bursts| == 1 && t.p.bursts[0].id == pick.value
        && t.p.rows[pick.value].attempts == s.p.rows[pick.value].attempts + 1
  {
    ReachableInv(encode, s);
    CoherentLives(s.p);
  }

  /** A row waits for its ACK until 90 s after its last attempt began, and no
      longer: the next sweep then queues it again, or gives it up after three. */
  lemma AckTimeoutIff(encode: Encoder, s: System, now: real, id: nat)
    requires Reachable(encode, s) && s.phase.Between? && id in s.p.rows && s.p.rows[id].state.WaitAck?
    ensures s.p.rows[id].lastTx.Some?
    ensures var r, t := s.p.rows[id], SweptAt(s, now);
      && id in t.p.rows
      && (t.p.rows[id] == r <==> now <= r.lastTx.value + ACK_TIMEOUT)
      && (t.p.rows[id] != r ==>
            && t.p.rows[id] == r.(state := if r.attempts < MAX_ATTEMPTS then Queued else Abandoned)
            && (id in t.phase.held <==> r.attempts < MAX_ATTEMPTS))
  {
    ReachableInv(encode, s);
    assert AttemptsFit(s.p.rows[id]);
  }

  // ---- Finished rows stay finished ----

  lemma FinishedStays(encode: Encoder, s: System, a: Action, id: nat)
    requires Inv(encode, s) && Enabled(s, a) && id in s.p.rows && !Active(s.p.rows[id])
    ensures id in Next(encode, s, a).p.rows && Next(encode, s, a).p.rows[id] == s.p.rows[id]
  {
    if !a.Restart? { StepFollows(encode, s, a); }
  }

  /** No run, restarts included, changes a DELIVERED or ABANDONED row. */
  lemma {:induction false} FinishedForever(encode: Encoder, s: System, run: seq<Action>, id: nat)
    requires Inv(encode, s) && Possible(encode, s, run) && id in s.p.rows && !Active(s.p.rows[id])
    ensures id in After(encode, s, run).p.rows && After(encode, s, run).p.rows[id] == s.p.rows[id]
    decreases |run|
  {
    if run != [] {
      FinishedStays(encode, s, run[0], id);
      InvKept(encode, s, run[0]);
      FinishedForever(encode, Next(encode, s, run[0]), run[1..], id);
    }
  }
}
