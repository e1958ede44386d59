/** The objects of the transmit path: the audio cache, the encode worker, the
    transmitter, and the scheduler that drives them once a slot. */
module Scheduler {
  import opened Text
  import opened Sequences
  import opened Outbound
  import opened Transmit

  class EncodedAudioCache {
    var audio: map<nat, Clip>

    constructor ()
      ensures audio == map[]
    {
      audio := map[];
    }

    method Put(id: nat, frames: Clip)
      modifies this
      ensures audio == old(audio)[id := frames]
    {
      audio := audio[id := frames];
    }

    method Get(id: nat) returns (frames: Option<Clip>)
      ensures frames == if id in audio then Some(audio[id]) else None
    {
      frames := if id in audio then Some(audio[id]) else None;
    }

    method Discard(id: nat)
      modifies this
      ensures audio == old(audio) - {id}
    {
      audio := audio - {id};
    }
  }

  /** The radio and its modem. The answers of the hardware are parameters. */
  class Transmitter {
    const encode: Encoder
    var keyed: bool
    ghost var air: seq<AirEvent>

    constructor (encode: Encoder)
      ensures this.encode == encode && !keyed && air == []
    {
      this.encode := encode;
      keyed, air := false, [];
    }

    /** Starting a second burst would be a programming error. */
    method StartBurst(ghost id: nat, ok: bool)
      requires !keyed
      modifies this
      ensures keyed == ok && air == if ok then old(air) + [KeyUp(id)] else old(air)
    {
      if ok {
        keyed := true;
        air := air + [KeyUp(id)];
      }
    }

    /** A frame can be sent only inside a burst; PTT stays as it is. */
    method TransmitFrame(ghost id: nat, ghost index: nat, audio: Audio, ghost slot: nat, ok: bool)
      requires keyed
      modifies this`air
      ensures air == old(air) + [Frame(id, index, audio, slot)] + (if ok then [Played] else [])
    {
      air := air + [Frame(id, index, audio, slot)] + (if ok then [Played] else []);
    }

    method EndBurst()
      modifies this
      ensures !keyed && air == if old(keyed) then old(air) + [Release] else old(air)
    {
      if keyed {
        keyed := false;
        air := air + [Release];
      }
    }
  }

  class EncodeWorker {
    const queue: OutboundQueue
    const cache: EncodedAudioCache
    const encode: Encoder

    constructor (queue: OutboundQueue, cache: EncodedAudioCache, encode: Encoder)
      ensures this.queue == queue && this.cache == cache && this.encode == encode
    {
      this.queue, this.cache, this.encode := queue, cache, encode;
    }

    /** Encodes the oldest pending row: its audio is cached before the row
        becomes QUEUED, and a row that cannot be encoded is given up. */
    method Tick() returns (id: Option<nat>)
      requires queue.Valid()
      modifies queue`rows, cache
      ensures queue.Valid()
      ensures id.None? <==> IdsIn(old(queue.rows), Encoding) == {}
      ensures id.None? ==> queue.rows == old(queue.rows) && cache.audio == old(cache.audio)
      ensures id.Some? ==> Oldest(old(queue.rows), Encoding, id.value)
      ensures id.Some? ==>
        match encode(old(queue.rows)[id.value].draft.text)
        case Some(frames) =>
          && cache.audio == old(cache.audio)[id.value := frames]
          && queue.rows == SetState(old(queue.rows), id.value, Queued)
        case None =>
          && cache.audio == old(cache.audio)
          && queue.rows == SetState(old(queue.rows), id.value, Abandoned)
    {
      id := queue.PickNextEncoding();
      if id.None? { return; }
      var frames := encode(queue.rows[id.value].draft.text);
      if frames.None? {
        queue.UpdateState(id.value, Abandoned);
        return;
      }
      cache.Put(id.value, frames.value);
      queue.MarkEncoded(id.value);
    }
  }

  class TxScheduler {
    const queue: OutboundQueue
    const cache: EncodedAudioCache
    const radio: Transmitter
    var bursts: seq<Burst>
    ghost var slot: nat

    constructor (queue: OutboundQueue, cache: EncodedAudioCache, radio: Transmitter)
      ensures this.queue == queue && this.cache == cache && this.radio == radio
      ensures bursts == [] && slot == 0
    {
      this.queue, this.cache, this.radio := queue, cache, radio;
      bursts, slot := [], 0;
    }

    ghost function Pipe(): Pipeline
      reads this, queue, cache, radio
    {
      Pipeline(queue.rows, cache.audio, bursts, radio.keyed, radio.air, slot)
    }

    /** PTT is keyed exactly while there is a transmission, there is at most
        one, and it belongs to a SENDING row. */
    ghost predicate Valid()
      reads this, queue, cache, radio
    {
      queue.Valid() && Coherent(Pipe())
    }

    /** Gives a row up, or sends it back to the queue. */
    method SettleTimeout(id: nat) returns (retry: bool)
      requires queue.Valid() && id in queue.rows
      modifies queue`rows, cache
      ensures queue.Valid() && retry == (old(queue.rows)[id].attempts < MAX_ATTEMPTS)
      ensures Pipe() == Failed(old(Pipe()), id)
    {
      retry := queue.rows[id].attempts < MAX_ATTEMPTS;
      if retry {
        queue.UpdateState(id, Queued);
      } else {
        queue.UpdateState(id, Abandoned);
        cache.Discard(id);
      }
    }

    /** The rows left to retry are the ones not to pick in this slot. */
    method ProcessAckTimeouts(now: real) returns (retried: set<nat>)
      requires queue.Valid()
      modifies queue`rows, cache
      ensures queue.Valid()
      ensures Pipe() == AfterSweep(old(Pipe()), now) && retried == Retried(old(queue.rows), now)
    {
      ghost var before := Pipe();
      var pending := queue.FindTimedOutAcks(now);
      retried := {};
      while pending != {}
        invariant queue.Valid() && pending <= TimedOutIds(before.rows, now)
        invariant Pipe() == PartSwept(before, now, pending)
        invariant retried == Retried(before.rows, now) - pending
        decreases pending
      {
        var id :| id in pending;
        SweepNext(before, now, pending, id);
        var retry := SettleTimeout(id);
        pending := pending - {id};
        if retry { retried := retried + {id}; }
      }
    }

    /** Releases PTT and gives the row up. */
    method ForceEnd(id: nat)
      requires queue.Valid()
      modifies queue`rows, cache, radio
      ensures queue.Valid()
      ensures Pipe() == var p := old(Pipe());
        Released(p).(rows := SetState(p.rows, id, Abandoned), cache := p.cache - {id})
    {
      radio.EndBurst();
      queue.UpdateState(id, Abandoned);
      cache.Discard(id);
    }

    /** One entry of the watchdog's round; `before` is where the round began. */
    method ReviewBurst(entries: seq<Burst>, i: nat, kept: seq<Burst>, now: real, ghost before: Pipeline)
      returns (keeps: seq<Burst>)
      requires queue.Valid() && i < |entries| && bursts == kept + entries[i..]
      requires Watched(before, entries[..i], now, kept, Pipe())
      modifies this`bursts, queue`rows, cache, radio
      ensures queue.Valid() && bursts == keeps + entries[i + 1..]
      ensures Watched(before, entries[..i + 1], now, keeps, Pipe())
    {
      ghost var q := Pipe();
      if now > entries[i].deadline {
        ForceEnd(entries[i].id);
        bursts := kept + entries[i + 1..];
        WatchCut(before, entries, now, kept, q, Pipe(), i);
        keeps := kept;
      } else {
        WatchKeep(before, entries, now, kept, q, i);
        keeps := kept + [entries[i]];
      }
    }

    method CheckBurstWatchdog(now: real)
      requires queue.Valid()
      modifies this`bursts, queue`rows, cache, radio
      ensures queue.Valid() && Pipe() == AfterWatchdog(old(Pipe()), now)
    {
      ghost var before := Pipe();
      var entries, kept, i := bursts, [], 0;
      while i < |entries|
        invariant i <= |entries| && queue.Valid() && bursts == kept + entries[i..]
        invariant Watched(before, entries[..i], now, kept, Pipe())
      {
        kept := ReviewBurst(entries, i, kept, now, before);
        i := i + 1;
      }
      assert entries[..i] == entries;
    }

    /** A transmission in progress comes first; otherwise the oldest QUEUED
        row, unless it was sent back to the queue in this slot. */
    method PickForThisSlot(skip: set<nat>) returns (row: Option<nat>, continuing: bool, ghost pick: Option<nat>)
      modifies this`bursts
      ensures bursts == DropDead(queue.rows, old(bursts))
      ensures continuing <==> bursts != []
      ensures continuing ==> row == Some(bursts[0].id)
      ensures if continuing then pick == None else Picks(queue.rows, pick)
      ensures !continuing ==> row == if pick.Some? && pick.value !in skip then pick else None
    {
      pick := None;
      while bursts != []
        invariant DropDead(queue.rows, bursts) == DropDead(queue.rows, old(bursts))
        decreases |bursts|
      {
        if bursts[0].id in queue.rows && queue.rows[bursts[0].id].state.Sending? {
          return Some(bursts[0].id), true, None;
        }
        bursts := bursts[1..];
      }
      continuing := false;
      row := queue.PickNext();
      pick := row;
      if row.Some? && row.value in skip { row := None; }
    }

    method FailMessage(id: nat)
      requires queue.Valid() && id in queue.rows
      modifies queue`rows, cache
      ensures queue.Valid() && Pipe() == Failed(old(Pipe()), id)
    {
      if queue.rows[id].attempts >= MAX_ATTEMPTS {
        queue.UpdateState(id, Abandoned);
        cache.Discard(id);
      } else {
        queue.UpdateState(id, Queued);
      }
    }

    /** The start of a burst, up to the moment its first frame can go out. */
    method OpenBurst(id: nat, env: SlotEnv) returns (up: bool)
      requires queue.Valid() && id in queue.rows && bursts == [] && !radio.keyed
      modifies this`bursts, queue`rows, cache, radio
      ensures queue.Valid()
      ensures Readies(StartBurst(radio.encode, old(Pipe()), id, env), Pipe(), up)
    {
      var frames := cache.Get(id);
      if frames.None? { frames := radio.encode(queue.rows[id].draft.text); }
      if frames.None? {
        queue.MarkAttempt(id, env.markNow);
        queue.UpdateState(id, Abandoned);
        cache.Discard(id);
        return false;
      }
      radio.StartBurst(id, env.startOk);
      if !env.startOk {
        queue.MarkAttempt(id, env.markNow);
        FailMessage(id);
        return false;
      }
      bursts := [Burst(id, frames.value, 0, env.startNow + |frames.value| as real * WATCHDOG_PER_FRAME)];
      queue.MarkAttempt(id, env.markNow);
      return true;
    }

    /** Plays the next frame of the transmission and settles its row. */
    method SendFrame(ok: bool)
      requires queue.Valid() && bursts != [] && radio.keyed && OnAir(queue.rows, bursts[0])
      requires bursts[0].next < |bursts[0].frames|
      modifies this`bursts, queue`rows, cache, radio
      ensures queue.Valid() && Pipe() == AfterFinish(StartFrame(old(Pipe())), ok)
    {
      var b := bursts[0];
      radio.TransmitFrame(b.id, b.next, b.frames[b.next], slot, ok);
      if !ok {
        radio.EndBurst();
        bursts := bursts[1..];
        FailMessage(b.id);
      } else if b.next + 1 < |b.frames| {
        bursts := [b.(next := b.next + 1)] + bursts[1..];
      } else {
        radio.EndBurst();
        bursts := bursts[1..];
        if FireAndForget(queue.rows[b.id].draft) {
          queue.UpdateState(b.id, Delivered);
          cache.Discard(b.id);
        } else {
          queue.UpdateState(b.id, WaitAck);
        }
      }
    }

    /** The choice of a row and the start of its burst. */
    method ReadyFrame(held: set<nat>, env: SlotEnv) returns (sending: bool, ghost pick: Option<nat>)
      requires Valid()
      modifies this`bursts, queue`rows, cache, radio
      ensures queue.Valid()
      ensures pick.Some? ==> pick.value in old(queue.rows)
      ensures old(bursts) == [] ==> Picks(old(queue.rows), pick)
      ensures Readies(Proceed(radio.encode, old(Pipe()), held, pick, env), Pipe(), sending)
    {
      CoherentLives(Pipe());
      var row, continuing;
      row, continuing, pick := PickForThisSlot(held);
      sending := row.Some? && (continuing || env.gateOk);
      if sending && !continuing {
        sending := OpenBurst(row.value, env);
      }
    }

    /** The watchdog's round at the start of a slot. */
    method OpenSlot(now: real)
      requires Valid()
      modifies this, queue`rows, cache, radio
      ensures Valid() && queue.rows.Keys == old(queue.rows.Keys)
      ensures var p := old(Pipe()); Pipe() == AfterWatchdog(p, now).(slot := p.slot + 1)
    {
      WatchdogCoherent(Pipe(), now);
      CheckBurstWatchdog(now);
      slot := slot + 1;
    }

    /** Everything before the slot's frame is played. */
    method BeginSlot(held: set<nat>, env: SlotEnv) returns (sending: bool, ghost pick: Option<nat>)
      requires Valid()
      modifies this, queue`rows, cache, radio
      ensures queue.Valid()
      ensures pick.Some? ==> pick.value in old(queue.rows)
      ensures var w := AfterWatchdog(old(Pipe()), env.watchNow); w.bursts == [] ==> Picks(w.rows, pick)
      ensures Readies(AfterBegin(radio.encode, old(Pipe()), held, pick, env), Pipe(), sending)
    {
      ghost var p := Pipe();
      OpenSlot(env.watchNow);
      ghost var q := Pipe();
      sending, pick := ReadyFrame(held, env);
      BeginProceeds(radio.encode, p, q, held, pick, env, Pipe(), sending);
    }

    /** One slot: no burst is ever started while another holds PTT, and no
        frame goes out without it. */
    method Tick(env: SlotEnv) returns (ghost pick: Option<nat>)
      requires Valid()
      modifies this, queue`rows, cache, radio
      ensures Valid()
      ensures TickPicks(old(Pipe()), pick, env)
      ensures Pipe() == AfterTick(radio.encode, old(Pipe()), pick, env)
    {
      SweepCoherent(Pipe(), env.sweepNow);
      var retried := ProcessAckTimeouts(env.sweepNow);
      ghost var swept := Pipe();
      var sending;
      sending, pick := BeginSlot(retried, env);
      BeginCoherent(radio.encode, swept, retried, pick, env);
      BeginSends(radio.encode, swept, retried, pick, env);
      if sending {
        FinishCoherent(StartFrame(Pipe()), env.frameOk);
        SendFrame(env.frameOk);
      }
    }
  }

  /** At most one transmission, of a SENDING row, exactly while PTT is keyed. */
  ghost predicate Coherent(p: Pipeline) {
    && |p.bursts| <= 1
    && (p.keyed <==> p.bursts != [])
    && forall b :: b in p.bursts ==> OnAir(p.rows, b) && b.next < |b.frames|
  }

  /** `pick` is what the queue offers after the timeouts and the watchdog. */
  ghost predicate TickPicks(p: Pipeline, pick: Option<nat>, env: SlotEnv) {
    var w := AfterWatchdog(AfterSweep(p, env.sweepNow), env.watchNow);
    (w.bursts == [] ==> Picks(w.rows, pick)) && (pick.Some? ==> pick.value in p.rows)
  }

  /** `q` is where `r` gets to, but for the frame itself. */
  ghost predicate Readies(r: Begun, q: Pipeline, sending: bool) {
    && sending == r.sending
    && (if sending then q.bursts != [] && q.bursts[0].next < |q.bursts[0].frames| && r.p == StartFrame(q) else q == r.p)
  }

  /** The sweep of acknowledgement timeouts, but for those still pending. */
  ghost function PartSwept(p: Pipeline, now: real, pending: set<nat>): Pipeline {
    p.(rows := map id | id in p.rows ::
         if TimedOut(p.rows[id], now) && id !in pending then p.rows[id].(state := Verdict(p.rows[id])) else p.rows[id],
       cache := p.cache - (Exhausted(p.rows, now) - pending))
  }

  lemma SweepNext(p: Pipeline, now: real, pending: set<nat>, id: nat)
    requires id in pending && pending <= TimedOutIds(p.rows, now)
    ensures id in PartSwept(p, now, pending).rows && PartSwept(p, now, pending).rows[id] == p.rows[id]
    ensures PartSwept(p, now, pending - {id}) == Failed(PartSwept(p, now, pending), id)
  {
    var q := PartSwept(p, now, pending);
    assert PartSwept(p, now, pending - {id}).rows == SetState(q.rows, id, Verdict(q.rows[id]));
    if p.rows[id].attempts >= MAX_ATTEMPTS {
      assert p.cache - (Exhausted(p.rows, now) - (pending - {id})) == q.cache - {id};
    } else {
      assert Exhausted(p.rows, now) - (pending - {id}) == Exhausted(p.rows, now) - pending;
    }
  }

  /** The watchdog's loop, once it has been through `seen`. */
  ghost predicate Watched(p: Pipeline, seen: seq<Burst>, now: real, kept: seq<Burst>, q: Pipeline) {
    kept == Filter(seen, InTime(now)) && q == Cut(p, LateIds(seen, now)).(bursts := q.bursts)
  }

  lemma WatchKeep(p: Pipeline, entries: seq<Burst>, now: real, kept: seq<Burst>, q: Pipeline, i: nat)
    requires i < |entries| && Watched(p, entries[..i], now, kept, q) && now <= entries[i].deadline
    ensures Watched(p, entries[..i + 1], now, kept + [entries[i]], q)
    ensures kept + entries[i..] == (kept + [entries[i]]) + entries[i + 1..]
  {
    FilterNext(entries, i, InTime(now));
    LateNext(entries, now, i);
    assert LateIds(entries[..i + 1], now) == LateIds(entries[..i], now);
    MoveBoundary(kept, entries, i);
  }

  lemma MoveBoundary(kept: seq<Burst>, entries: seq<Burst>, i: nat)
    requires i < |entries|
    ensures kept + entries[i..] == (kept + [entries[i]]) + entries[i + 1..]
  {
    assert entries[i..] == [entries[i]] + entries[i + 1..];
  }

  lemma WatchCut(p: Pipeline, entries: seq<Burst>, now: real, kept: seq<Burst>, q: Pipeline, r: Pipeline, i: nat)
    requires i < |entries| && Watched(p, entries[..i], now, kept, q) && now > entries[i].deadline
    requires r == Released(q).(rows := SetState(q.rows, entries[i].id, Abandoned), cache := q.cache - {entries[i].id},
                               bursts := r.bursts)
    ensures Watched(p, entries[..i + 1], now, kept, r)
  {
    var ids, id := LateIds(entries[..i], now), entries[i].id;
    FilterNext(entries, i, InTime(now));
    LateNext(entries, now, i);
    CutOne(p, ids, id);
  }

  lemma CutOne(p: Pipeline, ids: set<nat>, id: nat)
    ensures var w := Cut(p, ids);
      Cut(p, ids + {id}) == Released(w).(rows := SetState(w.rows, id, Abandoned), cache := w.cache - {id})
  {
    AbandonOne(p.rows, ids, id);
    if ids == {} {
      assert p.rows == AbandonAll(p.rows, {});
      assert ids + {id} == {id};
    } else {
      assert (p.cache - ids) - {id} == p.cache - (ids + {id});
    }
  }

  lemma LateNext(bs: seq<Burst>, now: real, i: nat)
    requires i < |bs|
    ensures LateIds(bs[..i + 1], now) == LateIds(bs[..i], now) + (if now > bs[i].deadline then {bs[i].id} else {})
  {
    assert bs[..i + 1] == bs[..i] + [bs[i]];
  }

  lemma AbandonOne(t: Table, ids: set<nat>, id: nat)
    ensures AbandonAll(t, ids + {id}) == SetState(AbandonAll(t, ids), id, Abandoned)
  {
  }

  // ---- One transmission at a time ----

  lemma WatchdogCoherent(p: Pipeline, now: real)
    requires Coherent(p)
    ensures var w := AfterWatchdog(p, now); Coherent(w) && (w.bursts == p.bursts || w.bursts == [])
  {
    if p.bursts != [] {
      assert p.bursts[0].id in LateIds(p.bursts, now) <==> now > p.bursts[0].deadline;
      assert p.bursts == [p.bursts[0]] && p.bursts[0] in p.bursts;
      assert Filter([p.bursts[0]][1..], InTime(now)) == [];
    }
  }

  /** No transmission is ever dropped with PTT keyed. */
  lemma CoherentLives(p: Pipeline)
    requires Coherent(p)
    ensures DropDead(p.rows, p.bursts) == p.bursts
  {
    if p.bursts != [] { assert p.bursts[0] in p.bursts; }
  }

  lemma SweepCoherent(p: Pipeline, now: real)
    requires Coherent(p)
    ensures Coherent(AfterSweep(p, now))
  {
  }

  lemma BeginCoherent(encode: Encoder, p: Pipeline, held: set<nat>, pick: Option<nat>, env: SlotEnv)
    requires Coherent(p) && (pick.Some? ==> pick.value in p.rows)
    ensures Coherent(AfterBegin(encode, p, held, pick, env).p)
  {
    WatchdogCoherent(p, env.watchNow);
    CoherentLives(AfterWatchdog(p, env.watchNow));
  }

  lemma BeginProceeds(encode: Encoder, p: Pipeline, q: Pipeline, held: set<nat>, pick: Option<nat>, env: SlotEnv,
                      r: Pipeline, sending: bool)
    requires BurstsOpen(p) && BurstsOpen(q) && (pick.Some? ==> pick.value in p.rows && pick.value in q.rows)
    requires q == AfterWatchdog(p, env.watchNow).(slot := p.slot + 1)
    requires Readies(Proceed(encode, q, held, pick, env), r, sending)
    ensures Readies(AfterBegin(encode, p, held, pick, env), r, sending)
  {
    assert AfterBegin(encode, p, held, pick, env) == Proceed(encode, q, held, pick, env);
  }

  lemma FinishCoherent(p: Pipeline, ok: bool)
    requires Coherent(p) && p.bursts != [] && p.bursts[0] in p.bursts
    ensures Coherent(AfterFinish(p, ok))
  {
    assert p.bursts[1..] == [];
  }
}
