/** What has been on the air: one transmission at a time, whole bursts in
    consecutive slots, and no more of them than attempts. */
module TransmitAir {
  import opened Text
  import opened Outbound
  import opened Transmit
  import opened Scheduler
  import opened TransmitRuns
  import opened TransmitEffects

  type Air = seq<AirEvent>

  function Init(air: Air): Air requires air != [] { air[..|air| - 1] }

  function Last(air: Air): AirEvent requires air != [] { air[|air| - 1] }

  // ---- Who holds PTT ----

  /** The row for which PTT is keyed after these events. */
  function Holder(air: Air): Option<nat> {
    if air == [] then None
    else
      match Last(air)
      case KeyUp(id) => Some(id)
      case Release => None
      case Boot => None
      case Frame(_, _, _, _) => Holder(Init(air))
      case Played => Holder(Init(air))
  }

  /** PTT is keyed only when free, and a frame is sent only under the PTT of
      its own row. */
  ghost predicate Disciplined(air: Air) {
    forall i :: 0 <= i < |air| ==>
      match air[i]
      case KeyUp(_) => Holder(air[..i]).None?
      case Frame(id, _, _, _) => Holder(air[..i]) == Some(id)
      case Played => Holder(air[..i]).Some?
      case Release => Holder(air[..i]).Some?
      case Boot => true
  }

  lemma HolderNext(air: Air, x: AirEvent)
    ensures Holder(air + [x]) == match x
      case KeyUp(id) => Some(id)
      case Frame(_, _, _, _) => Holder(air)
      case Played => Holder(air)
      case Release => None
      case Boot => None
  {
    assert Init(air + [x]) == air;
  }

  lemma DisciplineNext(air: Air, x: AirEvent)
    requires Disciplined(air)
    requires match x
      case KeyUp(_) => Holder(air).None?
      case Frame(id, _, _, _) => Holder(air) == Some(id)
      case Played => Holder(air).Some?
      case Release => Holder(air).Some?
      case Boot => true
    ensures Disciplined(air + [x])
  {
    var next := air + [x];
    forall i | 0 <= i < |next| ensures next[..i] == air[..i] && (i < |air| ==> next[i] == air[i]) {}
    assert air[..|air|] == air;
  }

  ghost predicate HeldBy(p: Pipeline) {
    && Disciplined(p.air)
    && Holder(p.air) == if p.bursts == [] then None else Some(p.bursts[0].id)
  }

  lemma HeldByKept(e: Effect, p: Pipeline, q: Pipeline)
    requires Coherent(p) && HeldBy(p) && Has(e, p, q)
    ensures HeldBy(q)
  {
    match e
    case Quiet =>
    case NewSlot =>
    case CutShort => HolderNext(p.air, Release); DisciplineNext(p.air, Release);
    case Opened(b, at) =>
      TwoNext(p.air, KeyUp(b.id), FrameOf(b, p.slot));
    case Continued =>
      HolderNext(p.air, FrameOf(p.bursts[0], p.slot));
      DisciplineNext(p.air, FrameOf(p.bursts[0], p.slot));
    case FrameFailed => HolderNext(p.air, Release); DisciplineNext(p.air, Release);
    case FramePlayed => HolderNext(p.air, Played); DisciplineNext(p.air, Played);
    case Completed => TwoNext(p.air, Played, Release);
    case Rebooted => HolderNext(p.air, Boot); DisciplineNext(p.air, Boot);
  }

  lemma TwoNext(air: Air, x: AirEvent, y: AirEvent)
    requires Disciplined(air)
    requires (x.KeyUp? && Holder(air).None? && y.Frame? && y.id == x.id)
          || (x.Played? && Holder(air).Some? && y.Release?)
    ensures Disciplined(air + [x, y])
    ensures Holder(air + [x, y]) == if x.KeyUp? then Some(x.id) else None
  {
    HolderNext(air, x);
    DisciplineNext(air, x);
    HolderNext(air + [x], y);
    DisciplineNext(air + [x], y);
    assert (air + [x]) + [y] == air + [x, y];
  }

  // ---- Whole bursts ----

  /** PTT keyed and the first `k` frames played, one a slot. */
  function Aired(id: nat, frames: Clip, first: nat, k: nat): Air
    requires k <= |frames|
  {
    if k == 0 then [KeyUp(id)]
    else Aired(id, frames, first, k - 1) + [Frame(id, k - 1, frames[k - 1], first + k - 1), Played]
  }

  /** A whole burst, from keying PTT to releasing it. */
  function WholeBurst(id: nat, frames: Clip, first: nat): Air {
    Aired(id, frames, first, |frames|) + [Release]
  }

  ghost predicate EndsWith(air: Air, tail: Air) {
    |tail| <= |air| && air[|air| - |tail|..] == tail
  }

  ghost predicate SentAt(air: Air, block: Air, at: nat) {
    at + |block| <= |air| && air[at..at + |block|] == block
  }

  /** Somewhere on the air, unbroken, is a whole burst of the row. */
  ghost predicate Sent(air: Air, id: nat, frames: Clip) {
    exists at: nat, first: nat :: SentAt(air, WholeBurst(id, frames, first), at)
  }

  /** The air ends with the part of the transmission that has been played, and
      the frame being played. */
  ghost predicate InFlight(p: Pipeline, phase: Phase) {
    p.bursts != [] ==>
      var b, slots := p.bursts[0], p.slot + if SlotBegun(phase) then 0 else 1;
      && b.next < |b.frames| && b.next <= slots
      && EndsWith(p.air, Aired(b.id, b.frames, slots - b.next, b.next)
                         + if phase.Playing? then [FrameOf(b, p.slot)] else [])
  }

  lemma EndsWithMore(air: Air, tail: Air, more: Air)
    requires EndsWith(air, tail)
    ensures EndsWith(air + more, tail + more)
  {
    var n := |air| - |tail|;
    assert (air + more)[n..] == air[n..] + more;
  }

  lemma SentStays(air: Air, more: Air, id: nat, frames: Clip)
    requires Sent(air, id, frames)
    ensures Sent(air + more, id, frames)
  {
    var at: nat, first: nat :| SentAt(air, WholeBurst(id, frames, first), at);
    var n := at + |WholeBurst(id, frames, first)|;
    assert (air + more)[at..n] == air[at..n];
    assert SentAt(air + more, WholeBurst(id, frames, first), at);
  }

  lemma InFlightKept(e: Effect, p: Pipeline, q: Pipeline, from: Phase, to: Phase)
    requires Coherent(p) && InFlight(p, from) && Has(e, p, q) && PhaseFits(e, p, from, to)
    ensures InFlight(q, to)
  {
    match e
    case Opened(b, at) =>
      assert EndsWith(q.air, [KeyUp(b.id), FrameOf(b, p.slot)]);
      assert Aired(b.id, b.frames, p.slot, 0) + [FrameOf(b, p.slot)] == [KeyUp(b.id), FrameOf(b, p.slot)];
    case Continued => ContinuedInFlight(p, q);
    case FramePlayed => PlayedInFlight(p, q);
    case _ =>
  }

  lemma ContinuedInFlight(p: Pipeline, q: Pipeline)
    requires InFlight(p, Watched({})) && Has(Continued, p, q)
    ensures InFlight(q, Playing)
  {
    var b := p.bursts[0];
    var tail := Aired(b.id, b.frames, p.slot - b.next, b.next);
    assert tail + [] == tail;
    EndsWithMore(p.air, tail, [FrameOf(b, p.slot)]);
  }

  lemma PlayedInFlight(p: Pipeline, q: Pipeline)
    requires InFlight(p, Playing) && Has(FramePlayed, p, q)
    ensures InFlight(q, Between)
  {
    var b := p.bursts[0];
    PlayedTail(b, p.air, p.slot);
    var tail := Aired(b.id, b.frames, p.slot - b.next, b.next + 1);
    assert tail + [] == tail;
  }

  lemma PlayedTail(b: Burst, air: Air, slot: nat)
    requires b.next < |b.frames| && b.next <= slot
    requires EndsWith(air, Aired(b.id, b.frames, slot - b.next, b.next) + [FrameOf(b, slot)])
    ensures EndsWith(air + [Played], Aired(b.id, b.frames, slot - b.next, b.next + 1))
  {
    var tail := Aired(b.id, b.frames, slot - b.next, b.next);
    EndsWithMore(air, tail + [FrameOf(b, slot)], [Played]);
    assert (tail + [FrameOf(b, slot)]) + [Played] == tail + [FrameOf(b, slot), Played];
  }

  /** The last frame completes an unbroken burst. */
  lemma CompletedIsSent(p: Pipeline, q: Pipeline)
    requires InFlight(p, Playing) && Has(Completed, p, q)
    ensures Sent(q.air, p.bursts[0].id, p.bursts[0].frames)
  {
    var b := p.bursts[0];
    var first, n := p.slot - b.next, |q.air|;
    PlayedTail(b, p.air, p.slot);
    EndsWithMore(p.air + [Played], Aired(b.id, b.frames, first, |b.frames|), [Release]);
    assert (p.air + [Played]) + [Release] == q.air;
    var block := WholeBurst(b.id, b.frames, first);
    assert q.air[n - |block|..n] == q.air[n - |block|..];
    assert SentAt(q.air, block, n - |block|);
  }

  // ---- Complete rows were sent ----

  ghost predicate FramesAre(encode: Encoder, p: Pipeline) {
    forall b :: b in p.bursts ==> b.id in p.rows && encode(p.rows[b.id].draft.text) == Some(b.frames)
  }

  ghost predicate CompleteSent(encode: Encoder, p: Pipeline) {
    forall id :: id in p.rows && Complete(p.rows[id]) ==>
      encode(p.rows[id].draft.text).Some? && Sent(p.air, id, encode(p.rows[id].draft.text).value)
  }

  lemma CompleteSentKept(encode: Encoder, e: Effect, p: Pipeline, q: Pipeline, from: Phase, to: Phase)
    requires Coherent(p) && FramesAre(encode, p) && CompleteSent(encode, p) && InFlight(p, from)
    requires Has(e, p, q) && PhaseFits(e, p, from, to)
    ensures CompleteSent(encode, q)
  {
    forall id | id in q.rows && Complete(q.rows[id])
      ensures encode(q.rows[id].draft.text).Some? && Sent(q.air, id, encode(q.rows[id].draft.text).value)
    {
      if e.Completed? && id == p.bursts[0].id {
        assert p.bursts[0] in p.bursts;
        CompletedIsSent(p, q);
      } else {
        OldComplete(e, p, q, id);
        SentStays(p.air, q.air[|p.air|..], id, encode(p.rows[id].draft.text).value);
        assert q.air == p.air + q.air[|p.air|..];
      }
    }
  }

  lemma OldComplete(e: Effect, p: Pipeline, q: Pipeline, id: nat)
    requires Coherent(p) && Has(e, p, q) && id in q.rows && Complete(q.rows[id])
    requires e.Completed? ==> id != p.bursts[0].id
    ensures id in p.rows && Complete(p.rows[id]) && q.rows[id].draft == p.rows[id].draft
    ensures |p.air| <= |q.air| && q.air[..|p.air|] == p.air
  {
  }

  // ---- How much has been sent ----

  function KeyUps(air: Air, id: nat): nat {
    if air == [] then 0 else KeyUps(Init(air), id) + (if Last(air) == KeyUp(id) then 1 else 0)
  }

  function FramesSent(air: Air, id: nat): nat {
    if air == [] then 0
    else FramesSent(Init(air), id) + (if Last(air).Frame? && Last(air).id == id then 1 else 0)
  }

  lemma CountsNext(air: Air, x: AirEvent, id: nat)
    ensures KeyUps(air + [x], id) == KeyUps(air, id) + (if x == KeyUp(id) then 1 else 0)
    ensures FramesSent(air + [x], id) == FramesSent(air, id) + (if x.Frame? && x.id == id then 1 else 0)
  {
    assert Init(air + [x]) == air;
  }

  lemma CountsTwo(air: Air, x: AirEvent, y: AirEvent, id: nat)
    ensures KeyUps(air + [x, y], id)
         == KeyUps(air, id) + (if x == KeyUp(id) then 1 else 0) + (if y == KeyUp(id) then 1 else 0)
    ensures FramesSent(air + [x, y], id)
         == FramesSent(air, id) + (if x.Frame? && x.id == id then 1 else 0) + (if y.Frame? && y.id == id then 1 else 0)
  {
    CountsNext(air, x, id);
    CountsNext(air + [x], y, id);
    assert (air + [x]) + [y] == air + [x, y];
  }

  /** The frames of a row's text. */
  function Length(encode: Encoder, born: map<nat, Draft>, id: nat): nat {
    if id in born && encode(born[id].text).Some? then |encode(born[id].text).value| else 0
  }

  /** The frames that the burst in progress still has to send. */
  function Owed(p: Pipeline, phase: Phase, id: nat): int {
    if p.bursts != [] && p.bursts[0].id == id
    then |p.bursts[0].frames| - p.bursts[0].next - (if phase.Playing? then 1 else 0)
    else 0
  }

  /** No more bursts than attempts; no more frames than bursts allow, less those
      still to be sent. */
  ghost predicate CountFits(encode: Encoder, born: map<nat, Draft>, p: Pipeline, phase: Phase, id: nat) {
    && (id !in born ==> KeyUps(p.air, id) == 0 && FramesSent(p.air, id) == 0)
    && KeyUps(p.air, id) <= (if id in p.rows then p.rows[id].attempts else MAX_ATTEMPTS)
    && FramesSent(p.air, id) + Owed(p, phase, id) <= Length(encode, born, id) * KeyUps(p.air, id)
  }

  /** What one step adds to the counts of one row. */
  lemma CountsKept(e: Effect, p: Pipeline, q: Pipeline, id: nat)
    requires Has(e, p, q)
    ensures KeyUps(q.air, id) == KeyUps(p.air, id) + (if e.Opened? && e.burst.id == id then 1 else 0)
    ensures FramesSent(q.air, id) == FramesSent(p.air, id)
      + (if (e.Opened? && e.burst.id == id) || (e.Continued? && p.bursts[0].id == id) then 1 else 0)
  {
    match e
    case Quiet =>
    case NewSlot =>
    case CutShort => CountsNext(p.air, Release, id);
    case Opened(b, at) => CountsTwo(p.air, KeyUp(b.id), FrameOf(b, p.slot), id);
    case Continued => CountsNext(p.air, FrameOf(p.bursts[0], p.slot), id);
    case FrameFailed => CountsNext(p.air, Release, id);
    case FramePlayed => CountsNext(p.air, Played, id);
    case Completed => CountsTwo(p.air, Played, Release, id);
    case Rebooted => CountsNext(p.air, Boot, id);
  }

  /** The attempts recorded for a row never fall below its bursts. */
  lemma TriesKept(e: Effect, p: Pipeline, q: Pipeline, id: nat)
    requires Coherent(p) && Has(e, p, q)
    requires id in p.rows ==> p.rows[id].attempts <= MAX_ATTEMPTS
    ensures id in p.rows && id in q.rows ==>
      p.rows[id].attempts + (if e.Opened? && e.burst.id == id then 1 else 0) <= q.rows[id].attempts
    ensures id in q.rows && id !in p.rows ==> e.Quiet?
    ensures e.Opened? && e.burst.id == id ==> id in p.rows && id in q.rows
  {
  }

  lemma OwedKept(e: Effect, p: Pipeline, q: Pipeline, from: Phase, to: Phase, id: nat)
    requires Coherent(p) && Has(e, p, q) && PhaseFits(e, p, from, to)
    ensures Owed(q, to, id)
            + (if (e.Opened? && e.burst.id == id) || (e.Continued? && p.bursts[0].id == id) then 1 else 0)
         <= Owed(p, from, id) + (if e.Opened? && e.burst.id == id then |e.burst.frames| else 0)
  {
    if p.bursts != [] { assert p.bursts[0] in p.bursts; }
  }

  lemma CountFitsKept(encode: Encoder, e: Effect, p: Pipeline, q: Pipeline, from: Phase, to: Phase,
                      born: map<nat, Draft>, born': map<nat, Draft>, id: nat)
    requires Coherent(p) && Has(e, p, q) && PhaseFits(e, p, from, to)
    requires CountFits(encode, born, p, from, id)
    requires id in p.rows ==> id in born && p.rows[id].attempts <= MAX_ATTEMPTS
    requires id in born ==> id in born' && born'[id] == born[id]
    requires id in q.rows && id !in p.rows ==> id !in born
    requires e.Opened? ==> e.burst.id in born && |e.burst.frames| == Length(encode, born, e.burst.id)
    ensures CountFits(encode, born', q, to, id)
  {
    CountsKept(e, p, q, id);
    TriesKept(e, p, q, id);
    OwedKept(e, p, q, from, to, id);
    OneMoreBurst(Length(encode, born, id), KeyUps(p.air, id));
    if id in born {
      assert Length(encode, born', id) == Length(encode, born, id);
    } else {
      assert Owed(q, to, id) <= 0;
    }
  }

  lemma OneMoreBurst(n: nat, k: nat)
    ensures n * (k + 1) == n * k + n
  {
  }
}
