/** When a station answers: the ACK is sent whenever it is owed, and only then. */
module Answering {
  import opened Text
  import opened Sequences
  import opened Checksum
  import opened Reassembly
  import opened ReassemblyRuns
  import opened ReassemblyLaws
  import Fates
  import Fragments

  import opened Outbound
  import opened Transmit
  import opened Scheduler
  import opened TransmitRuns
  import TransmitDuties
  import opened TwoStations

  /** Complete, checked mail to this station, with a body and a sender, that the
      mailbox took: it comes out with this frame or sweep. */
  ghost predicate OwesAck(me: Station, r: Reception, m: Message) {
    && m in Step(me.cfg, me.rx.entries, r.ev).out && r.stored
    && m.buffered && m.checksumValid && m.fromCall != [] && UpperText(m.toCall) == UpperText(me.call)
    && ((m.verb.Msg? && m.body != []) || m.verb.MsgTo?)
  }

  /** An ACK frame for this station, from a named sender. */
  ghost predicate IsAckFrame(r: Reception) {
    r.ev.Heard? && r.ev.frame.kind.Ack? && r.forUs && OrEmpty(r.ev.frame.fromCall) != []
  }

  ghost predicate HasRoom(s: System) {
    |set id | id in s.p.rows && s.p.rows[id].state in {Encoding, Queued, Sending, WaitAck}| < 3
  }

  /** The transmit side after hearing. */
  ghost function Heard(encode: Encoder, me: Station, r: Reception): System
    requires Sound(me.sys) && match Reaction(me, r) case Some(a) => Enabled(me.sys, a) case None => true
  {
    Reacted(encode, me, Reaction(me, r)).sys
  }

  lemma DueIsOwed(me: Station, r: Reception, m: Message)
    requires r.stored
    ensures OwesAck(me, r, m) <==> m in Filter(Step(me.cfg, me.rx.entries, r.ev).out, Due(me.call))
  {
    assert Due(me.call)(m) <==>
      AckEligible(m) && UpperText(m.toCall) == UpperText(me.call) && m.fromCall != [] && (m.verb.Msg? ==> m.body != []);
  }

  /** The message that is answered is the one that is owed an ACK. */
  lemma AnsweringIs(me: Station, r: Reception, m: Message)
    requires OwesAck(me, r, m)
    ensures TwoStations.Answering(me, r) == Some(m)
  {
    var due := Filter(Step(me.cfg, me.rx.entries, r.ev).out, Due(me.call));
    DueIsOwed(me, r, m);
    NoSecondAnswer(me, r);
    assert due == [due[0]];
  }

  /** If an ACK is owed and the queue has room, a row of kind REPLY with the text
      "<sender> ACK" is there to be encoded, and nothing else has changed. */
  lemma OwedIsQueued(encode: Encoder, me: Station, r: Reception, m: Message)
    requires Sound(me.sys) && OwesAck(me, r, m)
    ensures Reaction(me, r).Some? && Enabled(me.sys, Reaction(me, r).value)
    ensures var t, to := Heard(encode, me, r), UpperText(m.fromCall);
      if HasRoom(me.sys) then
        && me.sys.nextId !in me.sys.p.rows
        && t.p == me.sys.p.(rows := me.sys.p.rows[me.sys.nextId :=
             Row(Draft(Reply, to + " ACK", Some(to), r.ev.at), Encoding, 0, None)])
      else t == me.sys
  {
    AnsweringIs(me, r, m);
    TransmitDuties.EnqueueIff(encode, me.sys, AckDraft(UpperText(m.fromCall), r.ev.at), false);
  }

  /** If none is owed and the frame is no ACK for us, the transmit side does nothing. */
  lemma NothingOwed(encode: Encoder, me: Station, r: Reception)
    requires Sound(me.sys) && !IsAckFrame(r) && forall m :: !OwesAck(me, r, m)
    ensures Reaction(me, r).None? && Heard(encode, me, r) == me.sys
  {
    var answer := TwoStations.Answering(me, r);
    if answer.Some? { DueIsOwed(me, r, answer.value); }
  }

  /** An ACK for us settles a row as `TransmitDuties.AckSettles` says. */
  lemma AckIsForwarded(me: Station, r: Reception)
    requires IsAckFrame(r)
    ensures Reaction(me, r) == Some(Action.Ack(OrEmpty(r.ev.frame.fromCall), r.found))
  {
    NoSecondAnswer(me, r);
  }

  // ---- A message in frames ----

  /** The last of the frames, when the station holds the others and no other live
      buffer is in reach. */
  ghost predicate HearsLast(me: Station, r: Reception, s: Fragments.Sending, body: Text, i: nat) {
    var n, es := |s.chunks|, me.rx.entries;
    && Fragments.Splits(me.cfg, s, body) && n > 1
    && r.ev == Event.Heard(Fragments.FrameAt(s, n - 1), s.times[n - 1])
    && WellFormed(es) && i < |es| && es[i] == Entry(Fragments.KeyFor(s), Fragments.Partial(s, n - 1))
    && forall e :: e in es && e.key.bucket == es[i].key.bucket && Fates.IsLive(me.cfg, e.buffer, s.times[n - 1]) ==>
         e == es[i]
  }

  lemma LastFrameCompletes(me: Station, r: Reception, s: Fragments.Sending, body: Text, i: nat)
    requires HearsLast(me, r, s, body, i)
    ensures Fragments.Whole(s, body) in Step(me.cfg, me.rx.entries, r.ev).out
  {
    var n, es, now := |s.chunks|, me.rx.entries, s.times[|s.chunks| - 1];
    Fragments.NextInReach(me.cfg, s, body, n - 1);
    Fragments.PartialGrows(me.cfg, s, body, n - 1);
    Fragments.AllVerify(me.cfg, s, body);
    OnlyNewest(me.cfg, es, i, now);
    assert s.chunks[..n] == s.chunks;
    Completes(me.cfg, es, Fragments.FrameAt(s, n - 1), now, i, Fragments.Partial(s, n), body);
  }

  lemma Completes(cfg: Timeouts, es: seq<Entry>, f: ParsedFrame, now: real, i: nat, b: Buffer, body: Text)
    requires WellFormed(es) && f.kind.Unknown? && f.body != []
    requires Fates.Newest(cfg, es, BucketOffset(f.frequency), now, i)
    requires b == Extend(es[i].buffer, f, now) && b.buffered && VerifyChecksum16(b.body) == Some(body)
    ensures Emit(b, true, now).(body := body) in AfterFeed(cfg, es, f, now).out
  {
    Fates.LongerIsExtended(es[i].buffer, f, now);
    Fates.ContinuationFate(cfg, es, f, now, i);
  }

  lemma OnlyNewest(cfg: Timeouts, es: seq<Entry>, i: nat, now: real)
    requires WellFormed(es) && i < |es| && Fates.IsLive(cfg, es[i].buffer, now)
    requires forall e :: e in es && e.key.bucket == es[i].key.bucket && Fates.IsLive(cfg, e.buffer, now) ==> e == es[i]
    ensures Fates.Newest(cfg, es, es[i].key.bucket, now, i)
  {
    forall j | 0 <= j < |es| && es[j].key.bucket == es[i].key.bucket && Fates.IsLive(cfg, es[j].buffer, now)
      ensures j == i
    {
      assert es[j] in es && es[j] == es[i];
    }
  }

  /** With its last frame a MSG for this station that was split over frames is
      answered: an ACK to its sender is queued. */
  lemma WholeMailIsAnswered(encode: Encoder, me: Station, r: Reception, s: Fragments.Sending, body: Text, i: nat)
    requires HearsLast(me, r, s, body, i) && r.stored && UpperText(s.to) == UpperText(me.call)
    requires Sound(me.sys) && HasRoom(me.sys)
    ensures Reaction(me, r).Some? && Enabled(me.sys, Reaction(me, r).value)
    ensures var t, to := Heard(encode, me, r), UpperText(s.from);
      t.p == me.sys.p.(rows := me.sys.p.rows[me.sys.nextId :=
        Row(Draft(Reply, to + " ACK", Some(to), r.ev.at), Encoding, 0, None)])
  {
    LastFrameCompletes(me, r, s, body, i);
    var m := Fragments.Whole(s, body);
    UpperTwice(s.to);
    assert OwesAck(me, r, m);
    OwedIsQueued(encode, me, r, m);
  }

  lemma UpperTwice(t: Text)
    ensures UpperText(UpperText(t)) == UpperText(t)
  {
    forall i | 0 <= i < |t| ensures Upper(Upper(t[i])) == Upper(t[i]) { UpperJoins(t[i], t[i]); }
  }
}
