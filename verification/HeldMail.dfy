/** Held mail over whole runs: a letter counts as handed over only on proof. */
module HeldMail {
  import opened Text
  import opened Outbound
  import opened Transmit
  import opened TransmitRuns
  import opened TransmitEffects
  import opened TransmitAir
  import opened TransmitLaws
  import opened Mailbox

  /** The station's transmit side and mailbox, with two records of history:
      every letter as it was stored, and who acknowledged each settled row. */
  datatype Office = Office(
    sys: System, mail: Letters, nextMail: nat, stored: Letters, ackedBy: map<nat, Text>)

  const OPENING := Office(START, map[], 1, map[], map[])

  datatype Event =
    | Other(action: Action)
    | AckFrame(caller: Text, found: Option<nat>)
    | QueryLetter(asker: Text, id: nat, now: real)
    | StoreLetter(letter: Letter)
    | OpenLetter(id: nat)
    | DropLetter(id: nat)

  /** A draft that can come to await an ACK and reads as a delivery. */
  predicate ReadsAsDelivery(d: Draft) { !FireAndForget(d) && HeldId(d.text).Some? }

  /** Deliveries come only from queries for a letter; ACKs only with their
      frames. A letter is stored unread or held, under names that are not empty. */
  ghost predicate MayHappen(o: Office, ev: Event) {
    match ev
    case Other(a) => Enabled(o.sys, a) && !a.Ack? && (a.Enqueue? ==> !ReadsAsDelivery(a.draft))
    case AckFrame(caller, found) => Enabled(o.sys, Ack(caller, found))
    case QueryLetter(asker, _, _) => IsWord(asker)
    case StoreLetter(letter) => (letter.status.Unread? || letter.status.Held?) && letter.from != [] && letter.to != []
    case _ => true
  }

  ghost function Happened(encode: Encoder, o: Office, ev: Event): Office
    requires MayHappen(o, ev) && Sound(o.sys)
  {
    match ev
    case Other(a) => o.(sys := Next(encode, o.sys, a))
    case AckFrame(caller, found) =>
      var s := Next(encode, o.sys, Ack(caller, found));
      if found.None? then o.(sys := s)
      else
        o.(sys := s, mail := Mailbox.Settled(o.mail, o.sys.p.rows[found.value].draft.text),
           ackedBy := o.ackedBy[found.value := caller])
    case QueryLetter(asker, id, now) =>
      if !Deliverable(o.mail, asker, id) then o
      else o.(sys := Enqueued(o.sys, HeldDraft(asker, id, o.mail[id].text, now), false))
    case StoreLetter(letter) =>
      o.(mail := o.mail[o.nextMail := letter], stored := o.stored[o.nextMail := letter], nextMail := o.nextMail + 1)
    case OpenLetter(id) => o.(mail := Marked(o.mail, id, Unread, ReadBefore))
    case DropLetter(id) => o.(mail := o.mail - {id})
  }

  // ---- What holds throughout ----

  /** Letters keep the text and the names they were stored with. */
  ghost predicate Filed(o: Office) {
    && (forall id :: id in o.mail ==> id in o.stored && o.mail[id].(status := o.stored[id].status) == o.stored[id])
    && (forall id :: id in o.stored ==> id < o.nextMail)
  }

  /** A delivery carries the text of the letter it names, to the station that
      the letter is for. */
  ghost predicate Delivers(o: Office, d: Draft) {
    && HeldId(d.text).Some? && HeldId(d.text).value in o.stored && d.toCall.Some?
    && var id := HeldId(d.text).value;
       d.text == HeldText(d.toCall.value, id, o.stored[id].text)
       && UpperText(d.toCall.value) == UpperText(o.stored[id].to)
  }

  ghost predicate AllDeliver(o: Office) {
    forall out :: out in o.sys.born && ReadsAsDelivery(o.sys.born[out]) ==> Delivers(o, o.sys.born[out])
  }

  /** `out` is proof that the letter was handed over: a delivery of this very
      letter, sent in one unbroken transmission of all its frames, and then
      acknowledged by the station it was sent to. */
  ghost predicate Proof(encode: Encoder, o: Office, id: nat, out: nat) {
    && out in o.sys.born && Delivers(o, o.sys.born[out]) && HeldId(o.sys.born[out].text) == Some(id)
    && out in o.sys.p.rows && o.sys.p.rows[out].state.Delivered?
    && encode(o.sys.born[out].text).Some? && Sent(o.sys.p.air, out, encode(o.sys.born[out].text).value)
    && out in o.ackedBy && SqlUpper(o.sys.born[out].toCall.value) == UpperText(o.ackedBy[out])
  }

  ghost predicate AllProven(encode: Encoder, o: Office) {
    forall id :: id in o.mail && o.mail[id].status.HandedOver? ==> exists out :: Proof(encode, o, id, out)
  }

  ghost predicate OfficeInv(encode: Encoder, o: Office) {
    Inv(encode, o.sys) && Filed(o) && AllDeliver(o) && AllProven(encode, o)
  }

  // ---- Every step keeps it ----

  /** Proof once given stays, whatever the transmit side does. */
  lemma ProofStays(encode: Encoder, o: Office, q: Office, a: Action, id: nat, out: nat)
    requires Inv(encode, o.sys) && Enabled(o.sys, a) && q.sys == Next(encode, o.sys, a)
    requires Proof(encode, o, id, out)
    requires forall k :: k in o.stored ==> k in q.stored && q.stored[k] == o.stored[k]
    requires out in q.ackedBy && q.ackedBy[out] == o.ackedBy[out]
    ensures Proof(encode, q, id, out)
  {
    BirthsKept(encode, o.sys, a);
    FinishedStays(encode, o.sys, a, out);
    InvKept(encode, o.sys, a);
    assert Complete(q.sys.p.rows[out]);
  }

  /** A step of the transmit side that enqueues no delivery of its own. */
  lemma OtherKept(encode: Encoder, o: Office, q: Office, a: Action)
    requires OfficeInv(encode, o) && Enabled(o.sys, a) && !a.Ack?
    requires q == o.(sys := Next(encode, o.sys, a))
    requires a.Enqueue? && ReadsAsDelivery(a.draft) ==> Delivers(o, a.draft)
    ensures OfficeInv(encode, q)
  {
    InvKept(encode, o.sys, a);
    BirthsKept(encode, o.sys, a);
    NewBirth(encode, o.sys, a);
    forall id | id in q.mail && q.mail[id].status.HandedOver? ensures exists out :: Proof(encode, q, id, out) {
      var out :| Proof(encode, o, id, out);
      ProofStays(encode, o, q, a, id, out);
    }
  }

  lemma NewBirth(encode: Encoder, s: System, a: Action)
    requires Sound(s) && Enabled(s, a)
    ensures forall out :: out in Next(encode, s, a).born && out !in s.born ==>
      a.Enqueue? && Next(encode, s, a).born[out] == a.draft
  {
  }

  lemma DraftDelivers(o: Office, asker: Text, id: nat, now: real)
    requires Filed(o) && IsWord(asker) && Deliverable(o.mail, asker, id)
    ensures Delivers(o, HeldDraft(asker, id, o.mail[id].text, now))
  {
    HeldIdRoundTrip(asker, id, o.mail[id].text);
  }

  /** The row an ACK settles was sent whole, and went to its sender. */
  lemma AckIsProof(encode: Encoder, o: Office, caller: Text, out: nat, id: nat)
    requires OfficeInv(encode, o) && Enabled(o.sys, Ack(caller, Some(out)))
    requires HeldId(o.sys.p.rows[out].draft.text) == Some(id)
    ensures Proof(encode, Happened(encode, o, AckFrame(caller, Some(out))), id, out)
  {
    var q := Happened(encode, o, AckFrame(caller, Some(out)));
    assert AttemptsFit(o.sys.p.rows[out]);
    assert ReadsAsDelivery(o.sys.born[out]);
    InvKept(encode, o.sys, Ack(caller, Some(out)));
    assert Complete(q.sys.p.rows[out]);
  }

  /** An ACK changes no letter but the status of the one it hands over. */
  lemma SettledKeepsFiles(o: Office, q: Office, text: Text)
    requires Filed(o) && q.stored == o.stored && q.nextMail == o.nextMail && q.mail == Mailbox.Settled(o.mail, text)
    ensures Filed(q)
    ensures forall id :: id in q.mail && q.mail[id].status.HandedOver? ==>
      id in o.mail && (o.mail[id].status.HandedOver? || HeldId(text) == Some(id))
  {
  }

  lemma AckMatched(encode: Encoder, o: Office, caller: Text, out: nat)
    requires OfficeInv(encode, o) && Enabled(o.sys, Ack(caller, Some(out)))
    ensures OfficeInv(encode, Happened(encode, o, AckFrame(caller, Some(out))))
  {
    var a, q := Ack(caller, Some(out)), Happened(encode, o, AckFrame(caller, Some(out)));
    InvKept(encode, o.sys, a);
    SettledKeepsFiles(o, q, o.sys.p.rows[out].draft.text);
    forall id | id in q.mail && q.mail[id].status.HandedOver? ensures exists k :: Proof(encode, q, id, k) {
      if o.mail[id].status.HandedOver? {
        OldProof(encode, o, q, a, id);
      } else {
        AckIsProof(encode, o, caller, out, id);
      }
    }
  }

  /** A row already settled is not settled again. */
  lemma OldProof(encode: Encoder, o: Office, q: Office, a: Action, id: nat)
    requires OfficeInv(encode, o) && Enabled(o.sys, a) && q.sys == Next(encode, o.sys, a) && q.stored == o.stored
    requires id in o.mail && o.mail[id].status.HandedOver?
    requires a.Ack? && a.found.Some? && q.ackedBy == o.ackedBy[a.found.value := a.caller]
    ensures exists out :: Proof(encode, q, id, out)
  {
    var out :| Proof(encode, o, id, out);
    ProofStays(encode, o, q, a, id, out);
  }

  lemma AckKept(encode: Encoder, o: Office, caller: Text, found: Option<nat>)
    requires OfficeInv(encode, o) && Enabled(o.sys, Ack(caller, found))
    ensures OfficeInv(encode, Happened(encode, o, AckFrame(caller, found)))
  {
    if found.Some? { AckMatched(encode, o, caller, found.value); }
  }

  lemma MailFiled(encode: Encoder, o: Office, ev: Event)
    requires Filed(o) && MayHappen(o, ev) && Sound(o.sys) && (ev.StoreLetter? || ev.OpenLetter? || ev.DropLetter?)
    ensures var q := Happened(encode, o, ev);
      && Filed(q) && q.sys == o.sys && q.ackedBy == o.ackedBy
      && (forall id :: id in o.stored ==> id in q.stored && q.stored[id] == o.stored[id])
      && (forall id :: id in q.mail && q.mail[id].status.HandedOver? ==> id in o.mail && o.mail[id].status.HandedOver?)
  {
  }

  lemma SameProofs(encode: Encoder, o: Office, q: Office)
    requires AllProven(encode, o) && q.sys == o.sys && q.ackedBy == o.ackedBy
    requires forall id :: id in o.stored ==> id in q.stored && q.stored[id] == o.stored[id]
    requires forall id :: id in q.mail && q.mail[id].status.HandedOver? ==>
      id in o.mail && o.mail[id].status.HandedOver?
    ensures AllProven(encode, q)
  {
    forall id | id in q.mail && q.mail[id].status.HandedOver? ensures exists out :: Proof(encode, q, id, out) {
      var out :| Proof(encode, o, id, out);
      assert Proof(encode, q, id, out);
    }
  }

  lemma MailKept(encode: Encoder, o: Office, ev: Event)
    requires OfficeInv(encode, o) && MayHappen(o, ev) && (ev.StoreLetter? || ev.OpenLetter? || ev.DropLetter?)
    ensures OfficeInv(encode, Happened(encode, o, ev))
  {
    MailFiled(encode, o, ev);
    SameDeliveries(o, Happened(encode, o, ev));
    SameProofs(encode, o, Happened(encode, o, ev));
  }

  lemma SameDeliveries(o: Office, q: Office)
    requires Filed(o) && AllDeliver(o) && q.sys == o.sys
    requires forall id :: id in o.stored ==> id in q.stored && q.stored[id] == o.stored[id]
    ensures AllDeliver(q)
  {
    forall out | out in q.sys.born && ReadsAsDelivery(q.sys.born[out]) ensures Delivers(q, q.sys.born[out]) {
      assert Delivers(o, o.sys.born[out]);
    }
  }

  lemma OfficeInvKept(encode: Encoder, o: Office, ev: Event)
    requires OfficeInv(encode, o) && MayHappen(o, ev)
    ensures OfficeInv(encode, Happened(encode, o, ev))
  {
    match ev
    case Other(a) => OtherKept(encode, o, Happened(encode, o, ev), a);
    case AckFrame(caller, found) => AckKept(encode, o, caller, found);
    case QueryLetter(asker, id, now) =>
      if Deliverable(o.mail, asker, id) {
        DraftDelivers(o, asker, id, now);
        OtherKept(encode, o, Happened(encode, o, ev), Enqueue(HeldDraft(asker, id, o.mail[id].text, now), false));
      }
    case StoreLetter(_) => MailKept(encode, o, ev);
    case OpenLetter(_) => MailKept(encode, o, ev);
    case DropLetter(_) => MailKept(encode, o, ev);
  }

  // ---- Runs ----

  ghost predicate Days(encode: Encoder, o: Office, run: seq<Event>)
    decreases |run|
  {
    run == [] || (Sound(o.sys) && MayHappen(o, run[0]) && Days(encode, Happened(encode, o, run[0]), run[1..]))
  }

  ghost function AfterDays(encode: Encoder, o: Office, run: seq<Event>): Office
    requires Days(encode, o, run)
    decreases |run|
  {
    if run == [] then o else AfterDays(encode, Happened(encode, o, run[0]), run[1..])
  }

  lemma {:induction false} DaysKeep(encode: Encoder, o: Office, run: seq<Event>)
    requires OfficeInv(encode, o) && Days(encode, o, run)
    ensures OfficeInv(encode, AfterDays(encode, o, run))
    decreases |run|
  {
    if run != [] {
      OfficeInvKept(encode, o, run[0]);
      DaysKeep(encode, Happened(encode, o, run[0]), run[1..]);
    }
  }

  /** A letter counts as handed over only after its own text went to its own
      recipient in one whole transmission, and that station acknowledged it. */
  lemma HandedOverOnProof(encode: Encoder, run: seq<Event>, id: nat) returns (out: nat)
    requires Days(encode, OPENING, run)
    requires var o := AfterDays(encode, OPENING, run); id in o.mail && o.mail[id].status.HandedOver?
    ensures var o := AfterDays(encode, OPENING, run);
      && Proof(encode, o, id, out)
      && o.sys.born[out].text == o.sys.born[out].toCall.value + " MSG " + Decimal(id) + " " + o.mail[id].text
      && UpperText(o.sys.born[out].toCall.value) == UpperText(o.mail[id].to)
  {
    StartInv(encode);
    DaysKeep(encode, OPENING, run);
    var o := AfterDays(encode, OPENING, run);
    out :| Proof(encode, o, id, out);
    HeldTextIs(o.sys.born[out].toCall.value, id, o.mail[id].text);
  }

  /** And the other way: the ACK of a delivery hands over the letter it names,
      if that is still held. */
  lemma AckHandsOver(encode: Encoder, o: Office, caller: Text, out: nat, asker: Text, id: nat, text: Text)
    requires Sound(o.sys) && Enabled(o.sys, Ack(caller, Some(out)))
    requires IsWord(asker) && o.sys.p.rows[out].draft.text == HeldText(asker, id, text)
    ensures var q := Happened(encode, o, AckFrame(caller, Some(out)));
      q.mail == if id in o.mail && o.mail[id].status.Held?
                then o.mail[id := o.mail[id].(status := HandedOver)] else o.mail
  {
    HeldIdRoundTrip(asker, id, text);
  }

  /** The notification reads like a delivery, but being a reply it can never
      come to be acknowledged. */
  lemma OfferNeverHandsOver(encode: Encoder, o: Office, caller: Text, out: nat, asker: Text, id: nat, now: real)
    requires Inv(encode, o.sys) && IsWord(asker)
    requires out in o.sys.p.rows && o.sys.p.rows[out].draft == OfferDraft(asker, id, now)
    ensures HeldId(o.sys.p.rows[out].draft.text) == Some(id)
    ensures !Enabled(o.sys, Ack(caller, Some(out)))
  {
    HeldIdRoundTrip(asker, id, []);
    assert AttemptsFit(o.sys.p.rows[out]);
  }
}
