/** The mailbox of held messages, and the application's handlers that offer,
    deliver and settle them. */
module Mailbox {
  import opened Text
  import opened Outbound
  import opened Scheduler

  datatype Status = Unread | ReadBefore | Held | HandedOver

  datatype Letter = Letter(status: Status, from: Text, to: Text, text: Text)

  type Letters = map<nat, Letter>

  // ---- Numbers and words ----

  function Digit(d: nat): Latin1Char
    requires d < 10
  {
    ('0' as int + d) as char
  }

  /** `str(n)`. */
  function Decimal(n: nat): (r: Text)
    ensures r != [] && forall i :: 0 <= i < |r| ==> IsDecimal(r[i])
  {
    if n < 10 then [Digit(n)] else Decimal(n / 10) + [Digit(n % 10)]
  }

  /** `int(t)` for a text of ASCII digits. */
  function ParseDecimal(t: Text): nat
    requires forall i :: 0 <= i < |t| ==> IsDecimal(t[i])
  {
    if t == [] then 0
    else
      assert IsDecimal(t[|t| - 1]);
      ParseDecimal(t[..|t| - 1]) * 10 + (t[|t| - 1] as int - '0' as int)
  }

  lemma {:induction false} DecimalRoundTrip(n: nat)
    ensures ParseDecimal(Decimal(n)) == n
  {
    if n < 10 {
      assert Decimal(n)[..0] == [];
    } else {
      DecimalRoundTrip(n / 10);
      assert Decimal(n)[..|Decimal(n)| - 1] == Decimal(n / 10);
    }
  }

  /** The notification that a letter is held. */
  function OfferText(asker: Text, id: nat): Text {
    asker + ([' '] + (MSG + ([' '] + Decimal(id))))
  }

  /** The delivery of a held letter. */
  function HeldText(asker: Text, id: nat, text: Text): Text {
    asker + ([' '] + (MSG + ([' '] + (Decimal(id) + ([' '] + text)))))
  }

  lemma OfferTextIs(asker: Text, id: nat)
    ensures OfferText(asker, id) == asker + " MSG " + Decimal(id)
  {
    var tail := [' '] + Decimal(id);
    assert [' '] + (MSG + tail) == " MSG " + Decimal(id);
    assert asker + (" MSG " + Decimal(id)) == asker + " MSG " + Decimal(id);
  }

  lemma HeldTextIs(asker: Text, id: nat, text: Text)
    ensures HeldText(asker, id, text) == asker + " MSG " + Decimal(id) + " " + text
  {
    HeldIsOffer(asker, id, text);
    OfferTextIs(asker, id);
    assert [' '] + text == " " + text;
    var head := asker + " MSG " + Decimal(id);
    assert head + (" " + text) == head + " " + text;
  }

  function OfferDraft(asker: Text, id: nat, now: real): Draft {
    Draft(Reply, OfferText(asker, id), Some(asker), now)
  }

  function HeldDraft(asker: Text, id: nat, text: Text, now: real): Draft {
    Draft(Directed, HeldText(asker, id, text), Some(asker), now)
  }

  /** The letter that an acknowledged text was the delivery of, going by its
      second and third words. A third word of other digits is an error, and
      counts as none. */
  function HeldId(text: Text): Option<nat> {
    var t := Tokens(text);
    if |t| < 3 || UpperText(t[1]) != MSG || (exists i :: 0 <= i < |t[2]| && !IsDecimal(t[2][i])) then None
    else Some(ParseDecimal(t[2]))
  }

  lemma UpperMsg()
    ensures UpperText(MSG) == MSG
  {
  }

  lemma HeldIdOf(t: Text, asker: Text, id: nat, rest: Text)
    requires Tokens(t) == [asker, MSG, Decimal(id)] + Tokens(rest)
    ensures HeldId(t) == Some(id)
  {
    UpperMsg();
    DecimalRoundTrip(id);
  }

  /** In words: a letter is named if and only if the second word is MSG and the
      third is a number. */
  lemma HeldIdIff(a: Text, b: Text, c: Text, rest: Text)
    requires IsWord(a) && IsWord(b) && IsWord(c) && (rest != [] ==> IsSpace(rest[0]))
    ensures var text := a + ([' '] + (b + ([' '] + (c + rest))));
      if UpperText(b) == "MSG" && forall i :: 0 <= i < |c| ==> IsDecimal(c[i])
      then HeldId(text) == Some(ParseDecimal(c)) else HeldId(text) == None
    ensures HeldId(a + ([' '] + b)) == None
  {
    var text := a + ([' '] + (b + ([' '] + (c + rest))));
    ThreeWords(a, b, c, rest);
    var t := Tokens(text);
    assert t[1] == b && t[2] == c;
    WordFirst(b, []);
    WordThen(a, b);
    assert b + [] == b;
  }

  /** A delivery names its letter, whatever the letter says. */
  lemma HeldIdRoundTrip(asker: Text, id: nat, text: Text)
    requires IsWord(asker)
    ensures HeldId(HeldText(asker, id, text)) == Some(id)
    ensures HeldId(OfferText(asker, id)) == Some(id)
  {
    HeldIsOffer(asker, id, text);
    OfferWords(asker, id, [' '] + text);
    HeldIdOf(HeldText(asker, id, text), asker, id, [' '] + text);
    OfferWords(asker, id, []);
    assert OfferText(asker, id) + [] == OfferText(asker, id);
    HeldIdOf(OfferText(asker, id), asker, id, []);
  }

  lemma Reshape(a: Text, b: Text, c: Text, rest: Text)
    ensures (a + ([' '] + (b + ([' '] + c)))) + rest == a + ([' '] + (b + ([' '] + (c + rest))))
  {
    assert (b + ([' '] + c)) + rest == b + ([' '] + (c + rest));
    assert ([' '] + (b + ([' '] + c))) + rest == [' '] + ((b + ([' '] + c)) + rest);
  }

  /** An offer's text stays itself when stripped. */
  lemma OfferIsBare(asker: Text, id: nat, rest: Text)
    requires IsWord(asker)
    ensures var head := OfferText(asker, id); LStrip(head + rest) == head + rest && RStrip(head) == head
  {
    var head, digits := OfferText(asker, id), Decimal(id);
    DigitsAreAWord(digits);
    assert (head + rest)[0] == asker[0];
    assert head[|head| - 1] == digits[|digits| - 1];
  }

  lemma StripBehind(head: Text, tail: Text)
    requires LStrip(head + tail) == head + tail && RStrip(head) == head
    ensures RStrip(LStrip(head + tail)) == head + RStrip(tail)
  {
    RStripAppend(head, tail);
    if RStrip(tail) == [] { assert head + [] == head; }
  }

  lemma OfferWords(asker: Text, id: nat, rest: Text)
    requires IsWord(asker) && (rest != [] ==> IsSpace(rest[0]))
    ensures Tokens(OfferText(asker, id) + rest) == [asker, MSG, Decimal(id)] + Tokens(rest)
  {
    var digits := Decimal(id);
    DigitsAreAWord(digits);
    Reshape(asker, MSG, digits, rest);
    ThreeWords(asker, MSG, digits, rest);
  }

  lemma HeldIsOffer(asker: Text, id: nat, text: Text)
    ensures HeldText(asker, id, text) == OfferText(asker, id) + ([' '] + text)
  {
    Reshape(asker, MSG, Decimal(id), [' '] + text);
  }

  /** A delivery, stripped, still starts with its three words. */
  lemma StrippedWords(asker: Text, id: nat, text: Text)
    requires IsWord(asker)
    ensures exists rest :: Tokens(RStrip(LStrip(HeldText(asker, id, text)))) == [asker, MSG, Decimal(id)] + Tokens(rest)
  {
    var tail := [' '] + text;
    HeldIsOffer(asker, id, text);
    OfferIsBare(asker, id, tail);
    StripBehind(OfferText(asker, id), tail);
    if RStrip(tail) != [] { RStripStart(tail); }
    OfferWords(asker, id, RStrip(tail));
  }

  /** The delivery of a letter awaits an ACK, unless it goes to a group. */
  lemma DeliveryAwaitsAck(asker: Text, id: nat, text: Text, now: real)
    requires IsWord(asker)
    ensures !FireAndForget(HeldDraft(asker, id, text, now)) <==> asker[0] != '@'
  {
    StrippedWords(asker, id, text);
    UpperMsg();
    var rest :| Tokens(RStrip(LStrip(HeldText(asker, id, text)))) == [asker, MSG, Decimal(id)] + Tokens(rest);
    var t := Tokens(RStrip(LStrip(HeldText(asker, id, text))));
    assert t[0] == asker && t[1] == MSG;
  }

  // ---- The store ----

  function Marked(mail: Letters, id: nat, was: Status, next: Status): Letters {
    if id in mail && mail[id].status == was then mail[id := mail[id].(status := next)] else mail
  }

  /** The letters held for a station, by the exact name under which they were
      stored. */
  function HeldFor(mail: Letters, call: Text): set<nat> {
    set id | id in mail && mail[id].status.Held? && mail[id].to == call
  }

  /** The lowest number of a letter held for exactly that name, if there is one. */
  ghost predicate IsOldestHeld(mail: Letters, call: Text, id: Option<nat>) {
    match id
    case None => forall other :: other in mail && mail[other].to == call ==> !mail[other].status.Held?
    case Some(k) =>
      && k in mail && mail[k].status.Held? && mail[k].to == call
      && forall other :: other in mail && mail[other].status.Held? && mail[other].to == call ==> k <= other
  }

  /** May this letter be delivered to the asker? */
  predicate Deliverable(mail: Letters, asker: Text, id: nat) {
    id in mail && mail[id].status.Held? && UpperText(mail[id].to) == UpperText(asker)
  }

  class MailboxStore {
    var rows: Letters
    var nextId: nat

    ghost predicate Valid()
      reads this
    {
      0 < nextId && forall id :: id in rows ==> 0 < id < nextId
    }

    constructor ()
      ensures Valid() && rows == map[]
    {
      rows, nextId := map[], 1;
    }

    /** None stands for the MailboxError of an empty callsign. */
    method Insert(letter: Letter) returns (id: Option<nat>)
      requires Valid()
      modifies this
      ensures Valid() && (id.Some? <==> letter.from != [] && letter.to != [])
      ensures id.None? ==> rows == old(rows) && nextId == old(nextId)
      ensures id.Some? ==>
        && id.value == old(nextId) && id.value !in old(rows)
        && nextId == old(nextId) + 1 && rows == old(rows)[id.value := letter]
    {
      if letter.from == [] || letter.to == [] { return None; }
      id := Some(nextId);
      rows := rows[nextId := letter];
      nextId := nextId + 1;
    }

    method TransitionType(id: nat, was: Status, next: Status) returns (found: bool)
      requires Valid()
      modifies `rows
      ensures Valid() && rows == Marked(old(rows), id, was, next)
      ensures found <==> id in old(rows) && old(rows)[id].status == was
    {
      found := id in rows && rows[id].status == was;
      rows := Marked(rows, id, was, next);
    }

    method Delete(id: nat) returns (found: bool)
      requires Valid()
      modifies `rows
      ensures Valid() && rows == old(rows) - {id} && (found <==> id in old(rows))
    {
      found := id in rows;
      rows := rows - {id};
    }

    /** The oldest letter held for a station: `ORDER BY id LIMIT 1`. */
    method OldestHeldFor(call: Text) returns (id: Option<nat>)
      ensures IsOldestHeld(rows, call, id)
    {
      var held := HeldFor(rows, call);
      var pending := held;
      id := None;
      while pending != {}
        invariant pending <= held
        invariant id.None? ==> pending == held
        invariant id.Some? ==> id.value in held
        invariant id.Some? ==> forall other :: other in held && other !in pending ==> id.value <= other
        decreases pending
      {
        var next :| next in pending;
        if id.None? || next < id.value { id := Some(next); }
        pending := pending - {next};
      }
      assert forall other :: other in rows && rows[other].status.Held? && rows[other].to == call ==> other in held;
    }
  }

  /** The part of the application that answers queries and settles ACKs. */
  class PostOffice {
    const mailbox: MailboxStore
    const queue: OutboundQueue
    const cache: EncodedAudioCache

    constructor (mailbox: MailboxStore, queue: OutboundQueue, cache: EncodedAudioCache)
      ensures this.mailbox == mailbox && this.queue == queue && this.cache == cache
    {
      this.mailbox, this.queue, this.cache := mailbox, queue, cache;
    }

    ghost predicate Valid()
      reads this, mailbox, queue
    {
      mailbox.Valid() && queue.Valid()
    }

    /** A query for a letter is answered with it only if it is held, and held
        for the asker. */
    method HandleQueryMsgId(asker: Text, requested: nat, now: real) returns (sent: Option<nat>)
      requires Valid()
      modifies queue
      ensures Valid()
      ensures sent.Some? <==>
        && requested in mailbox.rows && mailbox.rows[requested].status.Held?
        && UpperText(mailbox.rows[requested].to) == UpperText(asker)
        && |ActiveIds(old(queue.rows))| < QUEUE_DEPTH
      ensures sent.None? ==> queue.rows == old(queue.rows) && queue.nextId == old(queue.nextId)
      ensures sent.Some? ==>
        && sent.value == old(queue.nextId) && queue.nextId == old(queue.nextId) + 1
        && queue.rows == old(queue.rows)[sent.value :=
             Row(HeldDraft(asker, requested, mailbox.rows[requested].text, now), Encoding, 0, None)]
        && queue.rows[sent.value].draft.text
             == asker + " MSG " + Decimal(requested) + " " + mailbox.rows[requested].text
    {
      if !Deliverable(mailbox.rows, asker, requested) { return None; }
      var text := HeldText(asker, requested, mailbox.rows[requested].text);
      sent := queue.EnqueueForEncoding(text, Some(Directed), Some(asker), now);
      HeldTextIs(asker, requested, mailbox.rows[requested].text);
    }

    /** A query for messages is answered with the oldest held letter's number;
        with NO if there is none and the query was to us alone. */
    method HandleQueryMsgs(asker: Text, broadcast: bool, now: real) returns (offered: Option<nat>)
      requires Valid()
      modifies queue
      ensures Valid()
      ensures IsOldestHeld(mailbox.rows, asker, offered)
      ensures var text := if offered.Some? then asker + " MSG " + Decimal(offered.value) else asker + " NO";
        queue.rows == if (offered.None? && broadcast) || |ActiveIds(old(queue.rows))| >= QUEUE_DEPTH
                      then old(queue.rows)
          else old(queue.rows)[old(queue.nextId) := Row(Draft(Reply, text, Some(asker), now), Encoding, 0, None)]
    {
      offered := mailbox.OldestHeldFor(asker);
      if offered.Some? { OfferTextIs(asker, offered.value); }
      if offered.Some? {
        var _ := queue.EnqueueForEncoding(OfferText(asker, offered.value), Some(Reply), Some(asker), now);
      } else if !broadcast {
        var _ := queue.EnqueueForEncoding(asker + " NO", Some(Reply), Some(asker), now);
      }
    }

    /** An ACK settles a row; its audio goes; and the letter that the row
        delivered, if it did, is handed over. */
    method ForwardAck(caller: Text) returns (matched: Option<nat>)
      requires Valid()
      modifies queue`rows, cache, mailbox`rows
      ensures Valid()
      ensures matched.None? <==>
        caller == [] || forall other :: other in old(queue.rows) ==> !Awaits(old(queue.rows)[other], caller)
      ensures matched.None? ==>
        queue.rows == old(queue.rows) && cache.audio == old(cache.audio) && mailbox.rows == old(mailbox.rows)
      ensures matched.Some? ==>
        && Acknowledges(old(queue.rows), caller, matched.value)
        && queue.rows == SetState(old(queue.rows), matched.value, Delivered)
        && cache.audio == old(cache.audio) - {matched.value}
        && mailbox.rows == Settled(old(mailbox.rows), old(queue.rows)[matched.value].draft.text)
    {
      matched := queue.RecordAck(caller);
      if matched.Some? {
        cache.Discard(matched.value);
        MaybeMarkInboxDelivered(matched.value);
      }
    }

    method MaybeMarkInboxDelivered(outbound: nat)
      requires Valid()
      modifies mailbox`rows
      ensures Valid()
      ensures mailbox.rows == if outbound in queue.rows
        then Settled(old(mailbox.rows), queue.rows[outbound].draft.text) else old(mailbox.rows)
    {
      if outbound in queue.rows {
        var id := HeldId(queue.rows[outbound].draft.text);
        if id.Some? { var _ := mailbox.TransitionType(id.value, Held, HandedOver); }
      }
    }
  }

  /** The mailbox after an acknowledged text. */
  function Settled(mail: Letters, text: Text): Letters {
    match HeldId(text)
    case Some(id) => Marked(mail, id, Held, HandedOver)
    case None => mail
  }
}
