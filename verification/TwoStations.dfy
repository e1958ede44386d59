/** Two stations that answer each other's mail with ACKs, over a channel that
    may lose a transmission, or add others, but never delivers one twice. */
module TwoStations {
  import opened Text
  import opened Sequences
  import opened Reassembly
  import opened ReassemblyRuns
  import opened ReassemblyLaws
  import opened MailCredits
  import Grammar

  import opened Outbound
  import opened Transmit
  import opened TransmitRuns
  import opened TransmitEffects
  import opened TransmitAir
  import opened TransmitLaws

  // ---- What a frame reads as ----

  const ACK_VERB: Text := " ACK"

  function AckText(to: Text): Text { to + ACK_VERB }

  /** What a frame of a text from a station decodes and parses to; the frequency
      is the hearer's own. */
  type Parser = (Text, Text, nat) -> ParsedFrame

  /** Frames after the first carry no envelope. An ACK is one frame, and it reads
      "<from>: <to> ACK"; to a callsign in CQ, that passes for a CQ call. */
  ghost predicate Carries(parse: Parser) {
    && (forall from: Text, text: Text, k: nat :: 0 < k ==> parse(from, text, k).kind.Unknown?)
    && (forall from: Text, to: Text :: Grammar.Callsign(to) ==>
          var f := parse(from, AckText(to), 0);
          f.kind.Cq? || f == Grammar.Directed(from, to, "ACK", f.frequency))
  }

  /** For example: every text fits one frame, and is read as directed. */
  function WholeText(from: Text, text: Text, k: nat): ParsedFrame {
    var n := TokenEnd(text);
    if k > 0 || n == |text| then ParsedFrame(FrameKind.Unknown, None, None, text, 0.0)
    else Grammar.Directed(from, text[..n], text[n + 1..], 0.0)
  }

  lemma WholeTextCarries()
    ensures Carries(WholeText)
  {
    forall from: Text, to: Text | Grammar.Callsign(to)
      ensures WholeText(from, AckText(to), 0) == Grammar.Directed(from, to, "ACK", 0.0)
    {
      WordEnd(to, ACK_VERB);
      assert AckText(to)[..|to|] == to && AckText(to)[|to| + 1..] == "ACK";
    }
  }

  // ---- ACKs ----

  /** What `_queue_ack_to` enqueues. */
  function AckDraft(to: Text, now: real): Draft { Draft(Reply, AckText(to), Some(to), now) }

  predicate IsAck(d: Draft) {
    d.kind.Reply? && d.toCall.Some? && Grammar.Callsign(d.toCall.value) && d.text == AckText(d.toCall.value)
  }

  /** An ACK, like every reply, is sent and then done: it never awaits an ACK. */
  lemma RepliesNeverWait(encode: Encoder, s: System, id: nat)
    requires Reachable(encode, s) && id in s.p.rows && s.p.rows[id].state.WaitAck?
    ensures s.p.rows[id].draft.kind.Directed? && !IsAck(s.p.rows[id].draft)
    ensures InferKind(s.p.rows[id].draft.text).Directed?
  {
    ReachableInv(encode, s);
    assert AttemptsFit(s.p.rows[id]);
  }

  // ---- Stations ----

  /** The receive side. Its history: the row of the other station whose frame
      last began mail at a key, which of the other's air events were heard, and
      the ACK rows enqueued here for a row of the other. */
  datatype Receiver = Receiver(
    entries: seq<Entry>, owner: map<Key, nat>, heard: set<nat>, answers: map<nat, seq<nat>>)

  datatype Station = Station(call: Text, cfg: Timeouts, sys: System, rx: Receiver)

  datatype Pair = Pair(left: Station, right: Station)

  function NewStation(call: Text, cfg: Timeouts): Station {
    Station(call, cfg, START, Receiver([], map[], {}, map[]))
  }

  function At(p: Pair, side: bool): Station { if side then p.left else p.right }

  function With(p: Pair, side: bool, s: Station): Pair {
    if side then p.(left := s) else p.(right := s)
  }

  function Listed(answers: map<nat, seq<nat>>, id: nat): seq<nat> { if id in answers then answers[id] else [] }

  function AnswersTo(rx: Receiver, id: nat): seq<nat> { Listed(rx.answers, id) }

  function TextOf(s: System, id: nat): Text { if id in s.born then s.born[id].text else [] }

  // ---- Hearing ----

  /** A frame or a sweep. `source` is the other station's air event that was
      heard, if it was that; the rest is what the grammar, the mailbox and the
      queue answer. */
  datatype Reception = Reception(ev: Event, source: Option<nat>, forUs: bool, stored: bool, found: Option<nat>)

  /** Mail for this station, complete and checked. */
  function Due(call: Text): Message -> bool {
    (m: Message) =>
      AckEligible(m) && UpperText(m.toCall) == UpperText(call) && m.fromCall != [] && (m.verb.Msg? ==> m.body != [])
  }

  /** The message that is acknowledged. There is no second one. */
  function Answering(me: Station, r: Reception): Option<Message> {
    var due := Filter(Step(me.cfg, me.rx.entries, r.ev).out, Due(me.call));
    if due != [] && r.stored then Some(due[0]) else None
  }

  lemma NoSecondAnswer(me: Station, r: Reception)
    ensures |Filter(Step(me.cfg, me.rx.entries, r.ev).out, Due(me.call))| <= 1
    ensures r.ev.Heard? && r.ev.frame.kind.Ack? ==> Answering(me, r).None?
  {
    var out := Step(me.cfg, me.rx.entries, r.ev).out;
    OneAnswerAnEvent(me.cfg, me.rx.entries, r.ev, AnyKey());
    forall m | m in out && Due(me.call)(m) ensures Eligible(AnyKey())(m) { assert AckEligible(m); }
    FilterWeaker(out, Eligible(AnyKey()), Due(me.call));
    FilterShrinks(Filter(out, Eligible(AnyKey())), Due(me.call));
  }

  /** What it makes the transmit side do: enqueue an ACK, or settle a row. */
  function Reaction(me: Station, r: Reception): Option<Action> {
    match Answering(me, r)
    case Some(m) => Some(Enqueue(AckDraft(UpperText(m.fromCall), r.ev.at), false))
    case None =>
      if r.ev.Heard? && r.ev.frame.kind.Ack? && r.forUs && OrEmpty(r.ev.frame.fromCall) != []
      then Some(Action.Ack(OrEmpty(r.ev.frame.fromCall), r.found)) else None
  }

  /** The frame is one of the other station's, not heard before. */
  ghost predicate Carried(parse: Parser, from: Station, heard: set<nat>, at: nat, f: ParsedFrame) {
    var air := from.sys.p.air;
    && at !in heard && at < |air| && air[at].Frame?
    && f == parse(from.call, TextOf(from.sys, air[at].id), air[at].index).(frequency := f.frequency)
  }

  ghost predicate Audible(parse: Parser, from: Station, heard: set<nat>, r: Reception) {
    && (r.ev.Heard? ==> OrEmpty(r.ev.frame.fromCall) == [] || Grammar.Callsign(OrEmpty(r.ev.frame.fromCall)))
    && (r.source.Some? ==> r.ev.Heard? && Carried(parse, from, heard, r.source.value, r.ev.frame))
  }

  ghost predicate MayHear(parse: Parser, from: Station, me: Station, r: Reception) {
    && Audible(parse, from, me.rx.heard, r)
    && match Reaction(me, r) case Some(a) => Enabled(me.sys, a) case None => true
  }

  /** The row whose frame was heard. */
  function RowHeard(air: Air, source: Option<nat>): Option<nat> {
    if source.Some? && source.value < |air| && air[source.value].Frame? then Some(air[source.value].id) else None
  }

  function OwnersAfter(owner: map<Key, nat>, ev: Event, row: Option<nat>): map<Key, nat> {
    if !ev.Heard? || !RoleOf(ev.frame).BufferedStarter? then owner
    else
      match row
      case Some(id) => owner[KeyOf(ev.frame) := id]
      case None => owner - {KeyOf(ev.frame)}
  }

  /** The row that an ACK takes, if the queue has room for it. */
  function Accepted(s: System): seq<nat> {
    if |ActiveIds(s.p.rows)| < QUEUE_DEPTH then [s.nextId] else []
  }

  /** The new answers, under the row that began the message. */
  function Credited(answers: map<nat, seq<nat>>, owner: map<Key, nat>, m: Option<Message>, ids: seq<nat>):
    map<nat, seq<nat>>
  {
    if m.None? || KeyOfMessage(m.value) !in owner then answers
    else
      var id := owner[KeyOfMessage(m.value)];
      answers[id := Listed(answers, id) + ids]
  }

  function Hearing(from: Station, me: Station, r: Reception): Receiver {
    var owner := OwnersAfter(me.rx.owner, r.ev, RowHeard(from.sys.p.air, r.source));
    Receiver(Step(me.cfg, me.rx.entries, r.ev).entries, owner,
             me.rx.heard + (if r.source.Some? then {r.source.value} else {}),
             Credited(me.rx.answers, owner, Answering(me, r), Accepted(me.sys)))
  }

  // ---- Moves ----

  datatype Move =
    | Local(side: bool, action: Action)
    | Hear(side: bool, reception: Reception)

  ghost predicate MayMove(parse: Parser, p: Pair, m: Move) {
    match m
    case Local(side, a) => Enabled(At(p, side).sys, a)
    case Hear(side, r) => MayHear(parse, At(p, !side), At(p, side), r)
  }

  /** A restart forgets the buffers too. */
  ghost function Stepped(encode: Encoder, s: Station, a: Action): Station
    requires Sound(s.sys) && Enabled(s.sys, a)
  {
    s.(sys := Next(encode, s.sys, a), rx := if a.Restart? then s.rx.(entries := [], owner := map[]) else s.rx)
  }

  ghost function Reacted(encode: Encoder, s: Station, reaction: Option<Action>): Station
    requires Sound(s.sys) && (reaction.Some? ==> Enabled(s.sys, reaction.value) && !reaction.value.Restart?)
  {
    if reaction.Some? then s.(sys := Next(encode, s.sys, reaction.value)) else s
  }

  ghost function Moved(encode: Encoder, parse: Parser, p: Pair, m: Move): Pair
    requires MayMove(parse, p, m) && Sound(p.left.sys) && Sound(p.right.sys)
  {
    match m
    case Local(side, a) => With(p, side, Stepped(encode, At(p, side), a))
    case Hear(side, r) =>
      var from, me := At(p, !side), At(p, side);
      With(p, side, Reacted(encode, me, Reaction(me, r)).(rx := Hearing(from, me, r)))
  }

  // ---- First frames ----

  predicate IsFirst(x: AirEvent, id: nat) { x.Frame? && x.id == id && x.index == 0 }

  function FirstFrames(air: Air, id: nat): nat {
    if air == [] then 0 else FirstFrames(Init(air), id) + One(IsFirst(Last(air), id))
  }

  /** The first frames of a row's bursts that were heard. */
  function HeardFirsts(air: Air, heard: set<nat>, id: nat): nat {
    if air == [] then 0
    else HeardFirsts(Init(air), heard, id) + One(|air| - 1 in heard && IsFirst(Last(air), id))
  }

  /** Between slots a burst is past its first frame, so that no burst sends its
      first frame twice. */
  ghost predicate FirstsFit(s: System) {
    && (s.p.bursts != [] && !s.phase.Playing? ==> s.p.bursts[0].next >= 1)
    && forall id: nat :: FirstFrames(s.p.air, id) <= KeyUps(s.p.air, id)
  }

  lemma FirstsNext(air: Air, x: AirEvent, id: nat)
    ensures FirstFrames(air + [x], id) == FirstFrames(air, id) + One(IsFirst(x, id))
  {
    assert Init(air + [x]) == air;
  }

  lemma FirstsTwo(air: Air, x: AirEvent, y: AirEvent, id: nat)
    ensures FirstFrames(air + [x, y], id) == FirstFrames(air, id) + One(IsFirst(x, id)) + One(IsFirst(y, id))
  {
    FirstsNext(air, x, id);
    FirstsNext(air + [x], y, id);
    assert (air + [x]) + [y] == air + [x, y];
  }

  lemma FirstsKept(e: Effect, p: Pipeline, q: Pipeline, from: Phase, to: Phase, id: nat)
    requires Has(e, p, q) && PhaseFits(e, p, from, to)
    requires p.bursts != [] && !from.Playing? ==> p.bursts[0].next >= 1
    requires FirstFrames(p.air, id) <= KeyUps(p.air, id)
    ensures FirstFrames(q.air, id) <= KeyUps(q.air, id)
  {
    CountsKept(e, p, q, id);
    FirstsAdded(e, p, q, id);
    if e.Continued? { assert !IsFirst(FrameOf(p.bursts[0], p.slot), id); }
  }

  /** What one step adds to the first frames of a row. */
  lemma FirstsAdded(e: Effect, p: Pipeline, q: Pipeline, id: nat)
    requires Has(e, p, q)
    ensures FirstFrames(q.air, id) == FirstFrames(p.air, id)
      + One(e.Opened? && e.burst.id == id)
      + One(e.Continued? && IsFirst(FrameOf(p.bursts[0], p.slot), id))
  {
    match e
    case Quiet =>
    case NewSlot =>
    case CutShort => FirstsNext(p.air, Release, id);
    case Opened(b, at) => FirstsTwo(p.air, KeyUp(b.id), FrameOf(b, p.slot), id);
    case Continued => FirstsNext(p.air, FrameOf(p.bursts[0], p.slot), id);
    case FrameFailed => FirstsNext(p.air, Release, id);
    case FramePlayed => FirstsNext(p.air, Played, id);
    case Completed => FirstsTwo(p.air, Played, Release, id);
    case Rebooted => FirstsNext(p.air, Boot, id);
  }

  lemma PastFirst(e: Effect, p: Pipeline, q: Pipeline, from: Phase, to: Phase)
    requires Has(e, p, q) && PhaseFits(e, p, from, to)
    requires p.bursts != [] && !from.Playing? ==> p.bursts[0].next >= 1
    ensures q.bursts != [] && !to.Playing? ==> q.bursts[0].next >= 1
  {
  }

  ghost predicate Good(encode: Encoder, s: System) { Inv(encode, s) && FirstsFit(s) }

  lemma GoodKept(encode: Encoder, s: System, a: Action)
    requires Good(encode, s) && Enabled(s, a)
    ensures Good(encode, Next(encode, s, a))
  {
    var t := Next(encode, s, a);
    var e := StepEffect(encode, s, a);
    InvKept(encode, s, a);
    PastFirst(e, s.p, t.p, s.phase, t.phase);
    forall id: nat ensures FirstFrames(t.p.air, id) <= KeyUps(t.p.air, id) {
      FirstsKept(e, s.p, t.p, s.phase, t.phase, id);
    }
  }

  lemma {:induction false} HeardFirstsFit(air: Air, heard: set<nat>, id: nat)
    ensures HeardFirsts(air, heard, id) <= FirstFrames(air, id)
  {
    if air != [] { HeardFirstsFit(Init(air), heard, id); }
  }

  /** Hearing one more event counts if it is a first frame. */
  lemma {:induction false} OneMoreHeard(air: Air, heard: set<nat>, at: nat, id: nat)
    requires at < |air| && at !in heard
    ensures HeardFirsts(air, heard + {at}, id) == HeardFirsts(air, heard, id) + One(IsFirst(air[at], id))
  {
    if at == |air| - 1 {
      HeardBefore(Init(air), heard, at, id);
    } else {
      OneMoreHeard(Init(air), heard, at, id);
    }
  }

  lemma {:induction false} HeardBefore(air: Air, heard: set<nat>, at: nat, id: nat)
    requires |air| <= at
    ensures HeardFirsts(air, heard + {at}, id) == HeardFirsts(air, heard, id)
  {
    if air != [] { HeardBefore(Init(air), heard, at, id); }
  }

  /** What goes on the air later was not heard before. */
  lemma {:induction false} HeardLater(air: Air, longer: Air, heard: set<nat>, id: nat)
    requires |air| <= |longer| && longer[..|air|] == air && forall at :: at in heard ==> at < |air|
    ensures HeardFirsts(longer, heard, id) == HeardFirsts(air, heard, id)
  {
    if |air| == |longer| {
      assert longer == air;
    } else {
      assert Init(longer)[..|air|] == air;
      HeardLater(air, Init(longer), heard, id);
    }
  }

  // ---- The invariant ----

  /** The row's first frame begins a buffered message. */
  ghost predicate Starts(parse: Parser, from: Station, id: nat) {
    id in from.sys.born && RoleOf(parse(from.call, from.sys.born[id].text, 0)).BufferedStarter?
  }

  ghost predicate AllAcks(s: System, ids: seq<nat>) {
    forall k :: k in ids ==> k in s.born && IsAck(s.born[k])
  }

  function OwnedBy(owner: map<Key, nat>, id: nat): Key -> bool { (k: Key) => k in owner && owner[k] == id }

  /** Each answer to a row, and each message that may still be answered, had a
      first frame of the row to begin it. */
  ghost predicate Balanced(air: Air, rx: Receiver, id: nat) {
    |AnswersTo(rx, id)| + |Filter(rx.entries, Unfinished(OwnedBy(rx.owner, id)))| <= HeardFirsts(air, rx.heard, id)
  }

  ghost predicate Answered(parse: Parser, from: Station, me: Station, id: nat) {
    AllAcks(me.sys, AnswersTo(me.rx, id)) && (AnswersTo(me.rx, id) != [] ==> Starts(parse, from, id))
  }

  ghost predicate Signed(es: seq<Entry>) {
    forall e :: e in es ==> Grammar.Callsign(e.key.from)
  }

  ghost predicate OwnersStart(parse: Parser, from: Station, owner: map<Key, nat>) {
    forall k :: k in owner ==> Starts(parse, from, owner[k])
  }

  ghost predicate Linked(parse: Parser, from: Station, me: Station) {
    && WellFormed(me.rx.entries) && Signed(me.rx.entries)
    && (forall at :: at in me.rx.heard ==> at < |from.sys.p.air|)
    && (forall id: nat :: Balanced(from.sys.p.air, me.rx, id))
    && (forall id: nat :: Answered(parse, from, me, id))
    && OwnersStart(parse, from, me.rx.owner)
  }

  ghost predicate PairInv(encode: Encoder, parse: Parser, p: Pair) {
    && Good(encode, p.left.sys) && Good(encode, p.right.sys)
    && Linked(parse, p.left, p.right) && Linked(parse, p.right, p.left)
  }

  // ---- A station's own steps ----

  ghost predicate Grown(s: System, t: System) {
    && (forall id :: id in s.born ==> id in t.born && t.born[id] == s.born[id])
    && |s.p.air| <= |t.p.air| && t.p.air[..|s.p.air|] == s.p.air
  }

  lemma StepGrows(encode: Encoder, s: System, a: Action)
    requires Inv(encode, s) && Enabled(s, a)
    ensures Grown(s, Next(encode, s, a))
  {
    var e := StepEffect(encode, s, a);
    BirthsKept(encode, s, a);
    NewEvents(e, s.p, Next(encode, s, a).p);
  }

  lemma SenderGrows(parse: Parser, from: Station, later: Station, me: Station)
    requires Linked(parse, from, me) && later.call == from.call && Grown(from.sys, later.sys)
    ensures Linked(parse, later, me)
  {
    forall id: nat ensures Balanced(later.sys.p.air, me.rx, id) {
      assert Balanced(from.sys.p.air, me.rx, id);
      HeardLater(from.sys.p.air, later.sys.p.air, me.rx.heard, id);
    }
    forall id: nat ensures Answered(parse, later, me, id) {
      assert Answered(parse, from, me, id);
    }
  }

  lemma HearerGrows(parse: Parser, from: Station, me: Station, later: Station)
    requires Linked(parse, from, me) && Grown(me.sys, later.sys)
    requires later.rx == me.rx || later.rx == me.rx.(entries := [], owner := map[])
    ensures Linked(parse, from, later)
  {
    forall id: nat ensures Balanced(from.sys.p.air, later.rx, id) {
      assert Balanced(from.sys.p.air, me.rx, id);
    }
    forall id: nat ensures Answered(parse, from, later, id) {
      assert Answered(parse, from, me, id);
    }
  }

  lemma LocalKept(encode: Encoder, parse: Parser, p: Pair, side: bool, a: Action)
    requires PairInv(encode, parse, p) && Enabled(At(p, side).sys, a)
    ensures PairInv(encode, parse, With(p, side, Stepped(encode, At(p, side), a)))
  {
    var me, other := At(p, side), At(p, !side);
    var later := Stepped(encode, me, a);
    GoodKept(encode, me.sys, a);
    StepGrows(encode, me.sys, a);
    SenderGrows(parse, me, later, other);
    HearerGrows(parse, other, me, later);
  }

  // ---- Hearing keeps the invariant ----

  lemma {:induction false} FrameIsCounted(air: Air, at: nat)
    requires at < |air| && air[at].Frame?
    ensures FramesSent(air, air[at].id) > 0
  {
    if at < |air| - 1 { FrameIsCounted(Init(air), at); }
  }

  /** What is on the air was enqueued. */
  lemma HeardIsBorn(encode: Encoder, s: System, at: nat)
    requires Inv(encode, s) && at < |s.p.air| && s.p.air[at].Frame?
    ensures s.p.air[at].id in s.born
  {
    FrameIsCounted(s.p.air, at);
    assert CountFits(encode, s.born, s.p, s.phase, s.p.air[at].id);
  }

  lemma FrequencyIsFree(f: ParsedFrame, freq: real)
    ensures RoleOf(f.(frequency := freq)) == RoleOf(f)
  {
  }

  /** A heard frame that begins a buffered message is a first frame. */
  lemma StarterIsFirst(encode: Encoder, parse: Parser, from: Station, heard: set<nat>, at: nat, f: ParsedFrame)
    requires Carries(parse) && Inv(encode, from.sys) && Carried(parse, from, heard, at, f)
    requires RoleOf(f).BufferedStarter?
    ensures IsFirst(from.sys.p.air[at], from.sys.p.air[at].id) && Starts(parse, from, from.sys.p.air[at].id)
  {
    var x := from.sys.p.air[at];
    HeardIsBorn(encode, from.sys, at);
    FrequencyIsFree(parse(from.call, TextOf(from.sys, x.id), x.index), f.frequency);
  }

  lemma OwnerStarts(parse: Parser, from: Station, owner: map<Key, nat>, ev: Event, row: Option<nat>)
    requires OwnersStart(parse, from, owner)
    requires ev.Heard? && RoleOf(ev.frame).BufferedStarter? && row.Some? ==> Starts(parse, from, row.value)
    ensures OwnersStart(parse, from, OwnersAfter(owner, ev, row))
  {
  }

  lemma OwnersKept(encode: Encoder, parse: Parser, from: Station, me: Station, r: Reception)
    requires Carries(parse) && Inv(encode, from.sys) && Audible(parse, from, me.rx.heard, r)
    requires OwnersStart(parse, from, me.rx.owner)
    ensures OwnersStart(parse, from, OwnersAfter(me.rx.owner, r.ev, RowHeard(from.sys.p.air, r.source)))
  {
    if r.ev.Heard? && RoleOf(r.ev.frame).BufferedStarter? && r.source.Some? {
      StarterIsFirst(encode, parse, from, me.rx.heard, r.source.value, r.ev.frame);
    }
    OwnerStarts(parse, from, me.rx.owner, r.ev, RowHeard(from.sys.p.air, r.source));
  }

  lemma OwnersRekeyed(owner: map<Key, nat>, ev: Event, row: Option<nat>, id: nat)
    ensures Rekeyed(OwnedBy(owner, id), OwnedBy(OwnersAfter(owner, ev, row), id), ev)
    ensures ev.Heard? && RoleOf(ev.frame).BufferedStarter? ==>
      OwnedBy(OwnersAfter(owner, ev, row), id)(KeyOf(ev.frame)) == (row == Some(id))
  {
  }

  /** The starter that is credited was heard as a first frame of the row. */
  lemma StarterIsHeard(encode: Encoder, parse: Parser, from: Station, me: Station, r: Reception, id: nat)
    requires Carries(parse) && Inv(encode, from.sys) && Audible(parse, from, me.rx.heard, r)
    ensures var air, rx := from.sys.p.air, Hearing(from, me, r);
      HeardFirsts(air, me.rx.heard, id) + One(StartsMail(r.ev) && OwnedBy(rx.owner, id)(KeyOf(r.ev.frame)))
      <= HeardFirsts(air, rx.heard, id)
  {
    var air := from.sys.p.air;
    OwnersRekeyed(me.rx.owner, r.ev, RowHeard(air, r.source), id);
    match r.source
    case None => assert me.rx.heard + {} == me.rx.heard;
    case Some(at) =>
      OneMoreHeard(air, me.rx.heard, at, id);
      if StartsMail(r.ev) { StarterIsFirst(encode, parse, from, me.rx.heard, at, r.ev.frame); }
  }

  lemma AnsweredIsEligible(me: Station, r: Reception, keys: Key -> bool)
    requires Answering(me, r).Some? && keys(KeyOfMessage(Answering(me, r).value))
    ensures |Filter(Step(me.cfg, me.rx.entries, r.ev).out, Eligible(keys))| >= 1
  {
    var m := Answering(me, r).value;
    assert Due(me.call)(m) && AckEligible(m);
    assert m in Filter(Step(me.cfg, me.rx.entries, r.ev).out, Eligible(keys));
  }

  lemma CreditedOne(answers: map<nat, seq<nat>>, owner: map<Key, nat>, m: Option<Message>, ids: seq<nat>, id: nat)
    requires |ids| <= 1
    ensures var before, after := Listed(answers, id), Listed(Credited(answers, owner, m, ids), id);
      var mine := m.Some? && OwnedBy(owner, id)(KeyOfMessage(m.value));
      && |after| <= |before| + One(mine)
      && (forall k :: k in after ==> k in before || (mine && k in ids))
      && (after != [] ==> before != [] || mine)
  {
  }

  lemma BalanceKept(encode: Encoder, parse: Parser, from: Station, me: Station, r: Reception, id: nat)
    requires Carries(parse) && Inv(encode, from.sys) && Audible(parse, from, me.rx.heard, r)
    requires WellFormed(me.rx.entries) && Balanced(from.sys.p.air, me.rx, id)
    ensures Balanced(from.sys.p.air, Hearing(from, me, r), id)
  {
    var rx := Hearing(from, me, r);
    var keys := OwnedBy(rx.owner, id);
    OwnersRekeyed(me.rx.owner, r.ev, RowHeard(from.sys.p.air, r.source), id);
    StepCredits(me.cfg, me.rx.entries, r.ev, OwnedBy(me.rx.owner, id), keys);
    StarterIsHeard(encode, parse, from, me, r, id);
    CreditedOne(me.rx.answers, rx.owner, Answering(me, r), Accepted(me.sys), id);
    if Answering(me, r).Some? && keys(KeyOfMessage(Answering(me, r).value)) {
      AnsweredIsEligible(me, r, keys);
    }
  }

  // ---- Callsigns ----

  lemma ProcessSigned(es: seq<Entry>, f: ParsedFrame, now: real)
    requires WellFormed(es) && Signed(es)
    requires OrEmpty(f.fromCall) == [] || Grammar.Callsign(OrEmpty(f.fromCall))
    ensures Signed(Process(es, f, now).entries)
    ensures forall m :: m in Process(es, f, now).out ==> Grammar.Callsign(m.fromCall)
  {
    match RoleOf(f)
    case BufferedStarter(_, _) =>
    case NonBufferedStarter =>
      var prior := Lookup(es, KeyOf(f));
      if prior.Some? { assert Agrees(Entry(KeyOf(f), prior.value)); }
    case Continuation => ContinueSigned(es, f, now);
    case Unrelated =>
  }

  lemma ContinueSigned(es: seq<Entry>, f: ParsedFrame, now: real)
    requires WellFormed(es) && Signed(es)
    ensures Signed(OnContinuation(es, f, now).entries)
    ensures forall m :: m in OnContinuation(es, f, now).out ==> Grammar.Callsign(m.fromCall)
  {
    var candidates := Filter(es, InReach(BucketOffset(f.frequency), f.frequency));
    if candidates != [] {
      var chosen := Latest(candidates);
      assert Agrees(chosen);
      var r := Put(es, chosen.key, Extend(chosen.buffer, f, now));
      forall e | e in r ensures Grammar.Callsign(e.key.from) {
        var i :| 0 <= i < |r| && r[i] == e;
        assert es[i] in es;
      }
    }
  }

  lemma StepSigned(cfg: Timeouts, es: seq<Entry>, ev: Event)
    requires WellFormed(es) && Signed(es)
    requires ev.Heard? ==> OrEmpty(ev.frame.fromCall) == [] || Grammar.Callsign(OrEmpty(ev.frame.fromCall))
    ensures Signed(Step(cfg, es, ev).entries)
  {
    if ev.Heard? {
      FilterWellFormed(es, Live(cfg, ev.at));
      ProcessSigned(Filter(es, Live(cfg, ev.at)), ev.frame, ev.at);
    }
  }

  lemma AnswerSigned(parse: Parser, from: Station, me: Station, r: Reception)
    requires WellFormed(me.rx.entries) && Signed(me.rx.entries) && Audible(parse, from, me.rx.heard, r)
    requires Answering(me, r).Some?
    ensures Grammar.Callsign(Answering(me, r).value.fromCall)
  {
    var m, es := Answering(me, r).value, me.rx.entries;
    assert Due(me.call)(m) && AckEligible(m);
    EligibleOfStep(me.cfg, es, r.ev, AnyKey());
    assert Eligible(AnyKey())(m) && m in Filter(Step(me.cfg, es, r.ev).out, Eligible(AnyKey()));
    FilterWellFormed(es, Live(me.cfg, r.ev.at));
    ProcessSigned(Filter(es, Live(me.cfg, r.ev.at)), r.ev.frame, r.ev.at);
  }

  // ---- The answers are ACKs ----

  lemma ReactionIsAck(encode: Encoder, parse: Parser, from: Station, me: Station, r: Reception)
    requires Sound(me.sys) && WellFormed(me.rx.entries) && Signed(me.rx.entries) && MayHear(parse, from, me, r)
    requires Answering(me, r).Some?
    ensures AllAcks(Next(encode, me.sys, Reaction(me, r).value), Accepted(me.sys))
  {
    AnswerSigned(parse, from, me, r);
    Grammar.UpperCallsign(Answering(me, r).value.fromCall);
  }

  lemma AnswersKept(encode: Encoder, parse: Parser, from: Station, me: Station, r: Reception, later: System, id: nat)
    requires Answered(parse, from, me, id) && Grown(me.sys, later)
    requires OwnersStart(parse, from, Hearing(from, me, r).owner)
    requires Answering(me, r).Some? ==> AllAcks(later, Accepted(me.sys))
    ensures Answered(parse, from, me.(sys := later, rx := Hearing(from, me, r)), id)
  {
    CreditedOne(me.rx.answers, Hearing(from, me, r).owner, Answering(me, r), Accepted(me.sys), id);
  }
  lemma HeardKept(encode: Encoder, parse: Parser, from: Station, me: Station, r: Reception, later: System)
    requires Carries(parse) && Inv(encode, from.sys) && Audible(parse, from, me.rx.heard, r) && Linked(parse, from, me)
    requires Grown(me.sys, later) && (Answering(me, r).Some? ==> AllAcks(later, Accepted(me.sys)))
    ensures Linked(parse, from, me.(sys := later, rx := Hearing(from, me, r)))
  {
    var next := me.(sys := later, rx := Hearing(from, me, r));
    StepWellFormed(me.cfg, me.rx.entries, r.ev);
    StepSigned(me.cfg, me.rx.entries, r.ev);
    OwnersKept(encode, parse, from, me, r);
    forall id: nat ensures Balanced(from.sys.p.air, next.rx, id) {
      assert Balanced(from.sys.p.air, me.rx, id);
      BalanceKept(encode, parse, from, me, r, id);
    }
    forall id: nat ensures Answered(parse, from, next, id) {
      assert Answered(parse, from, me, id);
      AnswersKept(encode, parse, from, me, r, later, id);
    }
  }

  lemma ReactionGrows(encode: Encoder, s: Station, reaction: Option<Action>)
    requires Good(encode, s.sys) && (reaction.Some? ==> Enabled(s.sys, reaction.value) && !reaction.value.Restart?)
    ensures Good(encode, Reacted(encode, s, reaction).sys) && Grown(s.sys, Reacted(encode, s, reaction).sys)
  {
    if reaction.Some? {
      GoodKept(encode, s.sys, reaction.value);
      StepGrows(encode, s.sys, reaction.value);
    }
  }

  lemma HearKept(encode: Encoder, parse: Parser, p: Pair, side: bool, r: Reception)
    requires Carries(parse) && PairInv(encode, parse, p) && MayMove(parse, p, Hear(side, r))
    ensures PairInv(encode, parse, Moved(encode, parse, p, Hear(side, r)))
  {
    var from, me := At(p, !side), At(p, side);
    var later := Reacted(encode, me, Reaction(me, r));
    ReactionGrows(encode, me, Reaction(me, r));
    if Answering(me, r).Some? { ReactionIsAck(encode, parse, from, me, r); }
    HeardKept(encode, parse, from, me, r, later.sys);
    SenderGrows(parse, me, later.(rx := Hearing(from, me, r)), from);
  }

  // ---- Runs ----

  ghost predicate Moves(encode: Encoder, parse: Parser, p: Pair, run: seq<Move>)
    decreases |run|
  {
    run == []
    || (Sound(p.left.sys) && Sound(p.right.sys) && MayMove(parse, p, run[0])
        && Moves(encode, parse, Moved(encode, parse, p, run[0]), run[1..]))
  }

  ghost function AfterMoves(encode: Encoder, parse: Parser, p: Pair, run: seq<Move>): Pair
    requires Moves(encode, parse, p, run)
    decreases |run|
  {
    if run == [] then p else AfterMoves(encode, parse, Moved(encode, parse, p, run[0]), run[1..])
  }

  lemma {:induction false} MovesKeep(encode: Encoder, parse: Parser, p: Pair, run: seq<Move>)
    requires Carries(parse) && PairInv(encode, parse, p) && Moves(encode, parse, p, run)
    ensures PairInv(encode, parse, AfterMoves(encode, parse, p, run))
    decreases |run|
  {
    if run != [] {
      match run[0] {
        case Local(side, a) => LocalKept(encode, parse, p, side, a);
        case Hear(side, r) => HearKept(encode, parse, p, side, r);
      }
      MovesKeep(encode, parse, Moved(encode, parse, p, run[0]), run[1..]);
    }
  }

  lemma NewStationsLinked(parse: Parser, from: Station, me: Station)
    requires from == NewStation(from.call, from.cfg) && me == NewStation(me.call, me.cfg)
    ensures Linked(parse, from, me)
  {
    forall id: nat ensures Balanced([], me.rx, id) && Answered(parse, from, me, id) {}
  }

  lemma StartGood(encode: Encoder)
    ensures Good(encode, START)
  {
    StartInv(encode);
    forall id: nat ensures FirstFrames([], id) <= KeyUps([], id) {}
  }

  // ---- The bound ----

  function Bursts(air: Air, ids: seq<nat>): nat {
    if ids == [] then 0 else KeyUps(air, ids[0]) + Bursts(air, ids[1..])
  }

  lemma {:induction false} BurstsBound(encode: Encoder, s: System, ids: seq<nat>)
    requires Inv(encode, s)
    ensures Bursts(s.p.air, ids) <= MAX_ATTEMPTS * |ids|
  {
    if ids != [] {
      assert CountFits(encode, s.born, s.p, s.phase, ids[0]);
      BurstsBound(encode, s, ids[1..]);
    }
  }

  /** The transmissions that a message of one station costs, with the ACKs that
      the other sends for it. */
  function CostOf(from: Station, me: Station, id: nat): nat {
    KeyUps(from.sys.p.air, id) + Bursts(me.sys.p.air, AnswersTo(me.rx, id))
  }

  lemma AnswersAreFew(encode: Encoder, parse: Parser, from: Station, me: Station, id: nat)
    requires Good(encode, from.sys) && Linked(parse, from, me)
    ensures |AnswersTo(me.rx, id)| <= KeyUps(from.sys.p.air, id) <= MAX_ATTEMPTS
  {
    assert Balanced(from.sys.p.air, me.rx, id);
    HeardFirstsFit(from.sys.p.air, me.rx.heard, id);
    assert CountFits(encode, from.sys.born, from.sys.p, from.sys.phase, id);
  }

  lemma AcksAreFinal(parse: Parser, from: Station, me: Station, id: nat)
    requires Carries(parse) && Linked(parse, from, me) && id in from.sys.born && IsAck(from.sys.born[id])
    ensures AnswersTo(me.rx, id) == []
  {
    var d := from.sys.born[id];
    var f := parse(from.call, AckText(d.toCall.value), 0);
    assert Answered(parse, from, me, id);
    Grammar.AckStartsNothing(from.call, d.toCall.value, f.frequency);
  }

  lemma CostBound(encode: Encoder, parse: Parser, from: Station, me: Station, id: nat)
    requires Carries(parse) && Good(encode, from.sys) && Good(encode, me.sys) && Linked(parse, from, me)
    ensures |AnswersTo(me.rx, id)| <= KeyUps(from.sys.p.air, id)
    ensures AllAcks(me.sys, AnswersTo(me.rx, id))
    ensures CostOf(from, me, id) <= MAX_ATTEMPTS + MAX_ATTEMPTS * MAX_ATTEMPTS
    ensures id in from.sys.born && IsAck(from.sys.born[id]) ==> AnswersTo(me.rx, id) == []
  {
    AnswersAreFew(encode, parse, from, me, id);
    BurstsBound(encode, me.sys, AnswersTo(me.rx, id));
    assert Answered(parse, from, me, id);
    if id in from.sys.born && IsAck(from.sys.born[id]) { AcksAreFinal(parse, from, me, id); }
  }

  /** However much is lost and whatever else is on the band: a message gets at
      most one ACK for each time it was sent, an ACK gets none, and a message
      with all its ACKs takes at most twelve transmissions. */
  lemma AtMostTwelve(encode: Encoder, parse: Parser, left: Station, right: Station, run: seq<Move>, side: bool, id: nat)
    requires left == NewStation(left.call, left.cfg) && right == NewStation(right.call, right.cfg)
    requires Carries(parse) && Moves(encode, parse, Pair(left, right), run)
    ensures var p := AfterMoves(encode, parse, Pair(left, right), run);
      var from, me := At(p, side), At(p, !side);
      && |AnswersTo(me.rx, id)| <= KeyUps(from.sys.p.air, id)
      && AllAcks(me.sys, AnswersTo(me.rx, id))
      && (id in from.sys.born && IsAck(from.sys.born[id]) ==> AnswersTo(me.rx, id) == [])
      && CostOf(from, me, id) <= MAX_ATTEMPTS + MAX_ATTEMPTS * MAX_ATTEMPTS
  {
    StartGood(encode);
    NewStationsLinked(parse, left, right);
    NewStationsLinked(parse, right, left);
    MovesKeep(encode, parse, Pair(left, right), run);
    var p := AfterMoves(encode, parse, Pair(left, right), run);
    CostBound(encode, parse, At(p, side), At(p, !side), id);
  }
}
