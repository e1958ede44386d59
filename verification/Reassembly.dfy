/** Reassembly of multi-frame messages: the in-flight buffers, what one frame
    does to them, and the assembler object that keeps them. */
module Reassembly {
  import opened Text
  import opened Sequences
  import opened Checksum

  // ---- Frames, buffers, messages ----

  datatype FrameKind =
    | Heartbeat | Cq | DirectedMessage | DirectedQuery | DirectedCommand | Ack | AllCall | Unknown

  /** The fields of a parsed frame that reassembly reads. */
  datatype ParsedFrame = ParsedFrame(
    kind: FrameKind, fromCall: Option<Text>, toCall: Option<Text>, body: Text, frequency: real)

  /** The buffered verbs; `Other` is the first word of a non-buffered message. */
  datatype Verb = Msg | MsgTo | Query | QueryMsgs | QueryCall | Cmd | Relay | Other(word: Text)

  /** `bucket` is in Hz, a multiple of 10. */
  datatype Key = Key(from: Text, to: Text, bucket: int)

  datatype Buffer = Buffer(
    fromCall: Text, toCall: Text, verb: Verb, bucket: int, rawOffset: real, body: Text,
    startedAt: real, lastFrameAt: real, frameCount: nat, buffered: bool)

  /** One item of the insertion-ordered dict of buffers. */
  datatype Entry = Entry(key: Key, buffer: Buffer)

  datatype Message = Message(
    fromCall: Text, toCall: Text, verb: Verb, body: Text, checksumValid: bool, rawText: Text,
    offset: int, startedAt: real, completedAt: real, frameCount: nat, buffered: bool)

  datatype Timeouts = Timeouts(frame: real, nonBuffered: real)

  const RAW_TOLERANCE_HZ := 15.0
  const EOT: Latin1Char := 4 as char

  // ---- Classification ----

  /** Python's `round`: halves go to the even neighbour. */
  function RoundHalfEven(x: real): int {
    var low := x.Floor;
    var rest := x - low as real;
    if rest < 0.5 then low
    else if rest > 0.5 then low + 1
    else if low % 2 == 0 then low else low + 1
  }

  function BucketOffset(freq: real): int { RoundHalfEven(freq / 10.0) * 10 }

  /** The word ends here: the end of the text or whitespace. */
  predicate WordEnds(body: Text, n: nat) {
    n == |body| || (n < |body| && IsSpace(body[n]))
  }

  function ClassifyFirstFrame(f: ParsedFrame): Option<(Verb, Text)> {
    if !(f.kind.DirectedMessage? || f.kind.DirectedCommand? || f.kind.DirectedQuery?) then None
    else
      var body := LStrip(f.body);
      if body == [] then None
      else if StartsWithUpper(body, "MSG TO:") then Some((MsgTo, LStrip(body[7..])))
      else if StartsWithUpper(body, "MSG") && WordEnds(body, 3) then Some((Msg, LStrip(body[3..])))
      else if StartsWithUpper(body, "QUERY MSGS") then Some((QueryMsgs, LStrip(body[10..])))
      else if StartsWithUpper(body, "QUERY CALL") then Some((QueryCall, LStrip(body[10..])))
      else if StartsWithUpper(body, "QUERY") && WordEnds(body, 5) then Some((Query, LStrip(body[5..])))
      else if StartsWithUpper(body, "CMD") && WordEnds(body, 3) then Some((Cmd, LStrip(body[3..])))
      else if body[0] == '>' then Some((Relay, LStrip(body[1..])))
      else None
  }

  predicate AllDecimal(t: Text) {
    t != [] && forall i :: 0 <= i < |t| ==> IsDecimal(t[i])
  }

  /** The id in "MSG <id>" or "MSG ID <id>", with at most one trailing token. */
  function QueryMsgId(rest: Text): Option<Text> {
    var t := Tokens(rest);
    if |t| < 2 || UpperText(t[0]) != "MSG" then None
    else
      var k := if UpperText(t[1]) == "ID" then 2 else 1;
      if k < |t| <= k + 2 && AllDecimal(t[k]) then Some(t[k]) else None
  }

  /** What `feed` takes a frame to be. */
  datatype Role =
    | BufferedStarter(verb: Verb, rest: Text)
    | NonBufferedStarter
    | Continuation
    | Unrelated

  predicate IsDirectedHeartbeat(f: ParsedFrame) {
    f.kind.Heartbeat? && OrEmpty(f.toCall) != [] && OrEmpty(f.toCall)[0] != '@'
  }

  function RoleOf(f: ParsedFrame): Role {
    var starter := ClassifyFirstFrame(f);
    if starter.Some? && OrEmpty(f.fromCall) != [] then BufferedStarter(starter.value.0, starter.value.1)
    else if (f.kind.DirectedMessage? || f.kind.DirectedCommand? || f.kind.DirectedQuery? || IsDirectedHeartbeat(f))
            && OrEmpty(f.fromCall) != [] && f.body != [] then NonBufferedStarter
    else if f.kind.Unknown? && f.body != [] then Continuation
    else Unrelated
  }

  function KeyOf(f: ParsedFrame): Key {
    Key(OrEmpty(f.fromCall), UpperText(OrEmpty(f.toCall)), BucketOffset(f.frequency))
  }

  // ---- The dict of buffers ----

  function NotKey(key: Key): Entry -> bool { (e: Entry) => e.key != key }

  function Pop(es: seq<Entry>, key: Key): seq<Entry> { Filter(es, NotKey(key)) }

  function Lookup(es: seq<Entry>, key: Key): (r: Option<Buffer>)
    ensures r.Some? ==> Entry(key, r.value) in es
    ensures r.None? ==> forall e :: e in es ==> e.key != key
  {
    if es == [] then None
    else if es[0].key == key then Some(es[0].buffer)
    else Lookup(es[1..], key)
  }

  /** Overwrite in place: the order of a dict does not change. */
  function Put(es: seq<Entry>, key: Key, b: Buffer): (r: seq<Entry>)
    ensures |r| == |es|
    ensures forall i :: 0 <= i < |es| ==> r[i] == if es[i].key == key then Entry(key, b) else es[i]
  {
    if es == [] then []
    else [if es[0].key == key then Entry(key, b) else es[0]] + Put(es[1..], key, b)
  }

  // ---- Timeouts ----

  predicate Stale(cfg: Timeouts, b: Buffer, now: real) {
    b.lastFrameAt < now - (if b.buffered then cfg.frame else cfg.nonBuffered)
  }

  function Live(cfg: Timeouts, now: real): Entry -> bool {
    (e: Entry) => !Stale(cfg, e.buffer, now)
  }

  /** Timed-out non-buffered buffers: these are complete. */
  function Expired(cfg: Timeouts, now: real): Entry -> bool {
    (e: Entry) => !e.buffer.buffered && Stale(cfg, e.buffer, now)
  }

  /** Timed-out buffered buffers: these have failed. */
  function Lapsed(cfg: Timeouts, now: real): Entry -> bool {
    (e: Entry) => e.buffer.buffered && Stale(cfg, e.buffer, now)
  }

  function Not(p: Entry -> bool): Entry -> bool { (e: Entry) => !p(e) }

  /** The message a buffer makes as it stands. */
  function Emit(b: Buffer, valid: bool, now: real): Message {
    Message(b.fromCall, b.toCall, b.verb, b.body, valid, b.body, b.bucket, b.startedAt, now,
            b.frameCount, b.buffered)
  }

  function Emitter(valid: bool, now: real): Entry -> Message {
    (e: Entry) => Emit(e.buffer, valid, now)
  }

  // ---- One frame ----

  /** The buffers afterwards, the messages emitted, and the buffers lost
      without a message. */
  datatype Outcome = Outcome(entries: seq<Entry>, out: seq<Message>, lost: seq<Entry>)

  function At(key: Key): Entry -> bool { (e: Entry) => e.key == key }

  function Single(f: ParsedFrame, verb: Verb, body: Text, raw: Text, now: real): Message {
    var key := KeyOf(f);
    Message(key.from, key.to, verb, body, true, raw, key.bucket, now, now, 1, true)
  }

  /** The message a buffered starter completes on its own, if it does. */
  function SingleFrame(f: ParsedFrame, verb: Verb, rest: Text, now: real): Option<Message> {
    var stripped := Without(rest, EOT);
    if rest != [] && VerifyChecksum16(stripped).Some? then
      Some(Single(f, verb, VerifyChecksum16(stripped).value, stripped, now))
    else if rest == [] && verb.QueryMsgs? then Some(Single(f, verb, [], [], now))
    else if verb.Query? && rest != [] && QueryMsgId(rest).Some? then
      Some(Single(f, verb, "MSG " + QueryMsgId(rest).value, rest, now))
    else None
  }

  function NewBuffer(f: ParsedFrame, verb: Verb, body: Text, now: real, buffered: bool): Buffer {
    var key := KeyOf(f);
    Buffer(key.from, key.to, verb, key.bucket, f.frequency, body, now, now, 1, buffered)
  }

  function OnBufferedStarter(es: seq<Entry>, f: ParsedFrame, verb: Verb, rest: Text, now: real): Outcome {
    var key := KeyOf(f);
    var single := SingleFrame(f, verb, rest, now);
    if single.Some? then Outcome(Pop(es, key), [single.value], Filter(es, At(key)))
    else Outcome(Pop(es, key) + [Entry(key, NewBuffer(f, verb, rest, now, true))], [], Filter(es, At(key)))
  }

  /** The first word of a non-buffered body, in upper case. */
  function FirstWord(body: Text): Text {
    var t := Tokens(body);
    if t == [] then [] else UpperText(t[0])
  }

  function OnNonBufferedStarter(es: seq<Entry>, f: ParsedFrame, now: real): Outcome {
    var key := KeyOf(f);
    var body := Without(f.body, EOT);
    var prior := Lookup(es, key);
    Outcome(
      Pop(es, key) + [Entry(key, NewBuffer(f, Other(FirstWord(body)), body, now, false))],
      if prior.Some? then [Emit(prior.value, true, now)] else [],
      [])
  }

  function Abs(x: real): real { if x < 0.0 then -x else x }

  function InReach(bucket: int, raw: real): Entry -> bool {
    (e: Entry) => e.key.bucket == bucket && Abs(e.buffer.rawOffset - raw) <= RAW_TOLERANCE_HZ
  }

  /** The most recently started entry; the earliest inserted among equals. */
  function Latest(es: seq<Entry>): (r: Entry)
    requires es != []
    ensures r in es
  {
    if |es| == 1 then es[0]
    else
      var r := Latest(es[1..]);
      if r.buffer.startedAt > es[0].buffer.startedAt then r else es[0]
  }

  /** Non-buffered text may have lost the space between a number and a word. */
  function Join(body: Text, addition: Text, buffered: bool): Text {
    if !buffered && addition != [] && body != []
       && IsDigit(body[|body| - 1]) && IsUpperLetter(addition[0])
    then body + [' '] + addition
    else body + addition
  }

  function Extend(b: Buffer, f: ParsedFrame, now: real): Buffer {
    b.(body := Join(b.body, Without(f.body, EOT), b.buffered),
       lastFrameAt := now, rawOffset := f.frequency, frameCount := b.frameCount + 1)
  }

  /** An extended buffer is emitted if it verifies or has seen the end of the
      transmission, and kept otherwise. Non-buffered ones are always kept. */
  function Conclude(es: seq<Entry>, key: Key, b: Buffer, validated: Option<Text>, eot: bool, now: real): Outcome {
    if b.buffered && validated.Some? then
      Outcome(Pop(es, key), [Emit(b, true, now).(body := validated.value)], [])
    else if b.buffered && eot then Outcome(Pop(es, key), [Emit(b, false, now)], [])
    else Outcome(Put(es, key, b), [], [])
  }

  function OnContinuation(es: seq<Entry>, f: ParsedFrame, now: real): Outcome {
    var candidates := Filter(es, InReach(BucketOffset(f.frequency), f.frequency));
    if candidates == [] then Outcome(es, [], [])
    else
      var chosen := Latest(candidates);
      var b := Extend(chosen.buffer, f, now);
      Conclude(es, chosen.key, b, VerifyChecksum16(b.body), EOT in f.body, now)
  }

  function Process(es: seq<Entry>, f: ParsedFrame, now: real): Outcome {
    match RoleOf(f)
    case BufferedStarter(verb, rest) => OnBufferedStarter(es, f, verb, rest, now)
    case NonBufferedStarter => OnNonBufferedStarter(es, f, now)
    case Continuation => OnContinuation(es, f, now)
    case Unrelated => Outcome(es, [], [])
  }

  // ---- The three entry points ----

  function AfterFeed(cfg: Timeouts, es: seq<Entry>, f: ParsedFrame, now: real): Outcome {
    var r := Process(Filter(es, Live(cfg, now)), f, now);
    Outcome(r.entries,
            Map(Filter(es, Expired(cfg, now)), Emitter(true, now)) + r.out,
            Filter(es, Lapsed(cfg, now)) + r.lost)
  }

  function AfterSweepCompleted(cfg: Timeouts, es: seq<Entry>, now: real): Outcome {
    Outcome(Filter(es, Not(Expired(cfg, now))),
            Map(Filter(es, Expired(cfg, now)), Emitter(true, now)), [])
  }

  function AfterSweepTimeouts(cfg: Timeouts, es: seq<Entry>, now: real): Outcome {
    Outcome(Filter(es, Not(Lapsed(cfg, now))),
            Map(Filter(es, Lapsed(cfg, now)), Emitter(false, now)), [])
  }

  // ---- What every step keeps ----

  /** Keys are distinct and agree with the buffers' own fields. */
  ghost predicate WellFormed(es: seq<Entry>) {
    && (forall i, j :: 0 <= i < j < |es| ==> es[i].key != es[j].key)
    && (forall e :: e in es ==> Agrees(e))
  }

  ghost predicate Agrees(e: Entry) {
    && e.key == Key(e.buffer.fromCall, e.buffer.toCall, e.buffer.bucket)
    && BucketOffset(e.buffer.rawOffset) == e.key.bucket
  }

  lemma OneAtKey(es: seq<Entry>, d: Entry, e: Entry)
    requires WellFormed(es) && d in es && e in es && d.key == e.key
    ensures d == e
  {
    var i :| 0 <= i < |es| && es[i] == d;
    var j :| 0 <= j < |es| && es[j] == e;
  }

  lemma {:induction false} FilterWellFormed(es: seq<Entry>, p: Entry -> bool)
    requires WellFormed(es)
    ensures WellFormed(Filter(es, p))
  {
    if es != [] {
      assert forall e :: e in es[1..] ==> e in es && e.key != es[0].key;
      FilterWellFormed(es[1..], p);
    }
  }

  lemma StartWellFormed(es: seq<Entry>, key: Key, b: Buffer)
    requires WellFormed(es) && Agrees(Entry(key, b))
    ensures WellFormed(Pop(es, key) + [Entry(key, b)])
  {
    var rest := Pop(es, key);
    FilterWellFormed(es, NotKey(key));
    forall i | 0 <= i < |rest| ensures rest[i].key != key { assert rest[i] in rest; }
  }

  lemma PutWellFormed(es: seq<Entry>, key: Key, b: Buffer)
    requires WellFormed(es) && Agrees(Entry(key, b))
    ensures WellFormed(Put(es, key, b))
  {
    var r := Put(es, key, b);
    forall e | e in r ensures Agrees(e) {
      var i :| 0 <= i < |r| && r[i] == e;
      assert es[i] in es;
    }
  }

  lemma {:induction false} LookupIsFilter(es: seq<Entry>, key: Key)
    requires WellFormed(es)
    ensures Filter(es, At(key))
         == match Lookup(es, key) case Some(b) => [Entry(key, b)] case None => []
  {
    if es != [] {
      if es[0].key == key {
        FilterNone(es[1..], At(key));
      } else {
        LookupIsFilter(es[1..], key);
      }
    }
  }
}
