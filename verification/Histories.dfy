/** Every buffer holds exactly the text of the frames it took in, and so does
    every message made from one. */
module Histories {
  import opened Text
  import opened Sequences
  import opened Checksum
  import opened Reassembly
  import opened ReassemblyRuns
  import ReassemblyLaws

  /** The texts of the frames that each key's buffer has taken in. */
  type History = map<Key, seq<Text>>

  /** The in-order concatenation, with a space restored between a number and a
      word where a non-buffered message lost it. */
  function Weave(pieces: seq<Text>, buffered: bool): Text
    requires pieces != []
  {
    if |pieces| == 1 then pieces[0]
    else Join(Weave(pieces[..|pieces| - 1], buffered), pieces[|pieces| - 1], buffered)
  }

  lemma {:induction false} BufferedWeave(pieces: seq<Text>)
    requires pieces != []
    ensures Weave(pieces, true) == Flatten(pieces)
  {
    if |pieces| == 1 {
      assert Flatten(pieces[..0]) == [];
      assert Flatten(pieces) == [] + pieces[0];
    } else {
      BufferedWeave(pieces[..|pieces| - 1]);
    }
  }

  /** Each join adds at most one character. */
  lemma {:induction false} WeaveLength(pieces: seq<Text>, buffered: bool)
    requires pieces != []
    ensures |Flatten(pieces)| <= |Weave(pieces, buffered)| <= |Flatten(pieces)| + |pieces| - 1
  {
    if |pieces| == 1 {
      BufferedWeave(pieces);
    } else {
      WeaveLength(pieces[..|pieces| - 1], buffered);
    }
  }

  /** The history after a frame is processed. */
  function Recorded(h: History, es: seq<Entry>, f: ParsedFrame): History {
    match RoleOf(f)
    case BufferedStarter(_, rest) => h[KeyOf(f) := [rest]]
    case NonBufferedStarter => h[KeyOf(f) := [Without(f.body, EOT)]]
    case Continuation =>
      var candidates := Filter(es, InReach(BucketOffset(f.frequency), f.frequency));
      if candidates == [] then h
      else
        var key := Latest(candidates).key;
        h[key := (if key in h then h[key] else []) + [Without(f.body, EOT)]]
    case Unrelated => h
  }

  /** Text `t` in `n` frames is what the key's history says. */
  ghost predicate Holds(h: History, key: Key, t: Text, n: nat, buffered: bool) {
    key in h && |h[key]| == n > 0 && t == Weave(h[key], buffered)
  }

  ghost predicate Recounts(h: History, es: seq<Entry>) {
    forall e :: e in es ==> Holds(h, e.key, e.buffer.body, e.buffer.frameCount, e.buffer.buffered)
  }

  lemma ExtendHolds(h: History, h': History, key: Key, b: Buffer, f: ParsedFrame, now: real)
    requires Holds(h, key, b.body, b.frameCount, b.buffered)
    requires h' == h[key := h[key] + [Without(f.body, EOT)]]
    ensures var e := Extend(b, f, now); Holds(h', key, e.body, e.frameCount, e.buffered)
  {
    assert h'[key][..|h[key]|] == h[key];
  }

  lemma StartRecounts(h: History, es: seq<Entry>, key: Key, b: Buffer)
    requires Recounts(h, es) && b.frameCount == 1
    ensures Recounts(h[key := [b.body]], Pop(es, key) + [Entry(key, b)])
    ensures Recounts(h[key := [b.body]], Pop(es, key))
  {
    var h' := h[key := [b.body]];
    assert Weave([b.body], b.buffered) == b.body;
    forall e | e in Pop(es, key) ensures Holds(h', e.key, e.buffer.body, e.buffer.frameCount, e.buffer.buffered) {
      assert e in es && e.key != key;
    }
  }

  // ---- One step ----

  /** The text and the frames of the message are its own key's. */
  ghost predicate Explained(h: History, m: Message) {
    Holds(h, Key(m.fromCall, m.toCall, m.offset), m.rawText, m.frameCount, m.buffered)
  }

  /** A message of one frame is that frame's text, end marks apart. */
  ghost predicate OneFrame(h: History, m: Message) {
    var key := Key(m.fromCall, m.toCall, m.offset);
    && key in h && |h[key]| == 1 == m.frameCount
    && (m.rawText == h[key][0] || m.rawText == Without(h[key][0], EOT))
  }

  /** Where the text of a message comes from, with the histories before and
      after the event: a completed message includes the frame just heard, all
      others were in the buffers. */
  ghost predicate Told(h: History, h': History, ev: Event, m: Message) {
    if !ev.Heard? || !m.buffered then Explained(h, m)
    else
      match RoleOf(ev.frame)
      case BufferedStarter(_, _) => OneFrame(h', m)
      case Continuation => Explained(h', m)
      case _ => Explained(h, m)
  }

  lemma EmitExplained(h: History, e: Entry, valid: bool, now: real)
    requires Agrees(e) && Holds(h, e.key, e.buffer.body, e.buffer.frameCount, e.buffer.buffered)
    ensures Explained(h, Emit(e.buffer, valid, now))
  {
  }

  lemma SweptExplained(h: History, es: seq<Entry>, p: Entry -> bool, valid: bool, now: real)
    requires WellFormed(es) && Recounts(h, es)
    ensures forall m :: m in Map(Filter(es, p), Emitter(valid, now)) ==> Explained(h, m)
  {
    var picked := Filter(es, p);
    var out := Map(picked, Emitter(valid, now));
    forall m | m in out ensures Explained(h, m) {
      var i :| 0 <= i < |out| && out[i] == m;
      assert picked[i] in es;
      EmitExplained(h, picked[i], valid, now);
    }
  }

  lemma SingleIsOneFrame(f: ParsedFrame, verb: Verb, rest: Text, now: real, h: History)
    requires KeyOf(f) in h && h[KeyOf(f)] == [rest]
    ensures var single := SingleFrame(f, verb, rest, now); single.Some? ==> OneFrame(h, single.value)
  {
  }

  lemma ContinueRecounts(h: History, es: seq<Entry>, f: ParsedFrame, now: real)
    requires WellFormed(es) && Recounts(h, es) && RoleOf(f).Continuation?
    ensures var r, h' := OnContinuation(es, f, now), Recorded(h, es, f);
      Recounts(h', r.entries) && forall m :: m in r.out ==> m.buffered && Explained(h', m)
  {
    var candidates := Filter(es, InReach(BucketOffset(f.frequency), f.frequency));
    if candidates != [] {
      var chosen, h' := Latest(candidates), Recorded(h, es, f);
      ExtendHolds(h, h', chosen.key, chosen.buffer, f, now);
      var b := Extend(chosen.buffer, f, now);
      ConcludeRecounts(h, h', es, chosen.key, b, VerifyChecksum16(b.body), EOT in f.body, now);
    }
  }

  lemma PreemptExplained(h: History, es: seq<Entry>, f: ParsedFrame, now: real)
    requires WellFormed(es) && Recounts(h, es)
    ensures forall m :: m in OnNonBufferedStarter(es, f, now).out ==> Explained(h, m)
  {
    var prior := Lookup(es, KeyOf(f));
    if prior.Some? {
      assert Entry(KeyOf(f), prior.value) in es;
      EmitExplained(h, Entry(KeyOf(f), prior.value), true, now);
    }
  }

  lemma ProcessRecounts(h: History, es: seq<Entry>, f: ParsedFrame, now: real)
    requires WellFormed(es) && Recounts(h, es)
    ensures var r, h' := Process(es, f, now), Recorded(h, es, f);
      Recounts(h', r.entries) && forall m :: m in r.out ==> Told(h, h', Heard(f, now), m)
  {
    match RoleOf(f)
    case BufferedStarter(verb, rest) =>
      StartRecounts(h, es, KeyOf(f), NewBuffer(f, verb, rest, now, true));
      SingleIsOneFrame(f, verb, rest, now, Recorded(h, es, f));
    case NonBufferedStarter =>
      var body := Without(f.body, EOT);
      StartRecounts(h, es, KeyOf(f), NewBuffer(f, Other(FirstWord(body)), body, now, false));
      PreemptExplained(h, es, f, now);
    case Continuation => ContinueRecounts(h, es, f, now);
    case Unrelated =>
  }

  lemma ConcludeRecounts(h: History, h': History, es: seq<Entry>, key: Key, b: Buffer,
                         validated: Option<Text>, eot: bool, now: real)
    requires Recounts(h, es) && Holds(h', key, b.body, b.frameCount, b.buffered)
    requires key == Key(b.fromCall, b.toCall, b.bucket)
    requires forall k :: k in h && k != key ==> k in h' && h'[k] == h[k]
    ensures var r := Conclude(es, key, b, validated, eot, now);
      && Recounts(h', r.entries)
      && forall m :: m in r.out ==> m.buffered && Explained(h', m)
  {
    var r := Put(es, key, b);
    forall e | e in r ensures Holds(h', e.key, e.buffer.body, e.buffer.frameCount, e.buffer.buffered) {
      var i :| 0 <= i < |r| && r[i] == e;
      assert es[i] in es;
    }
  }

  // ---- Whole runs ----

  function HistoryAfter(cfg: Timeouts, h: History, es: seq<Entry>, ev: Event): History {
    if ev.Heard? then Recorded(h, Filter(es, Live(cfg, ev.at)), ev.frame) else h
  }

  lemma StepRecounts(cfg: Timeouts, h: History, es: seq<Entry>, ev: Event)
    requires WellFormed(es) && Recounts(h, es)
    ensures var o, h' := Step(cfg, es, ev), HistoryAfter(cfg, h, es, ev);
      Recounts(h', o.entries) && forall m :: m in o.out ==> Told(h, h', ev, m)
  {
    match ev
    case Heard(f, now) =>
      SweptExplained(h, es, Expired(cfg, now), true, now);
      ReassemblyLaws.DoneIsNotBuffered(cfg, es, now);
      FilterWellFormed(es, Live(cfg, now));
      ProcessRecounts(h, Filter(es, Live(cfg, now)), f, now);
    case CompletedSweep(now) => SweptExplained(h, es, Expired(cfg, now), true, now);
    case TimeoutSweep(now) => SweptExplained(h, es, Lapsed(cfg, now), false, now);
  }

  function RunHistory(cfg: Timeouts, h: History, es: seq<Entry>, evs: seq<Event>): History
    decreases |evs|
  {
    if evs == [] then h
    else RunHistory(cfg, HistoryAfter(cfg, h, es, evs[0]), Step(cfg, es, evs[0]).entries, evs[1..])
  }

  /** Of every message that comes out in the run, by whatever door. */
  ghost predicate AllTold(cfg: Timeouts, h: History, es: seq<Entry>, evs: seq<Event>)
    decreases |evs|
  {
    evs == []
    || var o, h' := Step(cfg, es, evs[0]), HistoryAfter(cfg, h, es, evs[0]);
       (forall m :: m in o.out ==> Told(h, h', evs[0], m)) && AllTold(cfg, h', o.entries, evs[1..])
  }

  /** Over any run, every buffer's body is woven from the texts of its own
      frames, in the order they came, and so is every message handed over or
      reported, under its own key. */
  lemma {:induction false} RunRecounts(cfg: Timeouts, h: History, es: seq<Entry>, evs: seq<Event>)
    requires WellFormed(es) && Recounts(h, es)
    ensures Recounts(RunHistory(cfg, h, es, evs), Final(Assembling(cfg), es, evs))
    ensures AllTold(cfg, h, es, evs)
    decreases |evs|
  {
    if evs != [] {
      StepRecounts(cfg, h, es, evs[0]);
      StepWellFormed(cfg, es, evs[0]);
      RunRecounts(cfg, HistoryAfter(cfg, h, es, evs[0]), Step(cfg, es, evs[0]).entries, evs[1..]);
    }
  }
}
