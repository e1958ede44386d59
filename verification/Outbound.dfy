/** The outbound message table: rows, their states, and the statements that
    move them. */
module Outbound {
  import opened Text

  const QUEUE_DEPTH := 3
  const MAX_ATTEMPTS := 3
  const ACK_TIMEOUT := 90.0

  datatype State = Encoding | Queued | Sending | WaitAck | Delivered | Abandoned

  datatype Kind = Heartbeat | Cq | AllCall | Directed | Reply

  /** What is fixed when a message is enqueued. */
  datatype Draft = Draft(kind: Kind, text: Text, toCall: Option<Text>, enqueuedAt: real)

  datatype Row = Row(draft: Draft, state: State, attempts: nat, lastTx: Option<real>)

  type Table = map<nat, Row>

  // ---- What the text says about acknowledgement ----

  /** Only a MSG to one station expects an ACK. */
  function InferKind(text: Text): Kind {
    var t := Tokens(RStrip(LStrip(text)));
    if |t| < 2 || (t[0] != [] && t[0][0] == '@') || UpperText(t[1]) != "MSG" then Reply else Directed
  }

  /** "<call> <verb> ..." awaits an ACK if and only if the verb is MSG and the
      call is not a group's. */
  lemma InfersDirected(call: Text, verb: Text, rest: Text)
    requires IsWord(call) && IsWord(verb) && (rest != [] ==> IsSpace(rest[0]))
    ensures InferKind(call + ([' '] + (verb + rest))).Directed? <==> call[0] != '@' && UpperText(verb) == "MSG"
    ensures InferKind(call).Reply?
  {
    MessageWords(call, verb, rest);
    TwoFirst(call, verb, Tokens(RStrip(rest)));
    OneWord(call);
  }

  lemma TwoFirst(a: Text, b: Text, more: seq<Text>)
    ensures var t := [a] + ([b] + more); |t| >= 2 && t[0] == a && t[1] == b
  {
  }

  lemma MessageWords(call: Text, verb: Text, rest: Text)
    requires IsWord(call) && IsWord(verb) && (rest != [] ==> IsSpace(rest[0]))
    ensures Tokens(RStrip(LStrip(call + ([' '] + (verb + rest))))) == [call] + ([verb] + Tokens(RStrip(rest)))
  {
    var tail := RStrip(rest);
    StrippedMessage(call, verb, rest);
    if tail != [] { RStripStart(rest); }
    WordFirst(verb, tail);
    WordThen(call, verb + tail);
  }

  lemma StrippedMessage(call: Text, verb: Text, rest: Text)
    requires IsWord(call) && IsWord(verb)
    ensures RStrip(LStrip(call + ([' '] + (verb + rest)))) == call + ([' '] + (verb + RStrip(rest)))
  {
    var text := call + ([' '] + (verb + rest));
    assert text[0] == call[0] && LStrip(text) == text;
    StripEnd(verb, rest);
    StripEnd([' '], verb + rest);
    StripEnd(call, [' '] + (verb + rest));
  }

  /** Stripping stops at the end of what does not strip away. */
  lemma StripEnd(head: Text, tail: Text)
    requires head != [] && (RStrip(tail) == [] ==> !IsSpace(head[|head| - 1]))
    ensures RStrip(head + tail) == head + RStrip(tail) && RStrip(head + tail) != []
  {
    RStripAppend(head, tail);
    if RStrip(tail) == [] { assert head + [] == head; }
  }

  lemma OneWord(call: Text)
    requires IsWord(call)
    ensures Tokens(RStrip(LStrip(call))) == [call]
  {
    WordFirst(call, []);
    assert call + [] == call;
  }

  predicate NoAckKind(k: Kind) { !k.Directed? }

  /** Sent once and then done: the stored kind or the text rules out an ACK. */
  predicate FireAndForget(d: Draft) { NoAckKind(d.kind) || NoAckKind(InferKind(d.text)) }

  // ---- Rows ----

  predicate Active(r: Row) { !r.state.Delivered? && !r.state.Abandoned? }

  function ActiveIds(t: Table): set<nat> { set id | id in t && Active(t[id]) }

  function IdsIn(t: Table, state: State): set<nat> { set id | id in t && t[id].state == state }

  /** The head of the queue of rows in one state, oldest first. */
  ghost predicate Oldest(t: Table, state: State, id: nat) {
    && id in t && t[id].state == state
    && forall other :: other in t && t[other].state == state ==> t[id].draft.enqueuedAt <= t[other].draft.enqueuedAt
  }

  /** A null sorts below every time. */
  predicate NotLater(a: Option<real>, b: Option<real>) {
    a.None? || (b.Some? && a.value <= b.value)
  }

  /** SQLite's UPPER leaves everything but ASCII letters alone. */
  function SqlUpper(s: Text): Text {
    seq(|s|, i requires 0 <= i < |s| => if 'a' <= s[i] <= 'z' then Upper(s[i]) else s[i])
  }

  predicate Awaits(r: Row, caller: Text) {
    r.state.WaitAck? && r.draft.toCall.Some? && SqlUpper(r.draft.toCall.value) == UpperText(caller)
  }

  /** The row that an ACK from `caller` settles: of those waiting for it, one
      that was sent last. */
  ghost predicate Acknowledges(t: Table, caller: Text, id: nat) {
    && id in t && Awaits(t[id], caller)
    && forall other :: other in t && Awaits(t[other], caller) ==> NotLater(t[other].lastTx, t[id].lastTx)
  }

  // ---- Statements ----

  /** `UPDATE ... SET state=? WHERE id=?`. */
  function SetState(t: Table, id: nat, state: State): Table {
    if id in t then t[id := t[id].(state := state)] else t
  }

  function Attempted(r: Row, now: real): Row {
    r.(state := Sending, attempts := r.attempts + 1, lastTx := Some(now))
  }

  function MarkSending(t: Table, id: nat, now: real): Table {
    if id in t then t[id := Attempted(t[id], now)] else t
  }

  predicate TimedOut(r: Row, now: real) {
    r.state.WaitAck? && r.lastTx.Some? && r.lastTx.value < now - ACK_TIMEOUT
  }

  function TimedOutIds(t: Table, now: real): set<nat> { set id | id in t && TimedOut(t[id], now) }

  predicate Unsent(r: Row) { Active(r) && (r.draft.kind.AllCall? || r.draft.kind.Heartbeat?) }

  function Purged(t: Table): Table { map id | id in t && !Unsent(t[id]) :: t[id] }

  function Reencoded(r: Row): Row { if r.state.Queued? then r.(state := Encoding) else r }

  function Interrupted(r: Row): Row { if r.state.Sending? then r.(state := Abandoned) else r }

  /** What is left of the table after the daemon restarts. */
  function Recovered(t: Table): Table {
    map id | id in t && !Unsent(t[id]) :: Interrupted(Reencoded(t[id]))
  }

  /** An unfinished row that was enqueued as ALLCALL or HEARTBEAT. */
  predicate GoesAtRestart(r: Row) {
    r.draft.kind in {AllCall, Kind.Heartbeat} && r.state in {Encoding, Queued, Sending, WaitAck}
  }

  /** Those rows are gone, what was queued is to be encoded again, what was being
      sent is given up, and all else is as it was. */
  ghost predicate Survives(t: Table, u: Table) {
    && (forall id :: id in u <==> id in t && !GoesAtRestart(t[id]))
    && forall id :: id in u ==>
         && u[id].draft == t[id].draft && u[id].attempts == t[id].attempts && u[id].lastTx == t[id].lastTx
         && u[id].state == match t[id].state case Queued => Encoding case Sending => Abandoned case other => other
  }

  lemma RestartLeaves(t: Table)
    ensures Survives(t, Recovered(t))
  {
  }

  class OutboundQueue {
    var rows: Table
    var nextId: nat

    ghost predicate Valid()
      reads this
    {
      0 < nextId && forall id :: id in rows ==> 0 < id < nextId
    }

    constructor ()
      ensures Valid() && rows == map[] && nextId == 1
    {
      rows, nextId := map[], 1;
    }

    /** Ids are never reused, and the depth counts every unfinished row. */
    method Insert(text: Text, kind: Option<Kind>, toCall: Option<Text>, state: State, now: real)
      returns (id: Option<nat>)
      requires Valid()
      modifies this
      ensures Valid()
      ensures id.Some? <==> |ActiveIds(old(rows))| < QUEUE_DEPTH
      ensures id.None? ==> rows == old(rows) && nextId == old(nextId)
      ensures id.Some? ==>
        && id.value == old(nextId) && id.value !in old(rows) && nextId == old(nextId) + 1
        && rows == old(rows)[id.value := Row(Draft(KindOr(kind, text), text, toCall, now), state, 0, None)]
    {
      if |ActiveIds(rows)| >= QUEUE_DEPTH { return None; }
      id := Some(nextId);
      rows := rows[nextId := Row(Draft(KindOr(kind, text), text, toCall, now), state, 0, None)];
      nextId := nextId + 1;
    }

    method Enqueue(text: Text, kind: Option<Kind>, toCall: Option<Text>, now: real) returns (id: Option<nat>)
      requires Valid()
      modifies this
      ensures Valid() && (id.Some? <==> |ActiveIds(old(rows))| < QUEUE_DEPTH)
      ensures id.None? ==> rows == old(rows) && nextId == old(nextId)
      ensures id.Some? ==>
        && id.value == old(nextId) && id.value !in old(rows) && nextId == old(nextId) + 1
        && rows == old(rows)[id.value := Row(Draft(KindOr(kind, text), text, toCall, now), Queued, 0, None)]
    {
      id := Insert(text, kind, toCall, Queued, now);
    }

    method EnqueueForEncoding(text: Text, kind: Option<Kind>, toCall: Option<Text>, now: real)
      returns (id: Option<nat>)
      requires Valid()
      modifies this
      ensures Valid() && (id.Some? <==> |ActiveIds(old(rows))| < QUEUE_DEPTH)
      ensures id.None? ==> rows == old(rows) && nextId == old(nextId)
      ensures id.Some? ==>
        && id.value == old(nextId) && id.value !in old(rows) && nextId == old(nextId) + 1
        && rows == old(rows)[id.value := Row(Draft(KindOr(kind, text), text, toCall, now), Encoding, 0, None)]
    {
      id := Insert(text, kind, toCall, Encoding, now);
    }

    /** `ORDER BY enqueued_at LIMIT 1`: the order among equals is left open. */
    method PickOldest(state: State) returns (id: Option<nat>)
      ensures id.None? <==> IdsIn(rows, state) == {}
      ensures id.Some? ==> Oldest(rows, state, id.value)
    {
      var pending := IdsIn(rows, state);
      id := None;
      while pending != {}
        invariant pending <= IdsIn(rows, state)
        invariant id.None? ==> pending == IdsIn(rows, state)
        invariant id.Some? ==> id.value in IdsIn(rows, state)
        invariant id.Some? ==> forall other :: other in IdsIn(rows, state) - pending ==>
          rows[id.value].draft.enqueuedAt <= rows[other].draft.enqueuedAt
        decreases pending
      {
        var next :| next in pending;
        if id.None? || rows[next].draft.enqueuedAt < rows[id.value].draft.enqueuedAt { id := Some(next); }
        pending := pending - {next};
      }
    }

    method PickNext() returns (id: Option<nat>)
      ensures id.None? <==> IdsIn(rows, Queued) == {}
      ensures id.Some? ==> Oldest(rows, Queued, id.value)
      ensures id.None? <==> forall other :: other in rows ==> !rows[other].state.Queued?
      ensures id.Some? ==> id.value in rows && rows[id.value].state.Queued?
      ensures id.Some? ==> forall other :: other in rows && rows[other].state.Queued? ==>
        rows[id.value].draft.enqueuedAt <= rows[other].draft.enqueuedAt
    {
      id := PickOldest(Queued);
      assert forall other :: other in rows && rows[other].state.Queued? ==> other in IdsIn(rows, Queued);
    }

    method PickNextEncoding() returns (id: Option<nat>)
      ensures id.None? <==> IdsIn(rows, Encoding) == {}
      ensures id.Some? ==> Oldest(rows, Encoding, id.value)
      ensures id.None? <==> forall other :: other in rows ==> !rows[other].state.Encoding?
      ensures id.Some? ==> id.value in rows && rows[id.value].state.Encoding?
      ensures id.Some? ==> forall other :: other in rows && rows[other].state.Encoding? ==>
        rows[id.value].draft.enqueuedAt <= rows[other].draft.enqueuedAt
    {
      id := PickOldest(Encoding);
      assert forall other :: other in rows && rows[other].state.Encoding? ==> other in IdsIn(rows, Encoding);
    }

    method UpdateState(id: nat, state: State)
      requires Valid()
      modifies `rows
      ensures Valid() && rows == SetState(old(rows), id, state)
    {
      rows := SetState(rows, id, state);
    }

    /** Only a row that is still being encoded becomes QUEUED. */
    method MarkEncoded(id: nat)
      requires Valid()
      modifies `rows
      ensures Valid()
      ensures rows == if id in IdsIn(old(rows), Encoding) then SetState(old(rows), id, Queued) else old(rows)
      ensures rows == if id in old(rows) && old(rows)[id].state.Encoding?
                      then old(rows)[id := old(rows)[id].(state := Queued)] else old(rows)
    {
      if id in rows && rows[id].state.Encoding? { UpdateState(id, Queued); }
    }

    method MarkAttempt(id: nat, now: real)
      requires Valid()
      modifies `rows
      ensures Valid() && rows == MarkSending(old(rows), id, now)
    {
      rows := MarkSending(rows, id, now);
    }

    method PurgeStaleBroadcasts() returns (deleted: nat)
      requires Valid()
      modifies `rows
      ensures Valid() && rows == Purged(old(rows))
      ensures forall id :: id in rows <==> id in old(rows) && !GoesAtRestart(old(rows)[id])
      ensures forall id :: id in rows ==> rows[id] == old(rows)[id]
      ensures deleted == |old(rows)| - |rows|
    {
      var before := |rows|;
      PurgedIsSmaller(rows);
      rows := Purged(rows);
      deleted := before - |rows|;
    }

    method ResetUnencodedToEncoding()
      requires Valid()
      modifies `rows
      ensures Valid() && rows == map id | id in old(rows) :: Reencoded(old(rows)[id])
    {
      rows := map id | id in rows :: Reencoded(rows[id]);
    }

    method AbandonStaleSending()
      requires Valid()
      modifies `rows
      ensures Valid() && rows == map id | id in old(rows) :: Interrupted(old(rows)[id])
    {
      rows := map id | id in rows :: Interrupted(rows[id]);
    }

    /** Startup recovery, in the order the application runs it. */
    method Recover()
      requires Valid()
      modifies `rows
      ensures Valid() && rows == Recovered(old(rows))
      ensures Survives(old(rows), rows)
    {
      RestartLeaves(rows);
      var _ := PurgeStaleBroadcasts();
      ResetUnencodedToEncoding();
      AbandonStaleSending();
    }

    method RecordAck(caller: Text) returns (id: Option<nat>)
      requires Valid()
      modifies `rows
      ensures Valid()
      ensures id.None? <==> caller == [] || forall other :: other in old(rows) ==> !Awaits(old(rows)[other], caller)
      ensures id.None? ==> rows == old(rows)
      ensures id.Some? ==> Acknowledges(old(rows), caller, id.value) && rows == SetState(old(rows), id.value, Delivered)
    {
      id := None;
      if caller == [] { return; }
      var waiting := set other | other in rows && Awaits(rows[other], caller);
      var pending := waiting;
      while pending != {}
        invariant pending <= waiting
        invariant id.None? ==> pending == waiting
        invariant id.Some? ==> id.value in waiting
        invariant id.Some? ==> forall other :: other in waiting - pending ==>
          NotLater(rows[other].lastTx, rows[id.value].lastTx)
        decreases pending
      {
        var next :| next in pending;
        if id.None? || !NotLater(rows[next].lastTx, rows[id.value].lastTx) { id := Some(next); }
        pending := pending - {next};
      }
      assert forall other :: other in rows && Awaits(rows[other], caller) ==> other in waiting;
      if id.Some? { UpdateState(id.value, Delivered); }
    }

    method FindTimedOutAcks(now: real) returns (ids: set<nat>)
      ensures ids == TimedOutIds(rows, now)
    {
      ids := TimedOutIds(rows, now);
    }
  }

  function KindOr(kind: Option<Kind>, text: Text): Kind {
    match kind case Some(k) => k case None => InferKind(text)
  }

  lemma PurgedIsSmaller(t: Table)
    ensures |Purged(t)| <= |t|
  {
    assert Purged(t).Keys <= t.Keys;
    SubsetSize(Purged(t).Keys, t.Keys);
  }

  lemma {:induction false} SubsetSize<T>(a: set<T>, b: set<T>)
    requires a <= b
    ensures |a| <= |b|
  {
    if a != {} {
      var x :| x in a;
      SubsetSize(a - {x}, b - {x});
    }
  }

  // ---- The life of a row ----

  /** The moves of the row state machine while the daemon runs. */
  predicate Moves(r: Row, s: Row) {
    && s.draft == r.draft
    && (if s.attempts == r.attempts then s.lastTx == r.lastTx else s.lastTx.Some?)
    && match r.state
       case Encoding => s == r || (s.state in {Queued, Abandoned} && s.attempts == r.attempts)
       case Queued =>
         s == r || (s.state in {Sending, Queued, Abandoned} && s.attempts == r.attempts + 1
                    && (s.state.Queued? ==> s.attempts < MAX_ATTEMPTS))
       case Sending =>
         s == r || (s.state in {Queued, WaitAck, Delivered, Abandoned} && s.attempts == r.attempts
                    && (s.state.Queued? ==> s.attempts < MAX_ATTEMPTS)
                    && (s.state.WaitAck? ==> !FireAndForget(r.draft)))
       case WaitAck =>
         s == r || (s.state in {Queued, Delivered, Abandoned} && s.attempts == r.attempts
                    && (s.state.Queued? ==> s.attempts < MAX_ATTEMPTS))
       case Delivered => s == r
       case Abandoned => s == r
  }

  /** How often a row can have been tried, in each state; a row that was tried
      knows when it last was. */
  predicate AttemptsFit(r: Row) {
    && (r.attempts > 0 ==> r.lastTx.Some?)
    && match r.state
       case Encoding => r.attempts < MAX_ATTEMPTS
       case Queued => r.attempts < MAX_ATTEMPTS
       case Sending => 0 < r.attempts <= MAX_ATTEMPTS
       case WaitAck => 0 < r.attempts <= MAX_ATTEMPTS && !FireAndForget(r.draft)
       case Delivered => r.attempts <= MAX_ATTEMPTS
       case Abandoned => r.attempts <= MAX_ATTEMPTS
  }

  lemma MoveKeepsAttempts(r: Row, s: Row)
    requires AttemptsFit(r) && Moves(r, s)
    ensures AttemptsFit(s) && (Active(s) ==> Active(r))
  {
  }

  lemma RecoveryKeepsAttempts(r: Row)
    requires AttemptsFit(r)
    ensures AttemptsFit(Interrupted(Reencoded(r)))
  {
  }
}
