/** What every reachable state of the transmit side satisfies. */
module TransmitInvariants {
  import opened Text
  import opened Outbound
  import opened Transmit
  import opened Scheduler
  import opened TransmitRuns
  import opened TransmitEffects

  // ---- One transmission, one SENDING row ----

  ghost predicate OneSender(p: Pipeline) {
    forall id :: id in p.rows && p.rows[id].state.Sending? ==> p.bursts != [] && p.bursts[0].id == id
  }

  lemma CoherentKept(e: Effect, p: Pipeline, q: Pipeline)
    requires Coherent(p) && Has(e, p, q)
    ensures Coherent(q)
  {
    if p.bursts != [] { assert p.bursts[0] in p.bursts; }
  }

  lemma OneSenderKept(e: Effect, p: Pipeline, q: Pipeline)
    requires Coherent(p) && OneSender(p) && Has(e, p, q)
    ensures OneSender(q)
  {
    if p.bursts != [] { assert p.bursts[0] in p.bursts; }
  }

  lemma WorkerRowKept(encode: Encoder, s: System, a: Action)
    requires Sound(s) && Enabled(s, a)
    ensures var t := Next(encode, s, a);
      !t.worker.Resting? ==> t.worker.id in t.p.rows && t.p.rows[t.worker.id].state.Encoding?
  {
    if !a.WorkerStore? && !a.WorkerMark? && !a.Restart? { EncodingStays(encode, s, a); }
  }

  lemma IdsKept(encode: Encoder, s: System, a: Action)
    requires Sound(s) && Enabled(s, a) && Ledger(s) && !a.Restart?
    ensures var t := Next(encode, s, a);
      0 < t.nextId && forall id :: id in t.p.rows ==> 0 < id < t.nextId
  {
    StepFollows(encode, s, a);
    if !a.Enqueue? { SameBirths(encode, s, a); }
  }

  lemma SoundKept(encode: Encoder, s: System, a: Action)
    requires Sound(s) && Enabled(s, a) && Ledger(s)
    ensures Sound(Next(encode, s, a))
  {
    var e := StepEffect(encode, s, a);
    CoherentKept(e, s.p, Next(encode, s, a).p);
    WorkerRowKept(encode, s, a);
    if !a.Restart? { IdsKept(encode, s, a); }
  }

  // ---- The table against what was enqueued ----

  /** The rows agree with what was enqueued, and never exceed the depth. */
  ghost predicate Ledger(s: System) {
    && (forall id :: id in s.p.rows ==> id in s.born && s.born[id] == s.p.rows[id].draft && AttemptsFit(s.p.rows[id]))
    && (forall id :: id in s.born ==> id < s.nextId)
    && |ActiveIds(s.p.rows)| <= QUEUE_DEPTH
  }

  lemma FollowsLedger(s: System, t: System)
    requires Ledger(s) && Follows(s.p.rows, t.p.rows) && t.born == s.born && t.nextId == s.nextId
    ensures Ledger(t)
  {
    forall id | id in t.p.rows
      ensures t.p.rows[id].draft == s.p.rows[id].draft && AttemptsFit(t.p.rows[id])
      ensures Active(t.p.rows[id]) ==> Active(s.p.rows[id])
    {
      MoveKeepsAttempts(s.p.rows[id], t.p.rows[id]);
    }
    SubsetSize(ActiveIds(t.p.rows), ActiveIds(s.p.rows));
  }

  lemma OneMoreActive(t: Table, id: nat, r: Row)
    requires id !in t && Active(r)
    ensures |ActiveIds(t[id := r])| == |ActiveIds(t)| + 1
  {
    assert ActiveIds(t[id := r]) == ActiveIds(t) + {id};
  }

  lemma EnqueueLedger(s: System, d: Draft, direct: bool)
    requires Sound(s) && Ledger(s)
    ensures Ledger(Enqueued(s, d, direct))
  {
    OneMoreActive(s.p.rows, s.nextId, Row(d, if direct then Queued else Encoding, 0, None));
  }

  lemma RestartLedger(s: System)
    requires Ledger(s)
    ensures Ledger(Restarted(s))
  {
    forall id | id in s.p.rows ensures AttemptsFit(Interrupted(Reencoded(s.p.rows[id]))) {
      RecoveryKeepsAttempts(s.p.rows[id]);
    }
    SubsetSize(ActiveIds(Restarted(s).p.rows), ActiveIds(s.p.rows));
  }

  lemma LedgerKept(encode: Encoder, s: System, a: Action)
    requires Sound(s) && Enabled(s, a) && Ledger(s)
    ensures Ledger(Next(encode, s, a))
  {
    if a.Restart? {
      RestartLedger(s);
    } else if a.Enqueue? {
      EnqueueLedger(s, a.draft, a.direct);
    } else {
      StepFollows(encode, s, a);
      SameBirths(encode, s, a);
      FollowsLedger(s, Next(encode, s, a));
    }
  }

  lemma SameBirths(encode: Encoder, s: System, a: Action)
    requires Sound(s) && Enabled(s, a) && !a.Enqueue?
    ensures Next(encode, s, a).born == s.born && Next(encode, s, a).nextId == s.nextId
  {
  }
}
