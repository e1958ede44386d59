/** The assembler object: it keeps the buffers and changes them in place. */
module Assembler {
  import opened Text
  import opened Sequences
  import opened Checksum
  import opened Reassembly

  class MessageAssembler {
    var buffers: seq<Entry>
    const cfg: Timeouts

    ghost predicate Valid()
      reads this
    {
      WellFormed(buffers)
    }

    constructor (cfg: Timeouts)
      ensures Valid() && this.cfg == cfg && buffers == []
    {
      this.cfg := cfg;
      buffers := [];
    }

    method Reset()
      modifies this
      ensures Valid() && buffers == []
    {
      buffers := [];
    }

    method PopKey(key: Key)
      requires Valid()
      modifies this
      ensures Valid() && buffers == Pop(old(buffers), key)
    {
      FilterWellFormed(buffers, NotKey(key));
      buffers := Pop(buffers, key);
    }

    method EvictStaleNonBuffered(now: real) returns (emitted: seq<Message>)
      requires Valid()
      modifies this
      ensures Valid() && buffers == Filter(old(buffers), Not(Expired(cfg, now)))
      ensures emitted == Map(Filter(old(buffers), Expired(cfg, now)), Emitter(true, now))
    {
      emitted := [];
      var items := buffers;
      var deadline := now - cfg.nonBuffered;
      ghost var gone := Expired(cfg, now);
      for k := 0 to |items|
        invariant Valid() && buffers == Filter(items[..k], Not(gone)) + items[k..]
        invariant emitted == Map(Filter(items[..k], gone), Emitter(true, now))
      {
        var Entry(key, buf) := items[k];
        EvictStep(items, k, gone);
        FilterNext(items, k, gone);
        MapNext(Filter(items[..k], gone), items[k], Emitter(true, now));
        if !buf.buffered && buf.lastFrameAt < deadline {
          PopKey(key);
          emitted := emitted + [Emit(buf, true, now)];
        }
      }
      assert items[..|items|] == items;
    }

    method EvictStaleBuffered(now: real)
      requires Valid()
      modifies this
      ensures Valid() && buffers == Filter(old(buffers), Not(Lapsed(cfg, now)))
    {
      var items := buffers;
      var deadline := now - cfg.frame;
      ghost var gone := Lapsed(cfg, now);
      for k := 0 to |items|
        invariant Valid() && buffers == Filter(items[..k], Not(gone)) + items[k..]
      {
        var Entry(key, buf) := items[k];
        EvictStep(items, k, gone);
        if buf.buffered && buf.lastFrameAt < deadline {
          PopKey(key);
        }
      }
      assert items[..|items|] == items;
    }

    method EvictStale(now: real) returns (evicted: seq<Message>)
      requires Valid()
      modifies this
      ensures Valid() && buffers == Filter(old(buffers), Not(Lapsed(cfg, now)))
      ensures evicted == Map(Filter(old(buffers), Lapsed(cfg, now)), Emitter(false, now))
    {
      evicted := [];
      var items := buffers;
      ghost var gone := Lapsed(cfg, now);
      for k := 0 to |items|
        invariant Valid() && buffers == Filter(items[..k], Not(gone)) + items[k..]
        invariant evicted == Map(Filter(items[..k], gone), Emitter(false, now))
      {
        var Entry(key, buf) := items[k];
        EvictStep(items, k, gone);
        FilterNext(items, k, gone);
        MapNext(Filter(items[..k], gone), items[k], Emitter(false, now));
        if buf.buffered && buf.lastFrameAt < now - cfg.frame {
          PopKey(key);
          evicted := evicted + [Emit(buf, false, now)];
        }
      }
      assert items[..|items|] == items;
    }

    method Feed(f: ParsedFrame, now: real) returns (out: seq<Message>)
      requires Valid()
      modifies this
      ensures Valid()
      ensures buffers == AfterFeed(cfg, old(buffers), f, now).entries
      ensures out == AfterFeed(cfg, old(buffers), f, now).out
    {
      out := EvictStaleNonBuffered(now);
      EvictStaleBuffered(now);
      LiveInTwoSteps(cfg, old(buffers), now);
      var result := Take(f, now);
      if result.Some? {
        out := out + [result.value];
      }
    }

    /** The frame's part in it, once the stale buffers are gone. */
    method Take(f: ParsedFrame, now: real) returns (result: Option<Message>)
      requires Valid()
      modifies this
      ensures Valid()
      ensures buffers == Process(old(buffers), f, now).entries
      ensures AsSeq(result) == Process(old(buffers), f, now).out
    {
      result := None;
      match RoleOf(f) {
        case BufferedStarter(verb, rest) => result := StartBuffered(f, verb, rest, now);
        case NonBufferedStarter => result := StartNonBuffered(f, now);
        case Continuation => result := Continue(f, now);
        case Unrelated =>
      }
    }

    method StartBuffered(f: ParsedFrame, verb: Verb, rest: Text, now: real) returns (result: Option<Message>)
      requires Valid()
      modifies this
      ensures Valid()
      ensures buffers == OnBufferedStarter(old(buffers), f, verb, rest, now).entries
      ensures AsSeq(result) == OnBufferedStarter(old(buffers), f, verb, rest, now).out
    {
      var key := KeyOf(f);
      result := SingleFrame(f, verb, rest, now);
      PopKey(key);
      if result.None? {
        StartWellFormed(old(buffers), key, NewBuffer(f, verb, rest, now, true));
        buffers := buffers + [Entry(key, NewBuffer(f, verb, rest, now, true))];
      }
    }

    method StartNonBuffered(f: ParsedFrame, now: real) returns (preempted: Option<Message>)
      requires Valid()
      modifies this
      ensures Valid()
      ensures buffers == OnNonBufferedStarter(old(buffers), f, now).entries
      ensures AsSeq(preempted) == OnNonBufferedStarter(old(buffers), f, now).out
    {
      var key := KeyOf(f);
      var body := Without(f.body, EOT);
      var prior := Lookup(buffers, key);
      preempted := None;
      PopKey(key);
      if prior.Some? {
        preempted := Some(Emit(prior.value, true, now));
      }
      StartWellFormed(old(buffers), key, NewBuffer(f, Other(FirstWord(body)), body, now, false));
      buffers := buffers + [Entry(key, NewBuffer(f, Other(FirstWord(body)), body, now, false))];
    }

    method Continue(f: ParsedFrame, now: real) returns (result: Option<Message>)
      requires Valid()
      modifies this
      ensures Valid()
      ensures buffers == OnContinuation(old(buffers), f, now).entries
      ensures AsSeq(result) == OnContinuation(old(buffers), f, now).out
    {
      result := None;
      var candidates := Filter(buffers, InReach(BucketOffset(f.frequency), f.frequency));
      if candidates == [] { return; }
      var Entry(key, buf) := Latest(candidates);
      buf := Extend(buf, f, now);
      if buf.buffered {
        var validated := VerifyChecksum16(buf.body);
        if validated.Some? {
          PopKey(key);
          return Some(Emit(buf, true, now).(body := validated.value));
        }
        if EOT in f.body {
          PopKey(key);
          return Some(Emit(buf, false, now));
        }
      }
      PutWellFormed(buffers, key, buf);
      buffers := Put(buffers, key, buf);
    }

    method SweepCompleted(now: real) returns (out: seq<Message>)
      requires Valid()
      modifies this
      ensures Valid()
      ensures buffers == AfterSweepCompleted(cfg, old(buffers), now).entries
      ensures out == AfterSweepCompleted(cfg, old(buffers), now).out
    {
      out := EvictStaleNonBuffered(now);
    }

    method SweepTimeouts(now: real) returns (out: seq<Message>)
      requires Valid()
      modifies this
      ensures Valid()
      ensures buffers == AfterSweepTimeouts(cfg, old(buffers), now).entries
      ensures out == AfterSweepTimeouts(cfg, old(buffers), now).out
    {
      out := EvictStale(now);
    }
  }

  function AsSeq<T>(x: Option<T>): seq<T> {
    if x.Some? then [x.value] else []
  }

  /** Looking at one more item of the copied list: its entry goes or stays. */
  lemma EvictStep(items: seq<Entry>, k: nat, gone: Entry -> bool)
    requires k < |items| && WellFormed(items)
    ensures Filter(items[..k + 1], Not(gone)) + items[k + 1..]
         == if gone(items[k]) then Pop(Filter(items[..k], Not(gone)) + items[k..], items[k].key)
            else Filter(items[..k], Not(gone)) + items[k..]
  {
    FilterNext(items, k, Not(gone));
    var x, kept, after := items[k], Filter(items[..k], Not(gone)), items[k + 1..];
    assert items[k..] == [x] + after;
    if gone(x) {
      forall e | e in kept || e in after ensures e.key != x.key { assert e in items[..k] || e in after; }
      PopMiddle(kept, x, after);
      assert kept + [] == kept;
    } else {
      assert kept + ([x] + after) == (kept + [x]) + after;
    }
  }

  lemma PopMiddle(before: seq<Entry>, x: Entry, after: seq<Entry>)
    requires forall e :: e in before || e in after ==> e.key != x.key
    ensures Pop(before + ([x] + after), x.key) == before + after
  {
    FilterAppend(before, [x] + after, NotKey(x.key));
    FilterAll(before, NotKey(x.key));
    FilterAll(after, NotKey(x.key));
    assert ([x] + after)[1..] == after;
    assert [] + after == after;
  }

  lemma MapNext(es: seq<Entry>, e: Entry, f: Entry -> Message)
    ensures Map(es + [e], f) == Map(es, f) + [f(e)]
    ensures Map(es + [], f) == Map(es, f)
  {
    assert es + [] == es;
  }

  lemma LiveInTwoSteps(cfg: Timeouts, es: seq<Entry>, now: real)
    ensures Filter(Filter(es, Not(Expired(cfg, now))), Not(Lapsed(cfg, now))) == Filter(es, Live(cfg, now))
  {
    FilterCongruent(Filter(es, Not(Expired(cfg, now))), Not(Lapsed(cfg, now)), Live(cfg, now));
    FilterWeaker(es, Not(Expired(cfg, now)), Live(cfg, now));
  }
}
