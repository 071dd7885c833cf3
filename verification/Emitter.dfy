/**
  The emitter's module state as an object. Each step of `EmitterSpec.Apply` is one method, a
  section of the source that contains no `await`, proved equal to the step's function; the
  other methods are what these are made of.
  The places outside the module (SDK buffer, running emits and passes, broker) are ghost.
 */
module Emitter {
  import opened EmitterSpec

  class UsageEmitter {
    const cfg: Config
    var ready: bool
    var disabled: bool
    var initFailed: bool
    var retryQ: seq<Parcel>
    var failedSend: nat
    var failedEnqueue: nat
    var failedInit: nat
    var failedRetry: nat
    var failedSerialize: nat
    var retried: nat
    var recovered: nat
    var lost: nat
    var emitted: nat
    ghost var sending: seq<Parcel>
    ghost var passes: seq<Pass>
    ghost var buffer: seq<Parcel>
    ghost var delivered: seq<Parcel>
    ghost var gone: seq<Parcel>
    ghost var leaked: seq<Parcel>

    ghost function View(): State
      reads this
    {
      State(cfg, Link(ready, disabled, initFailed), sending, retryQ, passes, buffer, delivered, gone, leaked, emitted,
            Failures(failedSend, failedEnqueue, failedInit, failedRetry, failedSerialize), retried, recovered, lost)
    }

    constructor (cfg: Config)
      ensures View() == Init(cfg)
    {
      this.cfg := cfg;
      ready, disabled, initFailed := false, false, false;
      retryQ := [];
      failedSend, failedEnqueue, failedInit, failedRetry, failedSerialize := 0, 0, 0, 0, 0;
      retried, recovered, lost, emitted := 0, 0, 0, 0;
      sending, passes, buffer, delivered, gone, leaked := [], [], [], [], [], [];
    }

    /** `_get_producer` */
    method EnsureProducer(built: bool) returns (available: bool)
      modifies this`ready, this`disabled, this`initFailed
      ensures View() == GetProducer(old(View()), built)
      ensures available == ready
    {
      if ready { return true; }
      if disabled || initFailed { return false; }
      if !cfg.enabled {
        disabled := true;
        return false;
      }
      if built { ready := true; } else { initFailed := true; }
      available := built;
    }

    method Lose(p: Parcel)
      modifies this`lost, this`gone
      ensures View() == GiveUp(old(View()), p)
    {
      lost := lost + 1;
      gone := gone + [p];
    }

    /** `_requeue` */
    method Park(p: Parcel, at: real)
      modifies this`lost, this`gone, this`retryQ
      ensures View() == Requeue(old(View()), p, at)
    {
      if p.attempts > cfg.maxAttempts {
        Lose(p);
        return;
      }
      var cap := if cfg.maxQueue >= 1 then cfg.maxQueue else 1;
      ghost var s := View();
      ghost var k := 0;
      while |retryQ| >= cap
        invariant 0 <= k <= Overflow(s) <= |s.queue|
        invariant retryQ == s.queue[k..] && gone == s.gone + s.queue[..k] && lost == s.lost + k
        decreases |retryQ|
      {
        assert s.queue[..k + 1] == s.queue[..k] + [s.queue[k]];
        Lose(retryQ[0]);
        retryQ := retryQ[1..];
        k := k + 1;
      }
      assert k == Overflow(s);
      retryQ := retryQ + [p.(nextAt := at)];
    }

    /** `_give_up_all`, and the end of `aclose` */
    method AbandonQueue()
      modifies this`lost, this`gone, this`retryQ
      ensures View() == GiveUpAll(old(View()))
    {
      if retryQ == [] {
        assert gone == gone + retryQ;
        return;
      }
      lost := lost + |retryQ|;
      gone := gone + retryQ;
      retryQ := [];
    }

    /** `record_drop` */
    method ReportDrop(count: nat)
      modifies this`failedEnqueue, this`lost, this`gone, this`emitted
      ensures View() == DropRecords(old(View()), count)
    {
      gone := gone + FreshRun(View(), count);
      failedEnqueue := failedEnqueue + count;
      lost := lost + count;
      emitted := emitted + count;
    }

    /** `emit` of an encoded record, up to its `await` */
    method EmitEncoded(built: bool)
      modifies this
      ensures View() == EmitBegin(old(View()), built)
    {
      ghost var s := View();
      var p := Parcel(emitted, 0, 0.0, 0, 0);
      var available := EnsureProducer(built);
      emitted := emitted + 1;
      ghost var s1 := View();
      assert s1 == GetProducer(s, built).(emitted := s.emitted + 1);
      if available {
        sending := sending + [p.(handed := 1)];
        assert View() == s1.(sending := s1.sending + [p.(handed := 1)]);
      } else if initFailed {
        failedInit := failedInit + 1;
        assert View() == FailInit(s1);
        Lose(p);
      } else {
        leaked := leaked + [p];
        assert View() == s1.(leaked := s1.leaked + [p]);
      }
    }

    method Emit(serializable: bool, built: bool)
      modifies this
      ensures View() == if serializable then EmitBegin(old(View()), built) else EmitUnencodable(old(View()))
    {
      if serializable {
        EmitEncoded(built);
      } else {
        emitted := emitted + 1;
        failedSerialize := failedSerialize + 1;
        Lose(Parcel(emitted - 1, 0, 0.0, 0, 0));
      }
    }

    /** The rest of `emit`: `send_event` returned or raised */
    method EmitSent(ghost i: nat, p: Parcel, ok: bool, at: real)
      requires i < |sending| && sending[i] == p
      modifies this
      ensures View() == EmitEnd(old(View()), i, ok, at)
    {
      sending := sending[..i] + sending[i + 1..];
      if ok {
        buffer := buffer + [p];
      } else {
        failedEnqueue := failedEnqueue + 1;
        Park(p.(attempts := 1, failed := p.failed + 1), at);
      }
    }

    /** The loop that takes the due items out of the queue and leaves the others in it */
    method TakeDue(now: real) returns (due: seq<Parcel>)
      modifies this`retryQ
      ensures due == Due(old(retryQ), now) && retryQ == NotDue(old(retryQ), now)
    {
      var snapshot := retryQ;
      retryQ, due := [], [];
      for i := 0 to |snapshot|
        invariant due + Due(snapshot[i..], now) == Due(snapshot, now)
        invariant retryQ + NotDue(snapshot[i..], now) == NotDue(snapshot, now)
      {
        DueStep(snapshot, i, now);
        if snapshot[i].nextAt <= now {
          due := due + [snapshot[i]];
        } else {
          retryQ := retryQ + [snapshot[i]];
        }
      }
      assert snapshot[|snapshot|..] == [];
    }

    /** `_drain_once` up to its first `await` in `send_event`: the due items now belong to the pass */
    method DrainStart(now: real, built: bool) returns (due: seq<Parcel>)
      modifies this
      ensures View() == DrainBegin(old(View()), now, built)
      ensures |passes| > |old(passes)| ==> passes[|passes| - 1].due == due
    {
      due := [];
      if retryQ == [] { return; }
      var available := EnsureProducer(built);
      if !available {
        if disabled { AbandonQueue(); }
        return;
      }
      ghost var s1 := View();
      due := TakeDue(now);
      passes := passes + [Pass(due, false)];
      assert View() == SplitQueue(s1, now);
    }

    /** `_on_error` for a batch that can be iterated */
    method OnError(ghost mask: seq<bool>, batch: seq<Parcel>, fates: seq<Fate>)
      requires |mask| == |buffer| && batch == Pick(buffer, mask) && |fates| == |batch|
      modifies this
      ensures View() == Refuse(old(View()), mask, fates)
    {
      buffer := Rest(buffer, mask);
      failedSend := failedSend + if |batch| >= 1 then |batch| else 1;
      TryAgain(batch, fates);
    }

    /** The loop of `_on_error` */
    method TryAgain(batch: seq<Parcel>, fates: seq<Fate>)
      requires |fates| == |batch|
      modifies this`lost, this`gone, this`retryQ
      ensures View() == OnErrorLoop(old(View()), batch, fates)
    {
      ghost var s := View();
      for i := 0 to |batch|
        invariant OnErrorLoop(View(), batch[i..], fates[i..]) == OnErrorLoop(s, batch, fates)
      {
        assert batch[i..][1..] == batch[i + 1..] && fates[i..][1..] == fates[i + 1..];
        match fates[i] {
          case Unreadable => Lose(batch[i].(failed := batch[i].failed + 1));
          case Park(at) => Park(batch[i].(attempts := batch[i].attempts + 1, failed := batch[i].failed + 1), at);
        }
      }
    }

    /** `_on_error` for a batch that cannot be iterated: one failure, and nothing to park */
    method OnErrorOpaque(ghost mask: seq<bool>)
      requires |mask| == |buffer|
      modifies this`buffer, this`failedSend, this`leaked
      ensures View() == RefuseOpaque(old(View()), mask)
    {
      leaked := leaked + Pick(buffer, mask);
      buffer := Rest(buffer, mask);
      failedSend := failedSend + 1;
    }

    /** `_on_success`; `seen` is how many events the batch yields before it raises */
    method OnSuccess(ghost mask: seq<bool>, batch: seq<Parcel>, seen: nat)
      requires |mask| == |buffer| && batch == Pick(buffer, mask)
      modifies this`buffer, this`delivered, this`recovered
      ensures View() == Acknowledge(old(View()), mask, seen)
    {
      buffer := Rest(buffer, mask);
      delivered := delivered + batch;
      if retried == 0 { return; }
      CountRecovered(Seen(batch, seen));
    }

    method CountRecovered(batch: seq<Parcel>)
      modifies this`recovered
      ensures recovered == old(recovered) + CountRetried(batch)
    {
      for i := 0 to |batch|
        invariant recovered + CountRetried(batch[i..]) == old(recovered) + CountRetried(batch)
      {
        assert batch[i..][1..] == batch[i + 1..];
        if batch[i].attempts != 0 {
          recovered := recovered + 1;
        }
      }
      assert batch[|batch|..] == [];
    }

    /** The next item of a pass goes into `send_event` */
    method HandNext(ghost p: nat)
      requires p < |passes| && passes[p].due != []
      modifies this`passes, this`retried
      ensures View() == HandOver(old(View()), p)
    {
      ghost var due := passes[p].due;
      retried := retried + 1;
      passes := passes[p := Pass([due[0].(handed := due[0].handed + 1)] + due[1..], true)];
    }

    /** One item of a pass: its event could not be built, or `send_event` returned or raised */
    method RetrySent(ghost p: nat, item: Parcel, made: bool, ok: bool, at: real)
      requires p < |passes| && passes[p].due != [] && passes[p].inFlight == made && passes[p].due[0] == item
      modifies this
      ensures View() == if made then RetryEnd(old(View()), p, ok, at) else MakeFailed(old(View()), p, at)
    {
      passes := passes[p := Pass(passes[p].due[1..], false)];
      if made && ok {
        buffer := buffer + [item];
      } else {
        failedRetry := failedRetry + 1;
        var tried := if made then item else item.(handed := item.handed + 1);
        Park(tried.(attempts := item.attempts + 1, failed := item.failed + 1), at);
      }
    }

    /** `CancelledError` inside a pass's `send_event`: nothing in the module sees to its items */
    method PassCancelled(ghost p: nat, ghost enqueued: bool)
      requires p < |passes| && passes[p].due != []
      modifies this`passes, this`buffer, this`leaked
      ensures View() == Interrupt(old(View()), p, enqueued)
    {
      ghost var due := passes[p].due;
      passes := passes[p := Pass([], false)];
      buffer := buffer + if enqueued then [due[0]] else [];
      leaked := leaked + if enqueued then due[1..] else due;
    }

    /** `_maybe_reinit` once its minute is over */
    method TryAgainToConnect(built: bool)
      modifies this`ready, this`disabled, this`initFailed
      ensures View() == Rebuild(old(View()), built)
    {
      if !initFailed || retryQ == [] { return; }
      initFailed := false;
      var _ := EnsureProducer(built);
    }

    /** The loop of `aclose` before its final drain: at shutdown everything is due */
    method ExpireQueue()
      modifies this`retryQ
      ensures View() == Apply(old(View()), CloseExpire)
    {
      if !ready { return; }
      var q := retryQ;
      retryQ := [];
      for i := 0 to |q|
        invariant retryQ + Expire(q[i..]) == Expire(q)
      {
        assert q[i..][1..] == q[i + 1..];
        retryQ := retryQ + [q[i].(nextAt := 0.0)];
      }
      assert q[|q|..] == [];
    }

    /** `aclose` forgets the producer before it closes it */
    method ResetProducer()
      modifies this`ready, this`disabled, this`initFailed
      ensures View() == Apply(old(View()), CloseReset)
    {
      ready, disabled, initFailed := false, false, false;
    }
  }

  lemma DueStep(q: seq<Parcel>, i: nat, now: real)
    requires i < |q|
    ensures Due(q[i..], now) == (if q[i].nextAt <= now then [q[i]] else []) + Due(q[i + 1..], now)
    ensures NotDue(q[i..], now) == (if q[i].nextAt <= now then [] else [q[i]]) + NotDue(q[i + 1..], now)
  {
    assert q[i..][1..] == q[i + 1..];
  }
}
