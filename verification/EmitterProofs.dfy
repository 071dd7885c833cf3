/**
  What every interleaving of the emitter's steps keeps: no record is counted twice or not at
  all, stamps tell the truth, retries are bounded, and the counters are ordered.
 */
module EmitterProofs {
  import opened EmitterSpec

  // ---- sums over places ----

  ghost function Sum(ps: seq<Parcel>, w: Parcel -> int): int {
    if ps == [] then 0 else w(ps[0]) + Sum(ps[1..], w)
  }

  ghost function HeldSum(passes: seq<Pass>, w: Parcel -> int): int {
    if passes == [] then 0 else Sum(passes[0].due, w) + HeldSum(passes[1..], w)
  }

  /** The weight of everything that is still on its way. */
  ghost function LiveSum(s: State, w: Parcel -> int): int {
    Sum(s.sending, w) + Sum(s.queue, w) + HeldSum(s.passes, w) + Sum(s.buffer, w)
  }

  /** The weight of all places together. */
  ghost function Total(s: State, w: Parcel -> int): int {
    LiveSum(s, w) + Sum(s.delivered, w) + Sum(s.gone, w) + Sum(s.leaked, w)
  }

  lemma {:induction false} SumCat(a: seq<Parcel>, b: seq<Parcel>, w: Parcel -> int)
    ensures Sum(a + b, w) == Sum(a, w) + Sum(b, w)
  {
    if a == [] {
      assert a + b == b;
    } else {
      assert (a + b)[1..] == a[1..] + b;
      SumCat(a[1..], b, w);
    }
  }

  lemma SumOne(p: Parcel, w: Parcel -> int)
    ensures Sum([p], w) == w(p)
  {
    assert [p][1..] == [];
  }

  lemma SumSnoc(a: seq<Parcel>, p: Parcel, w: Parcel -> int)
    ensures Sum(a + [p], w) == Sum(a, w) + w(p)
  {
    SumCat(a, [p], w);
    SumOne(p, w);
  }

  lemma SumRemove(ps: seq<Parcel>, i: nat, w: Parcel -> int)
    requires i < |ps|
    ensures Sum(ps, w) == Sum(ps[..i] + ps[i + 1..], w) + w(ps[i])
  {
    assert ps == ps[..i] + [ps[i]] + ps[i + 1..];
    SumCat(ps[..i] + [ps[i]], ps[i + 1..], w);
    SumSnoc(ps[..i], ps[i], w);
    SumCat(ps[..i], ps[i + 1..], w);
  }

  lemma SumTake(ps: seq<Parcel>, i: nat, w: Parcel -> int)
    requires i <= |ps|
    ensures Sum(ps, w) == Sum(ps[..i], w) + Sum(ps[i..], w)
  {
    assert ps == ps[..i] + ps[i..];
    SumCat(ps[..i], ps[i..], w);
  }

  lemma {:induction false} SumPick(ps: seq<Parcel>, mask: seq<bool>, w: Parcel -> int)
    requires |ps| == |mask|
    ensures Sum(ps, w) == Sum(Pick(ps, mask), w) + Sum(Rest(ps, mask), w)
  {
    if ps != [] {
      SumPick(ps[1..], mask[1..], w);
      SumCat(if mask[0] then [ps[0]] else [], Pick(ps[1..], mask[1..]), w);
      SumCat(if mask[0] then [] else [ps[0]], Rest(ps[1..], mask[1..]), w);
      SumOne(ps[0], w);
    }
  }

  lemma {:induction false} SumDue(q: seq<Parcel>, now: real, w: Parcel -> int)
    ensures Sum(q, w) == Sum(Due(q, now), w) + Sum(NotDue(q, now), w)
  {
    if q != [] {
      SumDue(q[1..], now, w);
      SumCat(if q[0].nextAt <= now then [q[0]] else [], Due(q[1..], now), w);
      SumCat(if q[0].nextAt <= now then [] else [q[0]], NotDue(q[1..], now), w);
      SumOne(q[0], w);
    }
  }

  lemma {:induction false} HeldUpdate(passes: seq<Pass>, p: nat, pass: Pass, w: Parcel -> int)
    requires p < |passes|
    ensures HeldSum(passes[p := pass], w) == HeldSum(passes, w) - Sum(passes[p].due, w) + Sum(pass.due, w)
  {
    if p == 0 {
      assert passes[p := pass][1..] == passes[1..];
    } else {
      assert passes[p := pass][1..] == passes[1..][p - 1 := pass];
      HeldUpdate(passes[1..], p - 1, pass, w);
    }
  }

  lemma {:induction false} HeldSnoc(passes: seq<Pass>, pass: Pass, w: Parcel -> int)
    ensures HeldSum(passes + [pass], w) == HeldSum(passes, w) + Sum(pass.due, w)
  {
    if passes == [] {
      assert passes + [pass] == [pass];
      assert [pass][1..] == [];
    } else {
      assert (passes + [pass])[1..] == passes[1..] + [pass];
      HeldSnoc(passes[1..], pass, w);
    }
  }

  // ---- every record is somewhere ----

  /** A weight that depends on which record it is and on nothing else. */
  ghost predicate IdOnly(w: Parcel -> int) {
    forall p :: w(p) == w(Parcel(p.id, 0, 0.0, 0, 0))
  }

  lemma RequeueTotal(s: State, p: Parcel, at: real, w: Parcel -> int)
    requires IdOnly(w)
    ensures Total(Requeue(s, p, at), w) == Total(s, w) + w(p)
  {
    if p.attempts > s.cfg.maxAttempts {
      SumSnoc(s.gone, p, w);
    } else {
      var over := Overflow(s);
      SumTake(s.queue, over, w);
      SumCat(s.gone, s.queue[..over], w);
      SumSnoc(s.queue[over..], p.(nextAt := at), w);
    }
  }

  lemma {:induction false} OnErrorTotal(s: State, batch: seq<Parcel>, fates: seq<Fate>, w: Parcel -> int)
    requires |batch| == |fates| && IdOnly(w)
    ensures Total(OnErrorLoop(s, batch, fates), w) == Total(s, w) + Sum(batch, w)
    decreases |batch|
  {
    if batch != [] {
      match fates[0] {
        case Unreadable =>
          var p := batch[0].(failed := batch[0].failed + 1);
          SumSnoc(s.gone, p, w);
          OnErrorTotal(GiveUp(s, p), batch[1..], fates[1..], w);
        case Park(at) =>
          RequeueTotal(s, Failed(batch[0]), at, w);
          OnErrorTotal(Requeue(s, Failed(batch[0]), at), batch[1..], fates[1..], w);
      }
    }
  }

  lemma GiveUpAllTotal(s: State, w: Parcel -> int)
    ensures Total(GiveUpAll(s), w) == Total(s, w)
  {
    SumCat(s.gone, s.queue, w);
  }

  lemma {:induction false} ExpireSum(q: seq<Parcel>, w: Parcel -> int)
    requires IdOnly(w)
    ensures Sum(Expire(q), w) == Sum(q, w)
  {
    if q != [] {
      ExpireSum(q[1..], w);
    }
  }

  /** The records a step brings into being. */
  ghost function Born(s: State, step: Step): seq<Parcel> {
    match step
    case EmitUnserializable => [Fresh(s)]
    case EmitStart(_) => [Fresh(s)]
    case RecordDrop(count) => FreshRun(s, count)
    case _ => []
  }

  lemma SplitQueueTotal(s: State, now: real, w: Parcel -> int)
    ensures Total(SplitQueue(s, now), w) == Total(s, w)
  {
    SumDue(s.queue, now, w);
    HeldSnoc(s.passes, Pass(Due(s.queue, now), false), w);
  }

  lemma DrainTotal(s: State, now: real, built: bool, w: Parcel -> int)
    ensures Total(DrainBegin(s, now, built), w) == Total(s, w)
  {
    var s1 := GetProducer(s, built);
    SplitQueueTotal(s1, now, w);
    GiveUpAllTotal(s1, w);
  }

  lemma EmitBeginTotal(s: State, built: bool, w: Parcel -> int)
    requires IdOnly(w)
    ensures Total(EmitBegin(s, built), w) == Total(s, w) + w(Fresh(s))
  {
    var p := Fresh(s);
    SumSnoc(s.sending, p.(handed := 1), w);
    SumSnoc(s.gone, p, w);
    SumSnoc(s.leaked, p, w);
  }

  lemma BufferTotal(s: State, p: Parcel, w: Parcel -> int)
    ensures Total(Buffer(s, p), w) == Total(s, w) + w(p)
  {
    SumSnoc(s.buffer, p, w);
  }

  lemma UnsendTotal(s: State, i: nat, w: Parcel -> int)
    requires i < |s.sending|
    ensures Total(Unsend(s, i), w) == Total(s, w) - w(s.sending[i])
  {
    SumRemove(s.sending, i, w);
  }

  lemma EmitEndTotal(s: State, i: nat, ok: bool, at: real, w: Parcel -> int)
    requires IdOnly(w) && i < |s.sending|
    ensures Total(EmitEnd(s, i, ok, at), w) == Total(s, w)
  {
    var p, s1 := s.sending[i], Unsend(s, i);
    UnsendTotal(s, i, w);
    BufferTotal(s1, p, w);
    RequeueTotal(FailEnqueue(s1, 1), FirstFailure(p), at, w);
  }

  lemma NextItemTotal(s: State, p: nat, w: Parcel -> int)
    requires p < |s.passes| && s.passes[p].due != []
    ensures Total(NextItem(s, p), w) == Total(s, w) - w(s.passes[p].due[0])
  {
    HeldUpdate(s.passes, p, Pass(s.passes[p].due[1..], false), w);
  }

  lemma HandOverTotal(s: State, p: nat, w: Parcel -> int)
    requires p < |s.passes| && s.passes[p].due != [] && IdOnly(w)
    ensures Total(HandOver(s, p), w) == Total(s, w)
  {
    var due := s.passes[p].due;
    HeldUpdate(s.passes, p, Pass([due[0].(handed := due[0].handed + 1)] + due[1..], true), w);
  }

  lemma RetryEndTotal(s: State, p: nat, ok: bool, at: real, w: Parcel -> int)
    requires p < |s.passes| && s.passes[p].due != [] && IdOnly(w)
    ensures Total(RetryEnd(s, p, ok, at), w) == Total(s, w)
  {
    var item, s1 := s.passes[p].due[0], NextItem(s, p);
    NextItemTotal(s, p, w);
    BufferTotal(s1, item, w);
    RequeueTotal(FailRetry(s1), Failed(item), at, w);
  }

  lemma MakeFailedTotal(s: State, p: nat, at: real, w: Parcel -> int)
    requires p < |s.passes| && s.passes[p].due != [] && IdOnly(w)
    ensures Total(MakeFailed(s, p, at), w) == Total(s, w)
  {
    var item := s.passes[p].due[0];
    NextItemTotal(s, p, w);
    RequeueTotal(FailRetry(NextItem(s, p)), Failed(item.(handed := item.handed + 1)), at, w);
  }

  lemma InterruptTotal(s: State, p: nat, enqueued: bool, w: Parcel -> int)
    requires p < |s.passes| && s.passes[p].due != []
    ensures Total(Interrupt(s, p, enqueued), w) == Total(s, w)
  {
    var due := s.passes[p].due;
    HeldUpdate(s.passes, p, Pass([], false), w);
    SumSnoc(s.buffer, due[0], w);
    SumCat(s.leaked, due[1..], w);
    SumCat(s.leaked, due, w);
  }

  lemma CallbackTotal(s: State, mask: seq<bool>, w: Parcel -> int)
    requires |mask| == |s.buffer|
    ensures forall b :: Total(Acknowledge(s, mask, b), w) == Total(s, w)
    ensures Total(RefuseOpaque(s, mask), w) == Total(s, w)
    ensures Total(Unbuffer(s, mask), w) == Total(s, w) - Sum(Pick(s.buffer, mask), w)
  {
    SumPick(s.buffer, mask, w);
    SumCat(s.delivered, Pick(s.buffer, mask), w);
    SumCat(s.leaked, Pick(s.buffer, mask), w);
  }

  lemma RefuseTotal(s: State, mask: seq<bool>, fates: seq<Fate>, w: Parcel -> int)
    requires |mask| == |s.buffer| && |fates| == |Pick(s.buffer, mask)| && IdOnly(w)
    ensures Total(Refuse(s, mask, fates), w) == Total(s, w)
  {
    var batch := Pick(s.buffer, mask);
    CallbackTotal(s, mask, w);
    OnErrorTotal(FailSend(Unbuffer(s, mask), Max(|batch|, 1)), batch, fates, w);
  }

  /** One step moves parcels between places and loses none. */
  lemma StepTotal(s: State, step: Step, w: Parcel -> int)
    requires Enabled(s, step) && IdOnly(w)
    ensures Total(Apply(s, step), w) == Total(s, w) + Sum(Born(s, step), w)
  {
    match step {
      case EmitUnserializable =>
        SumSnoc(s.gone, Fresh(s), w);
        SumOne(Fresh(s), w);
      case EmitStart(built) =>
        EmitBeginTotal(s, built, w);
        SumOne(Fresh(s), w);
      case EmitResult(i, ok, at) => EmitEndTotal(s, i, ok, at, w);
      case RecordDrop(count) => SumCat(s.gone, FreshRun(s, count), w);
      case BeginPass(now, built) => DrainTotal(s, now, built, w);
      case HandOff(p) => HandOverTotal(s, p, w);
      case MakeFails(p, at) => MakeFailedTotal(s, p, at, w);
      case PassResult(p, ok, at) => RetryEndTotal(s, p, ok, at, w);
      case CancelPass(p, enqueued) => InterruptTotal(s, p, enqueued, w);
      case SendOk(mask, _) => CallbackTotal(s, mask, w);
      case SendError(mask, fates) => RefuseTotal(s, mask, fates, w);
      case SendErrorOpaque(mask) => CallbackTotal(s, mask, w);
      case CloseExpire => ExpireSum(s.queue, w);
      case CloseFinish => GiveUpAllTotal(s, w);
      case _ =>
    }
  }

  ghost function IsId(id: nat): Parcel -> int { (p: Parcel) => if p.id == id then 1 else 0 }

  lemma {:induction false} FreshCount(s: State, count: nat, id: nat)
    ensures Sum(FreshRun(s, count), IsId(id)) == if s.emitted <= id < s.emitted + count then 1 else 0
    ensures |FreshRun(s, count)| == count
    decreases count
  {
    if count > 0 {
      FreshCount(s.(emitted := s.emitted + 1), count - 1, id);
      SumCat([Fresh(s)], FreshRun(s.(emitted := s.emitted + 1), count - 1), IsId(id));
      SumOne(Fresh(s), IsId(id));
    }
  }

  lemma {:induction false} OnErrorEmitted(s: State, batch: seq<Parcel>, fates: seq<Fate>)
    requires |batch| == |fates|
    ensures var t := OnErrorLoop(s, batch, fates);
            t.emitted == s.emitted && t.cfg == s.cfg && t.leaked == s.leaked && t.link == s.link
    decreases |batch|
  {
    if batch != [] {
      match fates[0] {
        case Unreadable => OnErrorEmitted(GiveUp(s, batch[0].(failed := batch[0].failed + 1)), batch[1..], fates[1..]);
        case Park(at) => OnErrorEmitted(Requeue(s, Failed(batch[0]), at), batch[1..], fates[1..]);
      }
    }
  }

  lemma StepEmitted(s: State, step: Step)
    requires Enabled(s, step)
    ensures Apply(s, step).emitted == s.emitted + |Born(s, step)|
    ensures Apply(s, step).cfg == s.cfg
  {
    match step {
      case RecordDrop(count) => FreshCount(s, count, 0);
      case SendError(mask, fates) =>
        var batch := Pick(s.buffer, mask);
        OnErrorEmitted(FailSend(Unbuffer(s, mask), Max(|batch|, 1)), batch, fates);
      case _ =>
    }
  }

  /** Each record emitted so far is in exactly one place, exactly once; no other record exists. */
  ghost predicate Conserved(s: State) {
    forall id: nat :: Total(s, IsId(id)) == if id < s.emitted then 1 else 0
  }

  lemma StepConserves(s: State, step: Step)
    requires Enabled(s, step) && Conserved(s)
    ensures Conserved(Apply(s, step))
  {
    StepEmitted(s, step);
    forall id: nat ensures Total(Apply(s, step), IsId(id)) == if id < Apply(s, step).emitted then 1 else 0 {
      StepTotal(s, step, IsId(id));
      SumOne(Fresh(s), IsId(id));
      if step.RecordDrop? {
        FreshCount(s, step.count, id);
      }
    }
  }

  ghost function One(): Parcel -> int { (p: Parcel) => 1 }

  lemma {:induction false} SumLength(ps: seq<Parcel>)
    ensures Sum(ps, One()) == |ps|
  {
    if ps != [] {
      SumLength(ps[1..]);
    }
  }
}
