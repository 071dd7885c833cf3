/** Stamps, bounds and counters of the emitter, over every run. */
module EmitterInvariants {
  import opened EmitterSpec
  import opened EmitterProofs

  // ---- stamps and bounds ----

  function Bound(cfg: Config): nat { Max(cfg.maxAttempts, 0) + 1 }

  ghost predicate Parked(cfg: Config, p: Parcel) {
    1 <= p.attempts <= cfg.maxAttempts && p.failed == p.attempts && p.handed == p.attempts
  }

  ghost predicate Handed(cfg: Config, p: Parcel) {
    0 <= p.attempts <= Max(cfg.maxAttempts, 0) && p.failed == p.attempts && p.handed == p.attempts + 1
  }

  ghost predicate Spent(cfg: Config, p: Parcel) {
    p.failed <= p.handed <= Bound(cfg)
  }

  ghost predicate PassStamped(cfg: Config, pass: Pass) {
    forall j :: 0 <= j < |pass.due| ==>
      if j == 0 && pass.inFlight then pass.due[j].attempts >= 1 && Handed(cfg, pass.due[j]) else Parked(cfg, pass.due[j])
  }

  /** The stamp of every live record equals its number of failed hand-offs, and no record has
      been handed over more than `Bound` times; the queue respects its capacity. */
  ghost predicate Stamped(s: State) {
    && (forall p :: p in s.sending ==> p.attempts == 0 && Handed(s.cfg, p))
    && (forall p :: p in s.queue ==> Parked(s.cfg, p))
    && |s.queue| <= Max(s.cfg.maxQueue, 1)
    && (forall k :: 0 <= k < |s.passes| ==> PassStamped(s.cfg, s.passes[k]))
    && (forall p :: p in s.buffer ==> Handed(s.cfg, p))
    && (forall p :: p in s.delivered ==> Spent(s.cfg, p))
    && (forall p :: p in s.gone ==> Spent(s.cfg, p))
    && (forall p :: p in s.leaked ==> Spent(s.cfg, p))
  }

  lemma PickMembers(ps: seq<Parcel>, mask: seq<bool>)
    requires |ps| == |mask|
    ensures forall p :: p in Pick(ps, mask) ==> p in ps
    ensures forall p :: p in Rest(ps, mask) ==> p in ps
  {
  }

  lemma DueMembers(q: seq<Parcel>, now: real)
    ensures forall p :: p in Due(q, now) ==> p in q
    ensures forall p :: p in NotDue(q, now) ==> p in q
    ensures |NotDue(q, now)| <= |q|
  {
  }

  lemma RequeueStamped(s: State, p: Parcel, at: real)
    requires Stamped(s)
    requires 1 <= p.attempts <= Bound(s.cfg) && p.failed == p.attempts == p.handed
    ensures Stamped(Requeue(s, p, at))
  {
    if p.attempts <= s.cfg.maxAttempts {
      var over := Overflow(s);
      assert forall q :: q in s.queue[..over] ==> q in s.queue;
      assert forall q :: q in s.queue[over..] ==> q in s.queue;
    }
  }

  lemma {:induction false} OnErrorStamped(s: State, batch: seq<Parcel>, fates: seq<Fate>)
    requires |batch| == |fates| && Stamped(s)
    requires forall p :: p in batch ==> Handed(s.cfg, p)
    ensures Stamped(OnErrorLoop(s, batch, fates))
    decreases |batch|
  {
    if batch != [] {
      assert batch[0] in batch;
      match fates[0] {
        case Unreadable => OnErrorStamped(GiveUp(s, batch[0].(failed := batch[0].failed + 1)), batch[1..], fates[1..]);
        case Park(at) =>
          RequeueStamped(s, Failed(batch[0]), at);
          OnErrorStamped(Requeue(s, Failed(batch[0]), at), batch[1..], fates[1..]);
      }
    }
  }

  lemma {:induction false} FreshRunStamped(s: State, count: nat)
    ensures forall p :: p in FreshRun(s, count) ==> Spent(s.cfg, p)
    decreases count
  {
    if count > 0 {
      FreshRunStamped(s.(emitted := s.emitted + 1), count - 1);
    }
  }

  lemma {:induction false} ExpireStamped(cfg: Config, q: seq<Parcel>)
    requires forall p :: p in q ==> Parked(cfg, p)
    ensures |Expire(q)| == |q|
    ensures forall p :: p in Expire(q) ==> Parked(cfg, p)
  {
    if q != [] {
      assert q[0] in q;
      ExpireStamped(cfg, q[1..]);
    }
  }

  lemma NextItemStamped(s: State, p: nat)
    requires p < |s.passes| && s.passes[p].due != [] && Stamped(s)
    ensures Stamped(NextItem(s, p))
  {
    var due := s.passes[p].due;
    assert PassStamped(s.cfg, s.passes[p]);
    assert PassStamped(s.cfg, Pass(due[1..], false));
  }

  lemma FirstItemStamped(s: State, p: nat)
    requires p < |s.passes| && s.passes[p].due != [] && Stamped(s)
    ensures var item := s.passes[p].due[0];
            if s.passes[p].inFlight then item.attempts >= 1 && Handed(s.cfg, item) else Parked(s.cfg, item)
  {
    assert PassStamped(s.cfg, s.passes[p]);
  }

  lemma HandOverStamped(s: State, p: nat)
    requires Enabled(s, HandOff(p)) && Stamped(s)
    ensures Stamped(HandOver(s, p))
  {
    var due := s.passes[p].due;
    assert PassStamped(s.cfg, s.passes[p]);
    assert PassStamped(s.cfg, Pass([due[0].(handed := due[0].handed + 1)] + due[1..], true));
  }

  lemma MakeFailedStamped(s: State, p: nat, at: real)
    requires Enabled(s, MakeFails(p, at)) && Stamped(s)
    ensures Stamped(MakeFailed(s, p, at))
  {
    var item := s.passes[p].due[0];
    FirstItemStamped(s, p);
    NextItemStamped(s, p);
    RequeueStamped(FailRetry(NextItem(s, p)), Failed(item.(handed := item.handed + 1)), at);
  }

  lemma RetryEndStamped(s: State, p: nat, ok: bool, at: real)
    requires Enabled(s, PassResult(p, ok, at)) && Stamped(s)
    ensures Stamped(RetryEnd(s, p, ok, at))
  {
    FirstItemStamped(s, p);
    NextItemStamped(s, p);
    if !ok {
      RequeueStamped(FailRetry(NextItem(s, p)), Failed(s.passes[p].due[0]), at);
    }
  }

  lemma InterruptStamped(s: State, p: nat, enqueued: bool)
    requires Enabled(s, CancelPass(p, enqueued)) && Stamped(s)
    ensures Stamped(Interrupt(s, p, enqueued))
  {
    var due := s.passes[p].due;
    assert PassStamped(s.cfg, s.passes[p]);
    assert PassStamped(s.cfg, Pass([], false));
    assert forall q :: q in due ==> exists j :: 0 <= j < |due| && due[j] == q;
    assert forall q :: q in due[1..] ==> q in due;
  }

  lemma UnsendStamped(s: State, i: nat)
    requires i < |s.sending| && Stamped(s)
    ensures Stamped(Unsend(s, i)) && s.sending[i].attempts == 0 && Handed(s.cfg, s.sending[i])
  {
    assert s.sending[i] in s.sending;
    assert forall q :: q in s.sending[..i] + s.sending[i + 1..] ==> q in s.sending;
  }

  lemma EmitEndStamped(s: State, i: nat, ok: bool, at: real)
    requires i < |s.sending| && Stamped(s)
    ensures Stamped(EmitEnd(s, i, ok, at))
  {
    UnsendStamped(s, i);
    if !ok {
      RequeueStamped(FailEnqueue(Unsend(s, i), 1), FirstFailure(s.sending[i]), at);
    }
  }

  lemma DrainStamped(s: State, now: real, built: bool)
    requires Stamped(s)
    ensures Stamped(DrainBegin(s, now, built))
  {
    DueMembers(s.queue, now);
    var due := Due(s.queue, now);
    assert forall j :: 0 <= j < |due| ==> due[j] in due;
    assert PassStamped(s.cfg, Pass(due, false));
  }

  lemma CallbackStamped(s: State, mask: seq<bool>)
    requires |mask| == |s.buffer| && Stamped(s)
    ensures forall b :: Stamped(Acknowledge(s, mask, b))
    ensures Stamped(Unbuffer(s, mask)) && Stamped(RefuseOpaque(s, mask))
    ensures forall p :: p in Pick(s.buffer, mask) ==> Handed(s.cfg, p)
  {
    PickMembers(s.buffer, mask);
  }

  lemma StepStamped(s: State, step: Step)
    requires Enabled(s, step) && Stamped(s)
    ensures Stamped(Apply(s, step))
  {
    match step {
      case EmitResult(i, ok, at) => EmitEndStamped(s, i, ok, at);
      case RecordDrop(count) => FreshRunStamped(s, count);
      case BeginPass(now, built) => DrainStamped(s, now, built);
      case HandOff(p) => HandOverStamped(s, p);
      case MakeFails(p, at) => MakeFailedStamped(s, p, at);
      case PassResult(p, ok, at) => RetryEndStamped(s, p, ok, at);
      case CancelPass(p, enqueued) => InterruptStamped(s, p, enqueued);
      case SendOk(mask, _) => CallbackStamped(s, mask);
      case SendError(mask, fates) =>
        CallbackStamped(s, mask);
        var batch := Pick(s.buffer, mask);
        OnErrorStamped(FailSend(Unbuffer(s, mask), Max(|batch|, 1)), batch, fates);
      case SendErrorOpaque(mask) => CallbackStamped(s, mask);
      case CloseExpire => ExpireStamped(s.cfg, s.queue);
      case _ =>
    }
  }

  // ---- counters ----

  ghost function Attempts(): Parcel -> int { (p: Parcel) => p.attempts }

  ghost function Again(): Parcel -> int { (p: Parcel) => if p.attempts != 0 then 1 else 0 }

  ghost function Flying(passes: seq<Pass>): nat {
    if passes == [] then 0 else (if passes[0].inFlight && passes[0].due != [] then 1 else 0) + Flying(passes[1..])
  }

  lemma {:induction false} FlyingUpdate(passes: seq<Pass>, p: nat, pass: Pass)
    requires p < |passes|
    ensures Flying(passes[p := pass]) ==
            Flying(passes) - Flying([passes[p]]) + Flying([pass])
  {
    assert [passes[p]][1..] == [] && [pass][1..] == [];
    if p == 0 {
      assert passes[p := pass][1..] == passes[1..];
    } else {
      assert passes[p := pass][1..] == passes[1..][p - 1 := pass];
      FlyingUpdate(passes[1..], p - 1, pass);
    }
  }

  lemma {:induction false} FlyingSnoc(passes: seq<Pass>, pass: Pass)
    ensures Flying(passes + [pass]) == Flying(passes) + Flying([pass])
  {
    if passes == [] {
      assert passes + [pass] == [pass];
    } else {
      assert (passes + [pass])[1..] == passes[1..] + [pass];
      FlyingSnoc(passes[1..], pass);
    }
  }

  lemma {:induction false} SeenAtMost(batch: seq<Parcel>, seen: nat)
    ensures CountRetried(Seen(batch, seen)) <= CountRetried(batch)
    decreases |batch|
  {
    if seen == 0 && batch != [] {
      assert Seen(batch, 0) == [];
    } else if seen < |batch| {
      assert batch[..seen][1..] == batch[1..][..seen - 1];
      SeenAtMost(batch[1..], seen - 1);
    }
  }

  lemma {:induction false} CountRetriedSum(batch: seq<Parcel>)
    ensures CountRetried(batch) == Sum(batch, Again())
  {
    if batch != [] {
      CountRetriedSum(batch[1..]);
    }
  }

  /** Failed hand-offs that the losses and the live stamps account for. */
  ghost function Owed(s: State): int { s.lost + LiveSum(s, Attempts()) }

  /** Retries that recoveries, the buffer and the running passes account for. */
  ghost function Retrying(s: State): int { s.recovered + Sum(s.buffer, Again()) + Flying(s.passes) }

  ghost predicate Counted(s: State) {
    && s.lost == |s.gone|
    && Owed(s) <= DroppedCount(s)
    && Retrying(s) <= s.retried
  }

  lemma {:induction false} AtLeastLength(ps: seq<Parcel>)
    requires forall p :: p in ps ==> p.attempts >= 1
    ensures Sum(ps, Attempts()) >= |ps|
  {
    if ps != [] {
      assert ps[0] in ps;
      AtLeastLength(ps[1..]);
    }
  }

  lemma RequeueCounts(s: State, p: Parcel, at: real)
    requires Stamped(s) && p.attempts >= 1
    ensures var t := Requeue(s, p, at);
            Owed(t) <= Owed(s) + p.attempts && DroppedCount(t) == DroppedCount(s) &&
            t.lost - |t.gone| == s.lost - |s.gone| && Retrying(t) == Retrying(s) && t.retried == s.retried
  {
    if p.attempts <= s.cfg.maxAttempts {
      var over := Overflow(s);
      var w := Attempts();
      assert forall q :: q in s.queue[..over] ==> q in s.queue;
      AtLeastLength(s.queue[..over]);
      SumTake(s.queue, over, w);
      SumSnoc(s.queue[over..], p.(nextAt := at), w);
    }
  }

  lemma {:induction false} OnErrorCounts(s: State, batch: seq<Parcel>, fates: seq<Fate>)
    requires |batch| == |fates| && Stamped(s)
    requires forall p :: p in batch ==> Handed(s.cfg, p)
    ensures var t := OnErrorLoop(s, batch, fates);
            Owed(t) <= Owed(s) + Sum(batch, Attempts()) + |batch| && DroppedCount(t) == DroppedCount(s) &&
            t.lost - |t.gone| == s.lost - |s.gone| && Retrying(t) == Retrying(s) && t.retried == s.retried
    decreases |batch|
  {
    if batch != [] {
      assert batch[0] in batch;
      match fates[0] {
        case Unreadable =>
          OnErrorCounts(GiveUp(s, batch[0].(failed := batch[0].failed + 1)), batch[1..], fates[1..]);
        case Park(at) =>
          RequeueStamped(s, Failed(batch[0]), at);
          RequeueCounts(s, Failed(batch[0]), at);
          OnErrorCounts(Requeue(s, Failed(batch[0]), at), batch[1..], fates[1..]);
      }
    }
  }

  /** Taking the first due item out of a pass. */
  lemma NextItemCounts(s: State, p: nat)
    requires p < |s.passes| && s.passes[p].due != []
    ensures Owed(NextItem(s, p)) == Owed(s) - s.passes[p].due[0].attempts
    ensures Retrying(NextItem(s, p)) == Retrying(s) - if s.passes[p].inFlight then 1 else 0
  {
    HeldUpdate(s.passes, p, Pass(s.passes[p].due[1..], false), Attempts());
    FlyingUpdate(s.passes, p, Pass(s.passes[p].due[1..], false));
  }

  lemma BufferCounts(s: State, p: Parcel)
    ensures Owed(Buffer(s, p)) == Owed(s) + p.attempts
    ensures Retrying(Buffer(s, p)) == Retrying(s) + if p.attempts != 0 then 1 else 0
  {
    SumSnoc(s.buffer, p, Attempts());
    SumSnoc(s.buffer, p, Again());
  }

  lemma HandOverCounted(s: State, p: nat)
    requires Enabled(s, HandOff(p)) && Counted(s)
    ensures Counted(HandOver(s, p))
  {
    var due := s.passes[p].due;
    var pass := Pass([due[0].(handed := due[0].handed + 1)] + due[1..], true);
    HeldUpdate(s.passes, p, pass, Attempts());
    FlyingUpdate(s.passes, p, pass);
  }

  lemma MakeFailedCounted(s: State, p: nat, at: real)
    requires Enabled(s, MakeFails(p, at)) && Counted(s) && Stamped(s)
    ensures Counted(MakeFailed(s, p, at))
  {
    var item := s.passes[p].due[0];
    var tried := Failed(item.(handed := item.handed + 1));
    FirstItemStamped(s, p);
    NextItemStamped(s, p);
    NextItemCounts(s, p);
    assert Attempts()(tried) == Attempts()(item) + 1;
    RequeueCounts(FailRetry(NextItem(s, p)), tried, at);
  }

  lemma RetryEndCounted(s: State, p: nat, ok: bool, at: real)
    requires Enabled(s, PassResult(p, ok, at)) && Counted(s) && Stamped(s)
    ensures Counted(RetryEnd(s, p, ok, at))
  {
    var item := s.passes[p].due[0];
    FirstItemStamped(s, p);
    NextItemStamped(s, p);
    NextItemCounts(s, p);
    if ok {
      BufferCounts(NextItem(s, p), item);
    } else {
      RequeueCounts(FailRetry(NextItem(s, p)), Failed(item), at);
    }
  }

  lemma {:induction false} NonNegative(ps: seq<Parcel>)
    requires forall p :: p in ps ==> p.attempts >= 0
    ensures Sum(ps, Attempts()) >= 0
  {
    if ps != [] {
      assert ps[0] in ps;
      NonNegative(ps[1..]);
    }
  }

  lemma InterruptCounted(s: State, p: nat, enqueued: bool)
    requires Enabled(s, CancelPass(p, enqueued)) && Counted(s) && Stamped(s)
    ensures Counted(Interrupt(s, p, enqueued))
  {
    var due := s.passes[p].due;
    FirstItemStamped(s, p);
    NextItemStamped(s, p);
    assert PassStamped(s.cfg, Pass(due[1..], false));
    forall q | q in due[1..] ensures q.attempts >= 0 {
      var j :| 0 <= j < |due[1..]| && due[1..][j] == q;
    }
    NonNegative(due[1..]);
    HeldUpdate(s.passes, p, Pass([], false), Attempts());
    FlyingUpdate(s.passes, p, Pass([], false));
    BufferCounts(s.(passes := s.passes[p := Pass([], false)]), due[0]);
  }

  lemma UnsendCounts(s: State, i: nat)
    requires i < |s.sending|
    ensures Owed(Unsend(s, i)) == Owed(s) - s.sending[i].attempts && Retrying(Unsend(s, i)) == Retrying(s)
  {
    SumRemove(s.sending, i, Attempts());
  }

  lemma EmitEndCounted(s: State, i: nat, ok: bool, at: real)
    requires i < |s.sending| && Counted(s) && Stamped(s)
    ensures Counted(EmitEnd(s, i, ok, at))
  {
    UnsendStamped(s, i);
    UnsendCounts(s, i);
    if ok {
      BufferCounts(Unsend(s, i), s.sending[i]);
    } else {
      RequeueCounts(FailEnqueue(Unsend(s, i), 1), FirstFailure(s.sending[i]), at);
    }
  }

  lemma EmitBeginCounted(s: State, built: bool)
    requires Counted(s)
    ensures Counted(EmitBegin(s, built))
  {
    SumSnoc(s.sending, Fresh(s).(handed := 1), Attempts());
  }

  lemma SplitQueueCounted(s: State, now: real)
    requires Counted(s)
    ensures Counted(SplitQueue(s, now))
  {
    var due := Due(s.queue, now);
    SumDue(s.queue, now, Attempts());
    HeldSnoc(s.passes, Pass(due, false), Attempts());
    FlyingSnoc(s.passes, Pass(due, false));
    var t := SplitQueue(s, now);
    assert LiveSum(t, Attempts()) == LiveSum(s, Attempts());
    assert Retrying(t) == Retrying(s);
  }

  lemma GiveUpAllCounted(s: State)
    requires Counted(s) && forall q :: q in s.queue ==> q.attempts >= 1
    ensures Counted(GiveUpAll(s))
  {
    AtLeastLength(s.queue);
  }

  lemma DrainCounted(s: State, now: real, built: bool)
    requires Counted(s) && Stamped(s)
    ensures Counted(DrainBegin(s, now, built))
  {
    var s1 := GetProducer(s, built);
    assert Owed(s1) == Owed(s) && Retrying(s1) == Retrying(s);
    SplitQueueCounted(s1, now);
    GiveUpAllCounted(s1);
  }

  lemma UnbufferCounts(s: State, mask: seq<bool>)
    requires |mask| == |s.buffer| && Stamped(s)
    ensures var batch := Pick(s.buffer, mask);
            Sum(batch, Attempts()) >= 0 && CountRetried(batch) == Sum(batch, Again()) &&
            Owed(Unbuffer(s, mask)) == Owed(s) - Sum(batch, Attempts()) &&
            Retrying(Unbuffer(s, mask)) == Retrying(s) - CountRetried(batch)
  {
    PickMembers(s.buffer, mask);
    SumPick(s.buffer, mask, Attempts());
    SumPick(s.buffer, mask, Again());
    CountRetriedSum(Pick(s.buffer, mask));
    NonNegative(Pick(s.buffer, mask));
  }

  lemma RefuseCounted(s: State, mask: seq<bool>, fates: seq<Fate>)
    requires Enabled(s, SendError(mask, fates)) && Counted(s) && Stamped(s)
    ensures Counted(Refuse(s, mask, fates))
  {
    var batch := Pick(s.buffer, mask);
    CallbackStamped(s, mask);
    UnbufferCounts(s, mask);
    OnErrorCounts(FailSend(Unbuffer(s, mask), Max(|batch|, 1)), batch, fates);
  }

  lemma {:induction false} ExpireAttempts(q: seq<Parcel>)
    ensures Sum(Expire(q), Attempts()) == Sum(q, Attempts())
  {
    if q != [] {
      ExpireAttempts(q[1..]);
    }
  }

  lemma StepCounted(s: State, step: Step)
    requires Enabled(s, step) && Stamped(s) && Counted(s)
    ensures Counted(Apply(s, step))
  {
    match step {
      case EmitStart(built) => EmitBeginCounted(s, built);
      case EmitResult(i, ok, at) => EmitEndCounted(s, i, ok, at);
      case RecordDrop(count) => FreshCount(s, count, 0);
      case BeginPass(now, built) => DrainCounted(s, now, built);
      case HandOff(p) => HandOverCounted(s, p);
      case MakeFails(p, at) => MakeFailedCounted(s, p, at);
      case PassResult(p, ok, at) => RetryEndCounted(s, p, ok, at);
      case CancelPass(p, enqueued) => InterruptCounted(s, p, enqueued);
      case SendOk(mask, seen) =>
        UnbufferCounts(s, mask);
        SeenAtMost(Pick(s.buffer, mask), seen);
      case SendError(mask, fates) => RefuseCounted(s, mask, fates);
      case SendErrorOpaque(mask) => UnbufferCounts(s, mask);
      case CloseExpire => ExpireAttempts(s.queue);
      case CloseFinish => AtLeastLength(s.queue);
      case _ =>
    }
  }
}
