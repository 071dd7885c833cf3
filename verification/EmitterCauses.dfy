/**
  What the emitter's flags and counters mean: what an unconfigured hub does, which counter each
  failure goes to, which records an overflow gives up, and which ones a pass takes.
 */
module EmitterCauses {
  import opened EmitterSpec
  import opened EmitterProofs
  import opened EmitterRuns

  // ---- the flags ----

  /** A step that may build a producer, with that outcome if it does. */
  predicate Triggers(step: Step, built: bool) {
    match step
    case EmitStart(b) => b == built
    case BeginPass(_, b) => b == built
    case Reinit(b) => b == built
    case _ => false
  }

  /** How a step changes the flags. */
  lemma StepLinks(s: State, step: Step)
    requires Enabled(s, step)
    ensures var (a, b) := (s.link, Apply(s, step).link);
            && (!s.cfg.enabled && !a.ready && !a.initFailed ==> !b.ready && !b.initFailed)
            && (s.cfg.enabled && !a.disabled ==> !b.disabled)
            && (b.ready && !a.ready ==> s.cfg.enabled && Triggers(step, true))
            && (b.initFailed && !a.initFailed ==> s.cfg.enabled && Triggers(step, false))
            && (a.ready && !b.ready ==> step.CloseReset?)
            && (s.cfg.enabled && a == Link(false, false, true) && !b.initFailed ==>
                  step.CloseReset? || (step == Reinit(true) && s.queue != []))
  {
    if step.SendError? {
      var batch := Pick(s.buffer, step.mask);
      OnErrorEmitted(FailSend(Unbuffer(s, step.mask), Max(|batch|, 1)), batch, step.fates);
    }
  }

  /** In no run is the hub flagged both ways, and each flag has its own cause: without Event Hub
      there is never a producer and never a failed start; with it the hub is never switched off,
      and a failed start is one that a step of the run met. */
  lemma {:induction false} FlagsTellWhy(cfg: Config, steps: seq<Step>, states: seq<State>, i: nat)
    requires Run(cfg, steps, states) && i < |states|
    ensures states[i].cfg == cfg
    ensures !cfg.enabled ==> !states[i].link.ready && !states[i].link.initFailed
    ensures cfg.enabled ==> !states[i].link.disabled
    ensures states[i].link.initFailed ==> exists k :: 0 <= k < i && Triggers(steps[k], false)
    ensures states[i].link.ready ==> exists k :: 0 <= k < i && Triggers(steps[k], true)
  {
    if i > 0 {
      var s, step := states[i - 1], steps[i - 1];
      FlagsTellWhy(cfg, steps, states, i - 1);
      assert states[i - 1 + 1] == Apply(s, step);
      StepLinks(s, step);
      StepEmitted(s, step);
    }
  }

  predicate Unflagged(link: Link) { !link.ready && !link.disabled && !link.initFailed }

  /** The first use decides the flag, and no later one changes it: not configured, built, or
      failed. What is emitted then goes to the SDK, is counted as lost, or is dropped silently, as
      the flag says. */
  lemma EmitGoesByFlag(s: State, built: bool)
    requires Unflagged(s.link) || (s.link.ready && !s.link.disabled && !s.link.initFailed)
             || (!s.link.ready && s.link.disabled != s.link.initFailed)
    ensures var t := Apply(s, EmitStart(built));
            && (Unflagged(s.link) ==> t.link.ready == (s.cfg.enabled && built) && t.link.disabled == !s.cfg.enabled
                                      && t.link.initFailed == (s.cfg.enabled && !built))
            && (!Unflagged(s.link) ==> t.link == s.link)
            && t.emitted == s.emitted + 1
            && t.sending == s.sending + (if t.link.ready then [Parcel(s.emitted, 0, 0.0, 1, 0)] else [])
            && t.lost == s.lost + (if t.link.initFailed then 1 else 0)
            && |t.leaked| == |s.leaked| + (if t.link.disabled then 1 else 0)
  {
  }

  /** After a failed start with records waiting, a start that succeeds is enough. */
  lemma ReinitConnects(s: State)
    requires s.cfg.enabled && s.link == Link(false, false, true) && s.queue != []
    ensures Apply(s, Reinit(true)) == s.(link := Link(true, false, false))
  {
  }

  /** A pass that finds no producer leaves the queue for a later start, when the start has failed, now
      or before; only a hub without Event Hub gives up what is queued, and counts it. */
  lemma PassWithoutProducer(s: State, now: real, built: bool)
    requires s.queue != [] && !s.link.ready
    ensures var t := Apply(s, BeginPass(now, built));
            && (s.link.initFailed && !s.link.disabled ==> t == s)
            && (Unflagged(s.link) && s.cfg.enabled && !built ==> t == s.(link := s.link.(initFailed := true)))
            && (s.link.disabled || (Unflagged(s.link) && !s.cfg.enabled) ==>
                  t.queue == [] && t.gone == s.gone + s.queue && t.lost == s.lost + |s.queue| && t.passes == s.passes)
  {
  }

  // ---- the counters ----

  lemma {:induction false} LoopCounts(s: State, batch: seq<Parcel>, fates: seq<Fate>)
    requires |batch| == |fates|
    ensures var t := OnErrorLoop(s, batch, fates);
            && t.failures == s.failures && t.retried == s.retried && t.recovered == s.recovered && t.link == s.link
            && t.sending == s.sending && t.passes == s.passes && t.buffer == s.buffer && t.delivered == s.delivered
    decreases |batch|
  {
    if batch != [] {
      match fates[0] {
        case Unreadable => LoopCounts(GiveUp(s, batch[0].(failed := batch[0].failed + 1)), batch[1..], fates[1..]);
        case Park(at) => LoopCounts(Requeue(s, Failed(batch[0]), at), batch[1..], fates[1..]);
      }
    }
  }

  /** The start of the producer that a send needs has failed, now or before. */
  predicate StartFails(s: State, built: bool) {
    s.link.initFailed || (s.cfg.enabled && !s.link.ready && !s.link.disabled && !built)
  }

  /** Which counter a step adds to, and how much: each failure goes to its own cause, a failed
      batch counting at least one; hand-overs and recoveries have theirs. */
  lemma StepCauses(s: State, step: Step)
    requires Enabled(s, step) && !(s.link.ready && s.link.initFailed)
    ensures var (a, b) := (s.failures, Apply(s, step).failures);
            && b.send == a.send + (match step
                 case SendError(mask, _) => if Pick(s.buffer, mask) == [] then 1 else |Pick(s.buffer, mask)|
                 case SendErrorOpaque(_) => 1
                 case _ => 0)
            && b.enqueue == a.enqueue + (match step
                 case EmitResult(_, ok, _) => if ok then 0 else 1
                 case RecordDrop(count) => count
                 case _ => 0)
            && b.init == a.init + (if step.EmitStart? && StartFails(s, step.built) then 1 else 0)
            && b.retry == a.retry + (match step
                 case MakeFails(_, _) => 1
                 case PassResult(_, ok, _) => if ok then 0 else 1
                 case _ => 0)
            && b.serialize == a.serialize + (if step.EmitUnserializable? then 1 else 0)
    ensures Apply(s, step).retried == s.retried + if step.HandOff? then 1 else 0
  {
    if step.SendError? {
      var batch := Pick(s.buffer, step.mask);
      LoopCounts(FailSend(Unbuffer(s, step.mask), Max(|batch|, 1)), batch, step.fates);
    }
  }

  /** The positions of the retried events of a batch. */
  function RetriedAt(batch: seq<Parcel>, n: nat): set<nat> {
    set i: nat | i < n && i < |batch| && batch[i].attempts != 0
  }

  lemma {:induction false} CountIsSize(batch: seq<Parcel>, n: nat)
    requires n <= |batch|
    ensures CountRetried(batch[..n]) == |RetriedAt(batch, n)|
  {
    if n > 0 {
      var (front, p) := (batch[..n - 1], batch[n - 1]);
      CountIsSize(batch, n - 1);
      assert batch[..n] == front + [p];
      CountSnoc(front, p);
      assert RetriedAt(batch, n) == RetriedAt(batch, n - 1) + (if p.attempts != 0 then {n - 1} else {});
    }
  }

  lemma {:induction false} CountSnoc(batch: seq<Parcel>, p: Parcel)
    ensures CountRetried(batch + [p]) == CountRetried(batch) + if p.attempts != 0 then 1 else 0
  {
    if batch == [] {
      assert [] + [p] == [p] && [p][1..] == [];
    } else {
      assert (batch + [p])[1..] == batch[1..] + [p];
      CountSnoc(batch[1..], p);
    }
  }

  /** Only a success callback counts recoveries: one for each retried event it gets to see, and
      only once something has been handed over again. */
  lemma StepRecovers(s: State, step: Step)
    requires Enabled(s, step)
    ensures Apply(s, step).recovered == s.recovered +
              (if step.SendOk? && s.retried > 0 then |RetriedAt(Pick(s.buffer, step.mask), step.seen)| else 0)
    ensures Apply(s, step).delivered == s.delivered + (if step.SendOk? then Pick(s.buffer, step.mask) else [])
  {
    match step {
      case SendError(mask, fates) =>
        var batch := Pick(s.buffer, mask);
        LoopCounts(FailSend(Unbuffer(s, mask), Max(|batch|, 1)), batch, fates);
      case SendOk(mask, seen) =>
        var batch := Pick(s.buffer, mask);
        var n := if seen < |batch| then seen else |batch|;
        CountIsSize(batch, n);
        assert batch[..|batch|] == batch && RetriedAt(batch, n) == RetriedAt(batch, seen);
      case _ =>
    }
  }

  // ---- an unconfigured hub ----

  /** Nothing is on its way and nothing was handed over. */
  predicate Silent(s: State) {
    && s.sending == [] && s.queue == [] && s.passes == [] && s.buffer == [] && s.delivered == []
    && s.failures.send == s.failures.init == s.failures.retry == 0
    && s.lost == s.failures.enqueue + s.failures.serialize
  }

  predicate IsCallback(step: Step) { step.SendOk? || step.SendError? || step.SendErrorOpaque? }

  /** Callbacks come from a producer there has been. */
  ghost predicate CallbacksHaveProducer(steps: seq<Step>, states: seq<State>) {
    forall k :: 0 <= k < |steps| && IsCallback(steps[k]) ==> exists j :: 0 <= j <= k && j < |states| && states[j].link.ready
  }

  lemma StepStaysSilent(s: State, step: Step)
    requires Enabled(s, step) && Silent(s) && !s.cfg.enabled && !s.link.ready && !s.link.initFailed && !IsCallback(step)
    ensures Silent(Apply(s, step))
    ensures !step.EmitUnserializable? && !step.RecordDrop? ==> Apply(s, step).lost == s.lost
  {
  }

  /** A hub without Event Hub hands nothing over and parks nothing; all it counts are records that
      cannot be encoded and drops that are reported to it. Records are dropped silently. */
  lemma {:induction false} UnconfiguredIsSilent(cfg: Config, steps: seq<Step>, states: seq<State>, i: nat)
    requires Run(cfg, steps, states) && i < |states| && !cfg.enabled && CallbacksHaveProducer(steps, states)
    ensures Silent(states[i])
    ensures (forall k :: 0 <= k < i ==> !steps[k].EmitUnserializable? && !steps[k].RecordDrop?) ==>
              states[i].lost == 0 && DroppedCount(states[i]) == 0 && |states[i].leaked| == states[i].emitted
  {
    if i > 0 {
      var (s, step) := (states[i - 1], steps[i - 1]);
      UnconfiguredIsSilent(cfg, steps, states, i - 1);
      FlagsTellWhy(cfg, steps, states, i - 1);
      assert states[i - 1 + 1] == Apply(s, step);
      if IsCallback(step) {
        var j :| 0 <= j <= i - 1 && states[j].link.ready;
        FlagsTellWhy(cfg, steps, states, j);
        assert false;
      }
      StepStaysSilent(s, step);
      StepLeaks(s, step);
      StepEmitted(s, step);
    }
  }

  // ---- which records ----

  lemma Moved(gone: seq<Parcel>, queue: seq<Parcel>, over: nat, q: Parcel)
    requires over <= |queue|
    ensures (gone + queue[..over]) + (queue[over..] + [q]) == gone + queue + [q]
  {
    assert queue == queue[..over] + queue[over..];
  }

  /** A record that has attempts left is parked last, with its deadline, and what the capacity then
      leaves no room for is given up from the front: the oldest. One without attempts left is given
      up itself, and the queue stays as it is. */
  lemma OverflowGivesUpOldest(s: State, p: Parcel, at: real)
    requires |s.queue| <= Max(s.cfg.maxQueue, 1)
    ensures var t := Requeue(s, p, at);
            && t.lost - s.lost == |t.gone| - |s.gone|
            && (p.attempts > s.cfg.maxAttempts ==> t.queue == s.queue && t.gone == s.gone + [p])
            && (p.attempts <= s.cfg.maxAttempts ==>
                  && t.queue != [] && t.queue[|t.queue| - 1] == p.(nextAt := at)
                  && t.gone + t.queue == s.gone + s.queue + [p.(nextAt := at)]
                  && |t.queue| == (if |s.queue| < Max(s.cfg.maxQueue, 1) then |s.queue| + 1 else |s.queue|))
  {
    if p.attempts <= s.cfg.maxAttempts {
      Moved(s.gone, s.queue, Overflow(s), p.(nextAt := at));
    }
  }

  lemma {:induction false} DueCat(a: seq<Parcel>, b: seq<Parcel>, now: real)
    ensures Due(a + b, now) == Due(a, now) + Due(b, now) && NotDue(a + b, now) == NotDue(a, now) + NotDue(b, now)
  {
    if a == [] {
      assert a + b == b;
    } else {
      assert (a + b)[1..] == a[1..] + b;
      DueCat(a[1..], b, now);
      var (due, rest) := (if a[0].nextAt <= now then [a[0]] else [], if a[0].nextAt <= now then [] else [a[0]]);
      Assoc(due, Due(a[1..], now), Due(b, now));
      Assoc(rest, NotDue(a[1..], now), NotDue(b, now));
    }
  }

  lemma Assoc(x: seq<Parcel>, y: seq<Parcel>, z: seq<Parcel>)
    ensures x + (y + z) == (x + y) + z
  {
  }

  lemma DueOne(p: Parcel, now: real)
    ensures Due([p], now) == (if p.nextAt <= now then [p] else [])
    ensures NotDue([p], now) == (if p.nextAt <= now then [] else [p])
  {
    var none: seq<Parcel> := [];
    assert [p][1..] == none && Due(none, now) == none && NotDue(none, now) == none;
  }

  /** A pass with a producer takes exactly what is due, and leaves exactly what is not, each in
      order: item by item along the queue. */
  lemma PassTakesDue(s: State, now: real, built: bool, a: seq<Parcel>, p: Parcel, b: seq<Parcel>)
    requires s.queue == a + [p] + b && s.link.ready
    ensures var t := Apply(s, BeginPass(now, built));
            && |t.passes| == |s.passes| + 1
            && t.passes[|s.passes|].due == Due(a, now) + (if p.nextAt <= now then [p] else []) + Due(b, now)
            && t.queue == NotDue(a, now) + (if p.nextAt <= now then [] else [p]) + NotDue(b, now)
  {
    DueCat(a + [p], b, now);
    DueCat(a, [p], now);
    DueOne(p, now);
    assert |s.queue| > 0;
    assert Apply(s, BeginPass(now, built)) == SplitQueue(s, now);
  }
}
