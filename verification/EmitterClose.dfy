/** The shutdown in its order, what the books say after it, and what another order would do. */
module EmitterClose {
  import opened EmitterSpec
  import opened EmitterProofs
  import opened EmitterRuns

  predicate Callback(step: Step) {
    step.SendOk? || step.SendError? || step.SendErrorOpaque?
  }

  /** What may happen while the emitter closes and no new record comes in: passes and their
      cancellation, callbacks, and the ends of emits that were waiting. */
  predicate Winding(step: Step) {
    Callback(step) || step.CancelPass? || step.CloseExpire? || step.BeginPass? || step.HandOff? || step.MakeFails?
    || step.PassResult? || step.EmitResult? || step.Reinit?
  }

  /** No emit waits and every pass has returned or was cancelled. */
  ghost predicate Quiet(s: State) {
    s.sending == [] && forall k :: 0 <= k < |s.passes| ==> s.passes[k].due == []
  }

  /** `aclose`: until state `b` the old drainer is cancelled and the final drain awaited; the
      producer is dropped; until state `c` it is closed, which flushes; then what is queued is
      counted. Nothing is asked of the steps between: a record that is parked on the way starts a
      new drainer, whose passes nobody awaits. */
  ghost predicate Closes(steps: seq<Step>, states: seq<State>, b: nat, c: nat) {
    b < c < |steps| < |states| && steps[b].CloseReset? && steps[c].CloseFinish?
  }

  lemma RefuseFrame(s: State, mask: seq<bool>, fates: seq<Fate>)
    requires |mask| == |s.buffer| && |fates| == |Pick(s.buffer, mask)|
    ensures var t := Refuse(s, mask, fates);
            t.sending == s.sending && t.passes == s.passes && t.buffer == Rest(s.buffer, mask) && t.cfg == s.cfg
  {
    var batch := Pick(s.buffer, mask);
    LoopFrame(FailSend(Unbuffer(s, mask), Max(|batch|, 1)), batch, fates);
  }

  lemma {:induction false} LoopFrame(s: State, batch: seq<Parcel>, fates: seq<Fate>)
    requires |batch| == |fates|
    ensures var t := OnErrorLoop(s, batch, fates);
            t.sending == s.sending && t.passes == s.passes && t.buffer == s.buffer && t.cfg == s.cfg
    decreases |batch|
  {
    if batch != [] {
      match fates[0] {
        case Unreadable => LoopFrame(GiveUp(s, batch[0].(failed := batch[0].failed + 1)), batch[1..], fates[1..]);
        case Park(at) => LoopFrame(Requeue(s, Failed(batch[0]), at), batch[1..], fates[1..]);
      }
    }
  }

  lemma CallbackStaysQuiet(s: State, step: Step)
    requires Enabled(s, step) && Callback(step)
    ensures Quiet(Apply(s, step)) <==> Quiet(s)
  {
    if step.SendError? {
      RefuseFrame(s, step.mask, step.fates);
    }
  }

  lemma {:induction false} FlushStaysQuiet(cfg: Config, steps: seq<Step>, states: seq<State>, i: nat, j: nat)
    requires Run(cfg, steps, states) && i <= j < |states|
    requires forall k :: i <= k < j ==> Callback(steps[k])
    ensures Quiet(states[j]) <==> Quiet(states[i])
    decreases j
  {
    if i < j {
      FlushStaysQuiet(cfg, steps, states, i, j - 1);
      CallbackStaysQuiet(states[j - 1], steps[j - 1]);
      assert states[j - 1 + 1] == Apply(states[j - 1], steps[j - 1]);
    }
  }

  lemma {:induction false} NoneComesIn(cfg: Config, steps: seq<Step>, states: seq<State>, i: nat, j: nat)
    requires Run(cfg, steps, states) && i <= j < |states| && states[i].sending == []
    requires forall k :: i <= k < j ==> Winding(steps[k])
    ensures states[j].sending == []
    decreases j
  {
    if i < j {
      NoneComesIn(cfg, steps, states, i, j - 1);
      var s, step := states[j - 1], steps[j - 1];
      assert states[j - 1 + 1] == Apply(s, step);
      if step.SendError? {
        RefuseFrame(s, step.mask, step.fates);
      }
    }
  }

  lemma {:induction false} HeldIsSome(passes: seq<Pass>)
    ensures HeldSum(passes, One()) >= 0
    ensures HeldSum(passes, One()) == 0 <==> forall k :: 0 <= k < |passes| ==> passes[k].due == []
  {
    if passes != [] {
      SumLength(passes[0].due);
      HeldIsSome(passes[1..]);
      assert forall k :: 1 <= k < |passes| ==> passes[k] == passes[1..][k - 1];
    }
  }

  /** The books of a run balance exactly when nothing is on its way. */
  lemma BalanceMeansIdle(cfg: Config, steps: seq<Step>, states: seq<State>, i: nat)
    requires Run(cfg, steps, states) && i < |states|
    ensures var s := states[i]; s.emitted == |s.delivered| + s.lost + |s.leaked| <==> Idle(s)
  {
    var s := states[i];
    RunKeepsAccounts(cfg, steps, states, i);
    BornLength(cfg, steps, states, i);
    HeldIsSome(s.passes);
    SumLength(s.sending);
    SumLength(s.queue);
    SumLength(s.buffer);
    SumLength(s.delivered);
    SumLength(s.gone);
    SumLength(s.leaked);
  }

  /** After `aclose` nothing is queued, and every record ever emitted was delivered, counted as
      lost or leaked exactly when, as the count was taken, no emit waited, no pass held a record
      and no buffer did. */
  lemma CloseTellsTheTruth(cfg: Config, steps: seq<Step>, states: seq<State>, b: nat, c: nat)
    requires Run(cfg, steps, states) && Closes(steps, states, b, c)
    ensures var s := states[c + 1];
            s.queue == [] &&
            (s.emitted == |s.delivered| + s.lost + |s.leaked| <==> Quiet(states[c]) && states[c].buffer == [])
    ensures cfg.enabled && Quiet(states[c]) && states[c].buffer == []
            && (forall k :: 0 <= k <= c ==> !steps[k].CancelPass? && !steps[k].SendErrorOpaque?) ==>
              states[c + 1].emitted == |states[c + 1].delivered| + states[c + 1].lost
  {
    assert states[c + 1] == Apply(states[c], steps[c]);
    BalanceMeansIdle(cfg, steps, states, c + 1);
    if Quiet(states[c]) && states[c].buffer == [] {
      BooksBalance(cfg, steps, states, c + 1);
    }
  }

  /** When emits are over before it starts and none begins, no emit waits at the end; and when
      besides the flush is only callbacks, no pass holds a record at the end exactly when none did
      as the producer was dropped. */
  lemma OrderlyCloseIsQuiet(cfg: Config, steps: seq<Step>, states: seq<State>, a: nat, b: nat, c: nat)
    requires Run(cfg, steps, states) && Closes(steps, states, b, c) && a <= b && states[a].sending == []
    requires (forall k :: a <= k < b ==> Winding(steps[k])) && forall k :: b < k < c ==> Winding(steps[k])
    ensures states[c].sending == []
    ensures (forall k :: b < k < c ==> Callback(steps[k])) ==> (Quiet(states[c]) <==> Quiet(states[b]))
  {
    assert states[b + 1] == Apply(states[b], steps[b]);
    NoneComesIn(cfg, steps, states, a, b);
    NoneComesIn(cfg, steps, states, b + 1, c);
    if forall k :: b < k < c ==> Callback(steps[k]) {
      FlushStaysQuiet(cfg, steps, states, b + 1, c);
    }
  }

  /** The final drain takes everything: once the deadlines are reset, nothing stays in the queue. */
  lemma {:induction false} AllExpiredAreDue(q: seq<Parcel>, now: real)
    requires now >= 0.0
    ensures Due(Expire(q), now) == Expire(q) && NotDue(Expire(q), now) == []
    ensures |Expire(q)| == |q|
  {
    if q != [] {
      AllExpiredAreDue(q[1..], now);
    }
  }

  lemma FinalDrainTakesAll(s: State, now: real, built: bool)
    requires s.link.ready && s.queue != [] && now >= 0.0
    ensures var t := DrainBegin(Apply(s, CloseExpire), now, built);
            t.queue == [] && t.passes == s.passes + [Pass(Expire(s.queue), false)]
  {
    AllExpiredAreDue(s.queue, now);
  }

  // ---- counting too early ----

  /** A failed batch with an event that is parked. */
  ghost predicate SomeParks(cfg: Config, batch: seq<Parcel>, fates: seq<Fate>)
    requires |batch| == |fates|
  {
    exists k :: 0 <= k < |batch| && fates[k].Park? && batch[k].attempts < cfg.maxAttempts
  }

  ghost predicate Parks(s: State, step: Step)
    requires Enabled(s, step)
  {
    step.SendError? && SomeParks(s.cfg, Pick(s.buffer, step.mask), step.fates)
  }

  lemma SomeParksTail(cfg: Config, batch: seq<Parcel>, fates: seq<Fate>)
    requires |batch| == |fates| && batch != []
    ensures SomeParks(cfg, batch, fates) <==>
            (fates[0].Park? && batch[0].attempts < cfg.maxAttempts) || SomeParks(cfg, batch[1..], fates[1..])
  {
    if SomeParks(cfg, batch, fates) {
      var k :| 0 <= k < |batch| && fates[k].Park? && batch[k].attempts < cfg.maxAttempts;
      assert k > 0 ==> fates[1..][k - 1].Park? && batch[1..][k - 1].attempts < cfg.maxAttempts;
    }
    if SomeParks(cfg, batch[1..], fates[1..]) {
      var k :| 0 <= k < |batch| - 1 && fates[1..][k].Park? && batch[1..][k].attempts < cfg.maxAttempts;
      assert fates[k + 1].Park? && batch[k + 1].attempts < cfg.maxAttempts;
    }
  }

  lemma {:induction false} LoopFillsQueue(s: State, batch: seq<Parcel>, fates: seq<Fate>)
    requires |batch| == |fates|
    ensures OnErrorLoop(s, batch, fates).queue != [] <==> s.queue != [] || SomeParks(s.cfg, batch, fates)
    decreases |batch|
  {
    if batch != [] {
      SomeParksTail(s.cfg, batch, fates);
      match fates[0] {
        case Unreadable => LoopFillsQueue(GiveUp(s, batch[0].(failed := batch[0].failed + 1)), batch[1..], fates[1..]);
        case Park(at) => LoopFillsQueue(Requeue(s, Failed(batch[0]), at), batch[1..], fates[1..]);
      }
    }
  }

  /** A callback leaves the queue empty exactly when it was empty and nothing is parked. */
  lemma CallbackQueue(s: State, step: Step)
    requires Enabled(s, step) && Callback(step)
    ensures Apply(s, step).queue != [] <==> s.queue != [] || Parks(s, step)
  {
    if step.SendError? {
      var batch := Pick(s.buffer, step.mask);
      LoopFillsQueue(FailSend(Unbuffer(s, step.mask), Max(|batch|, 1)), batch, step.fates);
    }
  }

  lemma {:induction false} FlushQueue(cfg: Config, steps: seq<Step>, states: seq<State>, i: nat, j: nat)
    requires Run(cfg, steps, states) && i <= j < |states| && states[i].queue == []
    requires forall k :: i <= k < j ==> Callback(steps[k])
    ensures states[j].queue != [] <==> exists k :: i <= k < j && Parks(states[k], steps[k])
    decreases j
  {
    if i < j {
      var k := j - 1;
      FlushQueue(cfg, steps, states, i, k);
      CallbackQueue(states[k], steps[k]);
      assert states[k + 1] == Apply(states[k], steps[k]);
      assert Parks(states[k], steps[k]) ==> exists m :: i <= m < j && Parks(states[m], steps[m]);
    }
  }

  /** With the count taken before the flush instead of after it, the books balance exactly when
      nothing else was under way and no error callback of the flush parks an event. */
  lemma CountingFirst(cfg: Config, steps: seq<Step>, states: seq<State>, b: nat, c: nat)
    requires Run(cfg, steps, states) && b < c < |states|
    requires steps[b].CloseFinish?
    requires (forall k :: b < k < c ==> Callback(steps[k])) && states[c].buffer == []
    ensures states[c].emitted == |states[c].delivered| + states[c].lost + |states[c].leaked|
            <==> Quiet(states[b]) && forall k :: b < k < c ==> !Parks(states[k], steps[k])
  {
    var s := states[c];
    assert states[b + 1] == Apply(states[b], steps[b]);
    FlushStaysQuiet(cfg, steps, states, b + 1, c);
    FlushQueue(cfg, steps, states, b + 1, c);
    BalanceMeansIdle(cfg, steps, states, c);
  }

  // ---- short runs ----

  lemma FirstSend(cfg: Config) returns (s: State)
    requires cfg.enabled
    ensures s == Apply(Init(cfg), EmitStart(true))
    ensures s == Init(cfg).(link := Link(true, false, false), sending := [Parcel(0, 0, 0.0, 1, 0)], emitted := 1)
  {
    s := Apply(Init(cfg), EmitStart(true));
  }

  /** The one record in the queue of an otherwise empty emitter. */
  ghost predicate OneQueued(s: State) {
    && s.link.ready && s.emitted == 1 && |s.queue| == 1 && s.queue[0].attempts == 1 && s.lost == 0
    && s.sending == s.buffer == s.delivered == s.leaked == [] && s.passes == []
  }

  predicate Untroubled(step: Step) { !step.CancelPass? && !step.SendErrorOpaque? }

  ghost predicate Chain(steps: seq<Step>, states: seq<State>) {
    && |states| == |steps| + 1
    && forall i :: 0 <= i < |steps| ==> Enabled(states[i], steps[i]) && states[i + 1] == Apply(states[i], steps[i])
  }

  lemma ChainCat(xs: seq<Step>, ss: seq<State>, ys: seq<Step>, ts: seq<State>)
    requires Chain(xs, ss) && Chain(ys, ts) && ss[|xs|] == ts[0]
    ensures Chain(xs + ys, ss + ts[1..])
  {
    var zs, us := xs + ys, ss + ts[1..];
    assert forall j :: 0 <= j <= |ys| ==> us[|xs| + j] == ts[j];
    forall i | 0 <= i < |zs| ensures Enabled(us[i], zs[i]) && us[i + 1] == Apply(us[i], zs[i]) {
      if i >= |xs| {
        var j := i - |xs|;
        assert us[|xs| + j] == ts[j] && us[|xs| + (j + 1)] == ts[j + 1];
      }
    }
  }

  lemma FirstParked(cfg: Config) returns (steps: seq<Step>, states: seq<State>)
    requires cfg.enabled && cfg.maxAttempts >= 1
    ensures Run(cfg, steps, states) && |steps| == 2 && OneQueued(states[2]) && states[2].cfg == cfg
    ensures forall step :: step in steps ==> Untroubled(step)
  {
    var s1 := FirstSend(cfg);
    var s2 := Apply(s1, EmitResult(0, false, 1.0));
    assert s2.sending == [];
    steps, states := [EmitStart(true), EmitResult(0, false, 1.0)], [Init(cfg), s1, s2];
  }

  /** The final drain takes it out of the queue. */
  lemma TakenOut(s: State) returns (steps: seq<Step>, states: seq<State>)
    requires OneQueued(s)
    ensures Chain(steps, states) && |steps| == 2 && states[0] == s
    ensures forall step :: step in steps ==> Winding(step) && Untroubled(step)
    ensures states[2].passes == [Pass(Expire(s.queue), false)] && |Expire(s.queue)| == 1
    ensures Expire(s.queue)[0].attempts == 1
    ensures states[2] == s.(queue := [], passes := states[2].passes)
  {
    AllExpiredAreDue(s.queue, 0.0);
    FinalDrainTakesAll(s, 0.0, true);
    var s1 := Apply(s, CloseExpire);
    steps, states := [CloseExpire, BeginPass(0.0, true)], [s, s1, Apply(s1, BeginPass(0.0, true))];
  }

  /** A pass that is cancelled in its first `send_event`. */
  lemma CutShort(s: State) returns (steps: seq<Step>, states: seq<State>)
    requires |s.passes| == 1 && s.passes[0] == Pass(s.passes[0].due, false) && |s.passes[0].due| == 1
    requires s.sending == s.leaked == []
    ensures Chain(steps, states) && |steps| == 2 && states[0] == s && forall k :: 0 <= k < 2 ==> Winding(steps[k])
    ensures |states[2].leaked| == 1 && Quiet(states[2])
    ensures states[2] == s.(retried := s.retried + 1, leaked := states[2].leaked, passes := states[2].passes)
  {
    var s1 := Apply(s, HandOff(0));
    steps, states := [HandOff(0), CancelPass(0, false)], [s, s1, Apply(s1, CancelPass(0, false))];
  }

  /** A final drain that runs out of time leaks what it still held: one record emitted, and after
      the whole of `aclose` it is neither delivered nor counted. */
  lemma TimedOutDrainLeaks(cfg: Config) returns (steps: seq<Step>, states: seq<State>)
    requires cfg.enabled && cfg.maxAttempts >= 1
    ensures Run(cfg, steps, states) && |steps| >= 3 && Closes(steps, states, |steps| - 2, |steps| - 1)
    ensures var s := states[|steps|]; s.emitted == |s.leaked| == 1 && s.delivered == [] && s.lost == 0
  {
    var xs, ss := FirstParked(cfg);
    var ys, ts := TakenOut(ss[2]);
    var zs, us := CutShort(ts[2]);
    ChainCat(xs, ss, ys, ts);
    ChainCat(xs + ys, ss + ts[1..], zs, us);
    var s := Apply(us[2], CloseReset);
    var rest, ends := [CloseReset, CloseFinish], [us[2], s, Apply(s, CloseFinish)];
    ChainCat(xs + ys + zs, ss + ts[1..] + us[1..], rest, ends);
    steps, states := (xs + ys + zs) + rest, (ss + ts[1..] + us[1..]) + ends[1..];
    assert states[6] == us[2];
  }

  lemma FirstBuffered(cfg: Config) returns (steps: seq<Step>, states: seq<State>)
    requires cfg.enabled
    ensures Run(cfg, steps, states) && |steps| == 2
    ensures var s := states[2];
            s.cfg == cfg && s.passes == [] && s.buffer == [Parcel(0, 0, 0.0, 1, 0)] && s.emitted == 1 && s.lost == 0 && Quiet(s)
            && s.queue == s.delivered == s.leaked == []
  {
    var s1 := FirstSend(cfg);
    var s2 := Apply(s1, EmitResult(0, true, 0.0));
    assert s2.sending == [];
    steps, states := [EmitStart(true), EmitResult(0, true, 0.0)], [Init(cfg), s1, s2];
  }

  /** The failed hand-off of the one record in the SDK's buffer. */
  lemma HandBack(s: State, p: Parcel, step: Step) returns (t: State)
    requires s.buffer == [p] && s.queue == [] && p.attempts < s.cfg.maxAttempts
    requires step == SendError([true], [Park(1.0)])
    ensures Enabled(s, step) && t == Apply(s, step) && t.buffer == []
    ensures t.emitted == s.emitted && t.delivered == s.delivered && t.lost == s.lost && t.leaked == s.leaked
    ensures t.cfg == s.cfg && t.link == s.link && t.passes == s.passes && t.sending == s.sending
    ensures |t.queue| == 1 && t.queue[0].nextAt == 1.0
  {
    var failed := FailSend(Unbuffer(s, [true]), 1);
    assert [p][1..] == [] && [true][1..] == [] && [Park(1.0)][1..] == [];
    assert Pick([p], [true]) == [p] + [] && Rest([p], [true]) == [] + [];
    assert OnErrorLoop(failed, [p], [Park(1.0)]) == Requeue(failed, Failed(p), 1.0);
    t := Apply(s, step);
  }

  /** A pass takes the one parked record up. */
  lemma PassBegins(s: State) returns (t: State)
    requires |s.queue| == 1 && s.queue[0].nextAt <= 1.0 && s.cfg.enabled && s.passes == []
    requires !s.link.disabled && !s.link.initFailed
    ensures t == Apply(s, BeginPass(1.0, true))
    ensures t == s.(link := t.link, queue := [], passes := [Pass(s.queue, false)])
  {
    var none: seq<Parcel> := [];
    assert s.queue == [s.queue[0]] && s.queue[1..] == none;
    assert Due(none, 1.0) == none && NotDue(none, 1.0) == none;
    assert Due(s.queue, 1.0) == s.queue && NotDue(s.queue, 1.0) == none;
    t := Apply(s, BeginPass(1.0, true));
    assert t.passes == [Pass(s.queue, false)];
  }

  /** And hands it on. */
  lemma PassOver(s: State) returns (steps: seq<Step>, states: seq<State>)
    requires |s.queue| == 1 && s.queue[0].nextAt <= 1.0 && s.cfg.enabled && s.passes == [] && s.buffer == []
    requires !s.link.disabled && !s.link.initFailed
    ensures Chain(steps, states) && |steps| == 3 && states[0] == s && forall k :: 0 <= k < 3 ==> Winding(steps[k])
    ensures var t := states[3];
            |t.buffer| == 1 && t.queue == [] && t.emitted == s.emitted && t.delivered == s.delivered && t.lost == s.lost
            && t.leaked == s.leaked && t.sending == s.sending
  {
    var s1 := PassBegins(s);
    var s2 := Apply(s1, HandOff(0));
    steps := [BeginPass(1.0, true), HandOff(0), PassResult(0, true, 0.0)];
    states := [s, s1, s2, Apply(s2, PassResult(0, true, 0.0))];
  }

  /** A drainer that starts during the flush may take the record the flush hands back and put it
      into the buffer of a producer of its own, which nobody flushes: after the whole of `aclose`
      the record is neither delivered nor counted. */
  lemma RevivedDrainerHides(cfg: Config) returns (steps: seq<Step>, states: seq<State>)
    requires cfg.enabled && cfg.maxAttempts >= 1
    ensures Run(cfg, steps, states) && |steps| >= 3 && Closes(steps, states, 2, |steps| - 1)
    ensures var s := states[|steps|];
            s.emitted == |s.buffer| == 1 && s.delivered == [] && s.lost == 0 && s.leaked == []
  {
    var xs, ss := FirstBuffered(cfg);
    var s := Apply(ss[2], CloseReset);
    var failure := SendError([true], [Park(1.0)]);
    var t := HandBack(s, s.buffer[0], failure);
    var ys, ts := [CloseReset, failure], [ss[2], s, t];
    var zs, us := PassOver(t);
    var u := Apply(us[3], CloseFinish);
    ChainCat(xs, ss, ys, ts);
    ChainCat(xs + ys, ss + ts[1..], zs, us);
    ChainCat(xs + ys + zs, ss + ts[1..] + us[1..], [CloseFinish], [us[3], u]);
    steps, states := (xs + ys + zs) + [CloseFinish], (ss + ts[1..] + us[1..]) + [us[3], u][1..];
    assert states[2] == ss[2] && states[8] == u;
  }

  /** The one item of a pass fails again and is parked again. */
  lemma SentBack(s: State) returns (steps: seq<Step>, states: seq<State>)
    requires |s.passes| == 1 && s.passes[0] == Pass(s.passes[0].due, false) && |s.passes[0].due| == 1
    requires s.passes[0].due[0].attempts < s.cfg.maxAttempts && s.queue == []
    ensures Chain(steps, states) && |steps| == 2 && states[0] == s
    ensures forall step :: step in steps ==> Winding(step) && Untroubled(step)
    ensures var t := states[2];
            t.passes == [Pass([], false)] && |t.queue| == 1 && t.queue[0].nextAt == 1.0 &&
            t == s.(passes := t.passes, queue := t.queue, retried := t.retried, failures := t.failures)
  {
    var s1 := Apply(s, HandOff(0));
    assert s1.passes[0].due[1..] == [];
    steps, states := [HandOff(0), PassResult(0, false, 1.0)], [s, s1, Apply(s1, PassResult(0, false, 1.0))];
  }

  /** A second drainer takes the one parked record into its send. */
  lemma TakenAgain(s: State) returns (steps: seq<Step>, states: seq<State>)
    requires |s.queue| == 1 && s.queue[0].nextAt == 1.0 && s.link.ready && s.passes == [Pass([], false)]
    ensures Chain(steps, states) && |steps| == 2 && states[0] == s
    ensures forall step :: step in steps ==> Winding(step) && Untroubled(step)
    ensures var t := states[2];
            t == s.(queue := [], passes := t.passes, retried := t.retried) && |t.passes| == 2 && t.passes[1].due != []
  {
    var none: seq<Parcel> := [];
    assert s.queue == [s.queue[0]] && s.queue[1..] == none;
    assert Due(none, 1.0) == none && NotDue(none, 1.0) == none;
    assert Due(s.queue, 1.0) == s.queue && NotDue(s.queue, 1.0) == none;
    var s1 := Apply(s, BeginPass(1.0, true));
    assert s1.passes == [Pass([], false), Pass(s.queue, false)];
    steps, states := [BeginPass(1.0, true), HandOff(1)], [s, s1, Apply(s1, HandOff(1))];
  }

  /** The final drain and what comes of it. */
  lemma DrainedTwice(s: State) returns (steps: seq<Step>, states: seq<State>)
    requires OneQueued(s) && s.cfg.maxAttempts >= 2
    ensures Chain(steps, states) && |steps| == 6 && states[0] == s
    ensures forall step :: step in steps ==> Winding(step) && Untroubled(step)
    ensures var t := states[6];
            t == s.(queue := [], passes := t.passes, retried := t.retried, failures := t.failures) && !Quiet(t)
  {
    var ys, ts := TakenOut(s);
    var zs, us := SentBack(ts[2]);
    var vs, ws := TakenAgain(us[2]);
    ChainCat(ys, ts, zs, us);
    ChainCat(ys + zs, ts + us[1..], vs, ws);
    steps, states := ys + zs + vs, ts + us[1..] + ws[1..];
    assert states[6] == ws[2] && states[6].passes[1].due != [];
  }

  /** A send that fails in the final drain parks its record again and so starts a second drainer,
      which may be in a send of its own as the producer is dropped, and to the end: nothing was
      cancelled, every batch could be read, and after the whole of `aclose` the record is neither
      delivered nor counted. */
  lemma SecondDrainerKeeps(cfg: Config) returns (steps: seq<Step>, states: seq<State>)
    requires cfg.enabled && cfg.maxAttempts >= 2
    ensures Run(cfg, steps, states) && |steps| >= 3 && Closes(steps, states, |steps| - 2, |steps| - 1)
    ensures states[2].sending == [] && forall k :: 2 <= k < |steps| - 2 ==> Winding(steps[k])
    ensures forall step :: step in steps ==> Untroubled(step)
    ensures !Quiet(states[|steps| - 2])
    ensures var s := states[|steps|];
            s.emitted == 1 && s.buffer == s.delivered == s.leaked == [] && s.lost == 0 && !Quiet(s)
  {
    var xs, ss := FirstParked(cfg);
    var ys, ts := DrainedTwice(ss[2]);
    ChainCat(xs, ss, ys, ts);
    var s := Apply(ts[6], CloseReset);
    var rest, ends := [CloseReset, CloseFinish], [ts[6], s, Apply(s, CloseFinish)];
    assert Quiet(ends[2]) ==> Quiet(ts[6]);
    ChainCat(xs + ys, ss + ts[1..], rest, ends);
    steps, states := (xs + ys) + rest, (ss + ts[1..]) + ends[1..];
    forall k | 2 <= k < 8 ensures Winding(steps[k]) {
      assert steps[k] == ys[k - 2] && ys[k - 2] in ys;
    }
    assert states[8] == ts[6] && states[2] == ss[2];
  }

  /** Counting before the flush: the record the flush hands back is nowhere in the books. */
  lemma CountingFirstLoses(cfg: Config) returns (steps: seq<Step>, states: seq<State>)
    requires cfg.enabled && cfg.maxAttempts >= 1
    ensures Run(cfg, steps, states) && |steps| >= 2 && Quiet(states[|steps| - 2])
    ensures steps[|steps| - 2].CloseFinish? && Callback(steps[|steps| - 1])
    ensures var s := states[|steps|];
            s.buffer == [] && s.emitted == 1 && s.delivered == [] && s.lost == 0 && s.leaked == []
  {
    var xs, ss := FirstBuffered(cfg);
    var s := Apply(ss[2], CloseFinish);
    var failure := SendError([true], [Park(1.0)]);
    var t := HandBack(s, s.buffer[0], failure);
    ChainCat(xs, ss, [CloseFinish, failure], [ss[2], s, t]);
    steps, states := xs + [CloseFinish, failure], ss + [ss[2], s, t][1..];
    assert states[2] == ss[2] && states[4] == t;
  }
}
