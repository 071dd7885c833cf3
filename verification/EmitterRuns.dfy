/** The emitter's promises over whole runs. */
module EmitterRuns {
  import opened EmitterSpec
  import opened EmitterProofs
  import opened EmitterInvariants

  lemma {:induction false} InitConserved(cfg: Config)
    ensures Conserved(Init(cfg)) && Stamped(Init(cfg)) && Counted(Init(cfg))
  {
  }

  /** Every state of every run: each emitted record is in exactly one place; stamps equal failed
      hand-offs and respect the bound; `lost` counts records given up on, once each;
      `dropped_count` covers the losses and the stamps of all live records; recoveries never
      exceed retries. */
  lemma {:induction false} RunKeepsAccounts(cfg: Config, steps: seq<Step>, states: seq<State>, i: nat)
    requires Run(cfg, steps, states) && i < |states|
    ensures states[i].cfg == cfg
    ensures Conserved(states[i]) && Stamped(states[i]) && Counted(states[i])
  {
    if i == 0 {
      InitConserved(cfg);
    } else {
      RunKeepsAccounts(cfg, steps, states, i - 1);
      var s, step := states[i - 1], steps[i - 1];
      assert states[i - 1 + 1] == Apply(s, step);
      StepConserves(s, step);
      StepStamped(s, step);
      StepCounted(s, step);
      StepEmitted(s, step);
    }
  }

  // ---- what is dropped uncounted ----

  lemma StepLeaks(s: State, step: Step)
    requires Enabled(s, step)
    ensures Apply(s, step).leaked == s.leaked + Dropped(s, step)
  {
    if step.SendError? {
      var batch := Pick(s.buffer, step.mask);
      OnErrorEmitted(FailSend(Unbuffer(s, step.mask), Max(|batch|, 1)), batch, step.fates);
    }
  }

  /** A cancelled pass that still held something the SDK did not take, or a non-empty failed batch
      that cannot be iterated. */
  predicate Leaky(s: State, step: Step)
    requires Enabled(s, step)
  {
    || (step.CancelPass? && (!step.enqueued || |s.passes[step.p].due| > 1))
    || (step.SendErrorOpaque? && Pick(s.buffer, step.mask) != [])
  }

  /** With Event Hub enabled only such a step drops records uncounted. */
  lemma DropsOnlyWhen(s: State, step: Step)
    requires Enabled(s, step) && s.cfg.enabled && !s.link.disabled
    ensures Dropped(s, step) != [] <==> Leaky(s, step)
  {
  }

  lemma {:induction false} NeverDisabled(cfg: Config, steps: seq<Step>, states: seq<State>, i: nat)
    requires Run(cfg, steps, states) && i < |states| && cfg.enabled
    ensures states[i].cfg == cfg && !states[i].link.disabled
  {
    if i > 0 {
      NeverDisabled(cfg, steps, states, i - 1);
      var s, step := states[i - 1], steps[i - 1];
      assert states[i - 1 + 1] == Apply(s, step);
      StepEmitted(s, step);
      if step.SendError? {
        var batch := Pick(s.buffer, step.mask);
        OnErrorEmitted(FailSend(Unbuffer(s, step.mask), Max(|batch|, 1)), batch, step.fates);
      }
    }
  }

  /** Nothing has leaked by state `i` exactly when no step before it dropped anything. */
  lemma {:induction false} LeaksExactly(cfg: Config, steps: seq<Step>, states: seq<State>, i: nat)
    requires Run(cfg, steps, states) && i < |states|
    ensures states[i].leaked == [] <==> forall k :: 0 <= k < i ==> Dropped(states[k], steps[k]) == []
  {
    if i > 0 {
      LeaksExactly(cfg, steps, states, i - 1);
      StepLeaks(states[i - 1], steps[i - 1]);
      assert states[i - 1 + 1] == Apply(states[i - 1], steps[i - 1]);
    }
  }

  /** With Event Hub enabled, nothing has leaked in a run exactly when no pass was cancelled that
      still held something the SDK did not take, and no non-empty failed batch was unreadable. */
  lemma LeaksOnlyByThese(cfg: Config, steps: seq<Step>, states: seq<State>, i: nat)
    requires Run(cfg, steps, states) && i < |states| && cfg.enabled
    ensures states[i].leaked == [] <==> forall k :: 0 <= k < i ==> !Leaky(states[k], steps[k])
  {
    LeaksExactly(cfg, steps, states, i);
    forall k | 0 <= k < i ensures Dropped(states[k], steps[k]) == [] <==> !Leaky(states[k], steps[k]) {
      NeverDisabled(cfg, steps, states, k);
      DropsOnlyWhen(states[k], steps[k]);
    }
  }

  ghost predicate Idle(s: State) {
    s.sending == [] && s.buffer == [] && s.queue == [] && forall k :: 0 <= k < |s.passes| ==> s.passes[k].due == []
  }

  lemma {:induction false} HeldNothing(passes: seq<Pass>, w: Parcel -> int)
    requires forall k :: 0 <= k < |passes| ==> passes[k].due == []
    ensures HeldSum(passes, w) == 0
  {
    if passes != [] {
      HeldNothing(passes[1..], w);
    }
  }

  lemma {:induction false} BornLength(cfg: Config, steps: seq<Step>, states: seq<State>, i: nat)
    requires Run(cfg, steps, states) && i < |states|
    ensures Total(states[i], One()) == states[i].emitted
  {
    if i > 0 {
      BornLength(cfg, steps, states, i - 1);
      var s, step := states[i - 1], steps[i - 1];
      assert states[i - 1 + 1] == Apply(s, step);
      StepTotal(s, step, One());
      StepEmitted(s, step);
      SumLength(Born(s, step));
    }
  }

  /** Once nothing is on its way, the books balance: emitted = delivered + lost, plus whatever
      leaked; and with Event Hub enabled and no interrupted pass or unreadable batch, nothing did. */
  lemma BooksBalance(cfg: Config, steps: seq<Step>, states: seq<State>, i: nat)
    requires Run(cfg, steps, states) && i < |states| && Idle(states[i])
    ensures states[i].emitted == |states[i].delivered| + states[i].lost + |states[i].leaked|
    ensures cfg.enabled && (forall k :: 0 <= k < i ==> !steps[k].CancelPass? && !steps[k].SendErrorOpaque?) ==>
              states[i].emitted == |states[i].delivered| + states[i].lost
  {
    var s := states[i];
    RunKeepsAccounts(cfg, steps, states, i);
    BornLength(cfg, steps, states, i);
    HeldNothing(s.passes, One());
    SumLength(s.delivered);
    SumLength(s.gone);
    SumLength(s.leaked);
    if cfg.enabled {
      LeaksOnlyByThese(cfg, steps, states, i);
    }
  }

  // ---- how often records are handed over ----

  ghost function HandOvers(): Parcel -> int { (p: Parcel) => p.handed }

  lemma {:induction false} SumAtMost(ps: seq<Parcel>, b: nat)
    requires forall p :: p in ps ==> p.handed <= b
    ensures Sum(ps, HandOvers()) <= b * Sum(ps, One())
  {
    if ps != [] {
      assert ps[0] in ps;
      SumAtMost(ps[1..], b);
      assert b * Sum(ps, One()) == b + b * Sum(ps[1..], One());
    }
  }

  lemma {:induction false} HeldAtMost(cfg: Config, passes: seq<Pass>)
    requires forall k :: 0 <= k < |passes| ==> PassStamped(cfg, passes[k])
    ensures HeldSum(passes, HandOvers()) <= Bound(cfg) * HeldSum(passes, One())
  {
    if passes != [] {
      var due := passes[0].due;
      assert PassStamped(cfg, passes[0]);
      forall p | p in due ensures p.handed <= Bound(cfg) {
        var j :| 0 <= j < |due| && due[j] == p;
      }
      SumAtMost(due, Bound(cfg));
      HeldAtMost(cfg, passes[1..]);
      var a, b := Sum(due, One()), HeldSum(passes[1..], One());
      assert Bound(cfg) * (a + b) == Bound(cfg) * a + Bound(cfg) * b;
    }
  }

  /** All the hand-overs a run ever makes: at most `max_attempts + 1` for each record. */
  lemma HandOverBudget(cfg: Config, steps: seq<Step>, states: seq<State>, i: nat)
    requires Run(cfg, steps, states) && i < |states|
    ensures Total(states[i], HandOvers()) <= Bound(cfg) * states[i].emitted
  {
    var s, b := states[i], Bound(cfg);
    RunKeepsAccounts(cfg, steps, states, i);
    BornLength(cfg, steps, states, i);
    SumAtMost(s.sending, b);
    SumAtMost(s.queue, b);
    HeldAtMost(cfg, s.passes);
    SumAtMost(s.buffer, b);
    SumAtMost(s.delivered, b);
    SumAtMost(s.gone, b);
    SumAtMost(s.leaked, b);
    Distribute(b, Sum(s.sending, One()), Sum(s.queue, One()), HeldSum(s.passes, One()), Sum(s.buffer, One()),
               Sum(s.delivered, One()), Sum(s.gone, One()), Sum(s.leaked, One()));
  }

  lemma Distribute(k: nat, a: int, b: int, c: int, d: int, e: int, f: int, g: int)
    ensures k * (a + b + c + d + e + f + g) == k * a + k * b + k * c + k * d + k * e + k * f + k * g
  {
  }
}
