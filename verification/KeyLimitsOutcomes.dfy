/** What the answer a call gets is worth: what it asked for is so in the stored map when it ends. */
module KeyLimitsOutcomes {
  import opened KeyLimits
  import opened KeyLimitsCas

  /** A call has nothing to do exactly when it does not set limits and would change nothing. */
  lemma NothingExactly(m: Limits, op: Op)
    ensures NothingToDo(m, op) <==> !op.SetLimits? && Changed(m, op) == m
  {
  }

  /** What waits to be written has in force what it was made for. */
  ghost predicate WillBeInForce(s: State) {
    forall c :: c in s.clients && s.clients[c].Writing? ==> InForce(s.clients[c].merged, s.clients[c].op)
  }

  /** A call that has come to its end and says that it was written, or that there was nothing to do. */
  predicate Done(s: State, c: int) {
    c in s.clients && s.clients[c].Ended? && (s.clients[c].outcome == Written || s.clients[c].outcome == Nothing)
  }

  /** At its end what it asked for is in force, and one with nothing to do found it so already. */
  ghost predicate EndsRight(s: State, t: State, c: int)
    requires Done(t, c)
  {
    var x := t.clients[c];
    && InForce(t.value, x.op)
    && (x.outcome == Nothing ==> t.value == s.value && t.log == s.log && Changed(s.value, x.op) == s.value && !x.op.SetLimits?)
  }

  lemma MergeInForce(m: Limits, op: Op)
    requires Merge(m, op).Ok?
    ensures InForce(Merge(m, op).value, op)
  {
    ChangeIsInForce(m, op);
  }

  lemma StepWillBeInForce(s: State, step: Step)
    requires WillBeInForce(s)
    ensures WillBeInForce(Apply(s, step))
  {
    var c := step.client;
    StepMaps(s, step);
    if c in s.clients { StepKeepsOp(s, step, c); }
    if c in s.clients && Merge(s.value, s.clients[c].op).Ok? {
      MergeInForce(s.value, s.clients[c].op);
    }
  }

  /** A step concerns its own client, and not one that has ended. */
  lemma StepElsewhere(s: State, step: Step, c: int)
    requires c in s.clients && (c != step.client || s.clients[c].Ended?)
    ensures c in Apply(s, step).clients && Apply(s, step).clients[c] == s.clients[c]
  {
  }

  lemma StepKeepsOp(s: State, step: Step, c: int)
    requires c in s.clients
    ensures c in Apply(s, step).clients && Apply(s, step).clients[c].op == s.clients[c].op
  {
    if c != step.client || s.clients[c].Ended? {
      StepElsewhere(s, step, c);
    } else if step.Read? && s.clients[c].Reading? {
      MergedIs(s, c, s.clients[c], step.tagged);
    }
  }

  /** How a call comes to one of these ends: its write is made, or it reads a map on which there is
      nothing to do, or it has no keys. */
  lemma HowItEnds(s: State, step: Step, c: int)
    requires Done(Apply(s, step), c) && !Done(s, c)
    ensures var t := Apply(s, step);
            var x := t.clients[c];
            || (x.outcome == Written && c in s.clients && s.clients[c].Writing? && s.clients[c].op == x.op
                && t.value == s.clients[c].merged)
            || (x.outcome == Nothing && t.value == s.value && t.log == s.log && NothingToDo(s.value, x.op))
  {
    if c in s.clients {
      if c != step.client || s.clients[c].Ended? {
        StepElsewhere(s, step, c);
      } else if s.clients[c].Reading? {
        ReadingEnds(s, step, c);
      } else {
        WritingEnds(s, step, c);
      }
    } else {
      CallEnds(s, step, c);
    }
  }

  lemma CallEnds(s: State, step: Step, c: int)
    requires c !in s.clients && Done(Apply(s, step), c)
    ensures var (t, x) := (Apply(s, step), Apply(s, step).clients[c]);
            x.outcome == Nothing && t.value == s.value && t.log == s.log && NothingToDo(s.value, x.op)
  {
  }

  lemma ReadingEnds(s: State, step: Step, c: int)
    requires c == step.client && c in s.clients && s.clients[c].Reading? && Done(Apply(s, step), c)
    ensures var (t, x) := (Apply(s, step), Apply(s, step).clients[c]);
            x.outcome == Nothing && t.value == s.value && t.log == s.log && NothingToDo(s.value, x.op)
  {
    if step.Read? {
      MergedIs(s, c, s.clients[c], step.tagged);
    }
  }

  lemma WritingEnds(s: State, step: Step, c: int)
    requires c == step.client && c in s.clients && s.clients[c].Writing? && Done(Apply(s, step), c)
    ensures var (t, x) := (Apply(s, step), Apply(s, step).clients[c]);
            x.outcome == Written && s.clients[c].op == x.op && t.value == s.clients[c].merged
  {
  }

  lemma StepEndsRight(s: State, step: Step, c: int)
    requires WillBeInForce(s) && Done(Apply(s, step), c) && !Done(s, c)
    ensures EndsRight(s, Apply(s, step), c)
  {
    var t := Apply(s, step);
    HowItEnds(s, step, c);
    if t.clients[c].outcome == Nothing {
      NothingExactly(s.value, t.clients[c].op);
      ChangeIsInForce(s.value, t.clients[c].op);
    }
  }

  /** The stored map changes only with a commit. */
  lemma ValueChangesWithLog(s: State, step: Step)
    ensures var t := Apply(s, step);
            (t.log == s.log && t.value == s.value) || |t.log| == |s.log| + 1
  {
  }

  /** The call ended at the `n`-th step, as it should, and if no write has been made since then what
      it asked for is still in force. */
  ghost predicate EndedRightAt(m: Limits, steps: seq<Step>, c: int, n: nat)
    requires Done(Run(Start(m), steps), c) && 0 < n <= |steps|
  {
    var (before, after, s) := (Run(Start(m), steps[..n - 1]), Run(Start(m), steps[..n]), Run(Start(m), steps));
    && Done(after, c) && after.clients[c] == s.clients[c] && EndsRight(before, after, c)
    && |after.log| <= |s.log| && (|after.log| == |s.log| ==> s.value == after.value)
  }

  lemma RunSnoc(s: State, steps: seq<Step>, step: Step)
    ensures Run(s, steps + [step]) == Apply(Run(s, steps), step)
  {
    RunCat(s, steps, [step]);
    assert [step][1..] == [];
  }

  lemma {:induction false} RunWillBeInForce(s: State, steps: seq<Step>)
    requires WillBeInForce(s)
    ensures WillBeInForce(Run(s, steps))
    decreases |steps|
  {
    if steps != [] {
      StepWillBeInForce(s, steps[0]);
      RunWillBeInForce(Apply(s, steps[0]), steps[1..]);
    }
  }

  lemma EndedRightLater(m: Limits, front: seq<Step>, step: Step, c: int, n: nat)
    requires Done(Run(Start(m), front), c) && 0 < n <= |front| && EndedRightAt(m, front, c, n)
    ensures Done(Run(Start(m), front + [step]), c) && EndedRightAt(m, front + [step], c, n)
  {
    var steps := front + [step];
    assert steps[..n - 1] == front[..n - 1] && steps[..n] == front[..n];
    RunSnoc(Start(m), front, step);
    StepElsewhere(Run(Start(m), front), step, c);
    ValueChangesWithLog(Run(Start(m), front), step);
  }

  /** In every run, with or without etags: a call that says it was written, or that there was nothing
      to do, has what it asked for in force as it ends, and from then on until somebody writes; one
      with nothing to do set no limits and found a stored map that its change leaves as it is. */
  lemma {:induction false} AnswersAreTrue(m: Limits, steps: seq<Step>, c: int) returns (n: nat)
    requires Done(Run(Start(m), steps), c)
    ensures 0 < n <= |steps| && EndedRightAt(m, steps, c, n)
    decreases |steps|
  {
    assert steps != [];
    var (front, last) := (steps[..|steps| - 1], steps[|steps| - 1]);
    assert steps == front + [last];
    RunSnoc(Start(m), front, last);
    var s := Run(Start(m), front);
    RunWillBeInForce(Start(m), front);
    if Done(s, c) {
      n := AnswersAreTrue(m, front, c);
      EndedRightLater(m, front, last, c, n);
    } else {
      StepEndsRight(s, last, c);
      n := |steps|;
      assert steps[..n] == steps && steps[..n - 1] == front;
    }
  }
}
