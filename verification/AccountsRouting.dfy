/** Which pools traffic is routed to: the policy of each pool over whole runs, and what takes it
    away from accounts that are ready. */
module AccountsRouting {
  import opened Wrappers
  import opened AccountsSpec
  import opened AccountsProofs
  import opened AccountsRuns

  // ---- the history of a policy ----

  /** What bears on a pool's policy: it is registered, it is taken off, or the pool is deleted. */
  datatype Event = Registered | Detached | Deleted

  /** The task that the step advances, or none. */
  function TaskOf(s: State, step: Step): Option<Task> {
    if step.Advance? && step.id in s.tasks then Some(s.tasks[step.id]) else None
  }

  predicate Registers(s: State, step: Step, p: nat) {
    || (step.ResyncCatalog? && step.id in s.rows && p in step.attach)
    || (TaskOf(s, step) == Some(RegisterCatalog) && p in step.attach)
  }

  predicate Detaches(s: State, step: Step, p: nat) {
    && TaskOf(s, step).Some? && TaskOf(s, step).value.DetachPolicy? && TaskOf(s, step).value.p == p
    && TookEffect(step.fate)
  }

  predicate Deletes(s: State, step: Step, p: nat)
    requires p < |s.pools|
  {
    && TaskOf(s, step).Some? && TaskOf(s, step).value.DeletePool? && TaskOf(s, step).value.p == p
    && s.pools[p].members.Some? && !s.pools[p].policy && TaskOf(s, step).value.seen == s.pools[p].version
    && TookEffect(step.fate)
  }

  function EventOf(s: State, step: Step, p: nat): Option<Event>
    requires p < |s.pools|
  {
    if Registers(s, step, p) then Some(Registered)
    else if Detaches(s, step, p) then Some(Detached)
    else if Deletes(s, step, p) then Some(Deleted)
    else None
  }

  /** What a step does to the policy of pool `p`, and that it goes out of being only by deletion. */
  lemma PolicyStep(s: State, step: Step, p: nat)
    requires |s.pools| == PROVIDERS && p < PROVIDERS
    ensures |Apply(s, step).pools| == PROVIDERS
    ensures Apply(s, step).pools[p].policy ==
            match EventOf(s, step, p) {
              case Some(Registered) => true
              case Some(_) => false
              case None => s.pools[p].policy
            }
    ensures s.pools[p].members.Some? ==> (Apply(s, step).pools[p].members.None? <==> EventOf(s, step, p) == Some(Deleted))
  {
    if TaskOf(s, step).Some? {
      if IsDeploy(s.tasks[step.id]) {
        DeployPolicy(s, step.id, step.fate, step.attach, p);
      } else {
        TeardownPolicy(s, step.id, step.fate, p);
      }
    }
  }

  lemma DeployPolicy(s: State, a: Id, fate: Fate, attach: set<nat>, p: nat)
    requires |s.pools| == PROVIDERS && p < PROVIDERS && a in s.tasks && IsDeploy(s.tasks[a])
    ensures var t := DeployStep(s, a, s.tasks[a], fate, attach);
            && |t.pools| == PROVIDERS
            && t.pools[p].policy == (s.pools[p].policy || (s.tasks[a].RegisterCatalog? && p in attach))
            && (s.pools[p].members.Some? ==> t.pools[p].members.Some?)
  {
  }

  lemma TeardownPolicy(s: State, a: Id, fate: Fate, p: nat)
    requires |s.pools| == PROVIDERS && p < PROVIDERS && a in s.tasks && !IsDeploy(s.tasks[a])
    ensures var (t, task) := (TeardownStep(s, a, s.tasks[a], fate), s.tasks[a]);
            && |t.pools| == PROVIDERS
            && t.pools[p].policy == (s.pools[p].policy && !(task.DetachPolicy? && task.p == p && TookEffect(fate)))
            && (s.pools[p].members.Some? ==>
                  (t.pools[p].members.None? <==>
                     task.DeletePool? && task.p == p && !s.pools[p].policy && task.seen == s.pools[p].version && TookEffect(fate)))
  {
  }

  /** The last event of a run that bears on pool `p`. */
  function LastEvent(s: State, steps: seq<Step>, p: nat): Option<Event>
    requires |s.pools| == PROVIDERS && p < PROVIDERS
    decreases |steps|
  {
    if steps == [] then None
    else
      PoolsStay(s, steps[0]);
      var later := LastEvent(Apply(s, steps[0]), steps[1..], p);
      if later.Some? then later else EventOf(s, steps[0], p)
  }

  lemma {:induction false} PolicyFollows(s: State, steps: seq<Step>, p: nat)
    requires |s.pools| == PROVIDERS && p < PROVIDERS
    ensures Run(s, steps).pools[p].policy ==
            match LastEvent(s, steps, p) {
              case Some(Registered) => true
              case Some(_) => false
              case None => s.pools[p].policy
            }
    decreases |steps|
  {
    if steps != [] {
      PolicyStep(s, steps[0], p);
      PolicyFollows(Apply(s, steps[0]), steps[1..], p);
    }
  }

  /** Since pool `p` was last created, or since the start, nothing was registered for it. */
  predicate NeverRegistered(last: Option<Event>) { last.None? || last == Some(Deleted) }

  /** In every run, a pool that has members lacks its policy exactly when a detach took effect on
      it, its delete did not, and no registration followed, or nothing has been registered for it
      since it was created. */
  lemma PolicyHistory(steps: seq<Step>, p: nat)
    requires p < PROVIDERS && Run(START, steps).pools[p].members.Some?
    ensures !Run(START, steps).pools[p].policy <==>
            LastEvent(START, steps, p) == Some(Detached) || NeverRegistered(LastEvent(START, steps, p))
  {
    PolicyFollows(START, steps, p);
  }

  // ---- what a ready account may rely on ----

  predicate IsReady(s: State, a: Id) { a in s.rows && s.rows[a] == Ready }

  /** Every pool that lists a ready account has its policy. */
  ghost predicate Routed(s: State) {
    forall p, a :: 0 <= p < |s.pools| && IsReady(s, a) && In(s.pools[p], a) ==> s.pools[p].policy
  }

  /** An account with a task is not ready. */
  ghost predicate Busy(s: State) { forall a :: a in s.tasks ==> a in s.rows && s.rows[a] != Ready }

  /** A step that takes the policy of some pool off with a ready member in it, or makes an account
      ready without the policy of a pool that it is in. */
  ghost predicate Unroutes(s: State, step: Step)
    requires |s.pools| == PROVIDERS
  {
    || (exists p, b :: 0 <= p < PROVIDERS && Detaches(s, step, p) && IsReady(s, b) && In(s.pools[p], b))
    || (TaskOf(s, step) == Some(RegisterCatalog) && step.fate.Fine? &&
        exists p :: 0 <= p < PROVIDERS && In(s.pools[p], step.id) && p !in step.attach && !s.pools[p].policy)
  }

  lemma BusyStays(s: State, step: Step)
    requires Inv(s) && Busy(s)
    ensures Busy(Apply(s, step))
  {
    var t := Apply(s, step);
    forall b | b in t.tasks ensures b in t.rows && t.rows[b] != Ready {
      if b != step.id {
        OthersRows(s, step, b);
      } else if TaskOf(s, step).Some? {
        if IsDeploy(s.tasks[b]) {
          BusyDeploy(s, b, step.fate, step.attach);
        } else {
          BusyTeardown(s, b, step.fate);
        }
      }
    }
  }

  lemma BusyDeploy(s: State, a: Id, fate: Fate, attach: set<nat>)
    requires |s.pools| == PROVIDERS && a in s.tasks && IsDeploy(s.tasks[a]) && a in s.rows && s.rows[a] != Ready
    ensures var t := DeployStep(s, a, s.tasks[a], fate, attach);
            && (a in t.tasks ==> a in t.rows && t.rows[a] != Ready)
            && (IsReady(t, a) <==> s.tasks[a].RegisterCatalog? && fate.Fine?)
  {
  }

  lemma BusyTeardown(s: State, a: Id, fate: Fate)
    requires |s.pools| == PROVIDERS && a in s.tasks && !IsDeploy(s.tasks[a]) && a in s.rows && s.rows[a] != Ready
    ensures var t := TeardownStep(s, a, s.tasks[a], fate);
            (a in t.tasks ==> a in t.rows && t.rows[a] != Ready) && !IsReady(t, a)
  {
  }

  /** Who is ready after a step, and was not: an account whose registration was its last step. */
  lemma NewlyReady(s: State, step: Step, a: Id)
    requires Inv(s) && Busy(s)
    ensures IsReady(Apply(s, step), a) && !IsReady(s, a) ==>
              a == step.id && TaskOf(s, step) == Some(RegisterCatalog) && step.fate.Fine?
    ensures IsReady(s, a) && (step.id != a || TaskOf(s, step).Some?) ==> IsReady(Apply(s, step), a)
  {
    if a != step.id {
      OthersRows(s, step, a);
    } else if TaskOf(s, step).Some? {
      if IsDeploy(s.tasks[a]) { BusyDeploy(s, a, step.fate, step.attach); } else { BusyTeardown(s, a, step.fate); }
    }
  }

  /** A step puts nobody but its own account into a pool. */
  lemma NobodyElseJoins(s: State, step: Step, p: nat, b: Id)
    requires Inv(s) && p < PROVIDERS && (b != step.id || TaskOf(s, step) == Some(RegisterCatalog) || TaskOf(s, step).None?)
    ensures In(Apply(s, step).pools[p], b) ==> In(s.pools[p], b)
  {
    if TaskOf(s, step).Some? {
      match s.tasks[step.id] {
        case PutKept(q, kept, seen) => if q == p && seen == s.pools[p].version { WithoutIs(s.pools[p].members.value, step.id); }
        case _ =>
      }
    }
  }

  lemma RegistrationKeepsMembers(s: State, step: Step, p: nat)
    requires |s.pools| == PROVIDERS && p < PROVIDERS && (Detaches(s, step, p) || TaskOf(s, step) == Some(RegisterCatalog))
    ensures Apply(s, step).pools[p].members == s.pools[p].members
  {
  }

  lemma UnroutingShows(s: State, step: Step)
    requires Inv(s) && Busy(s) && Unroutes(s, step)
    ensures !Routed(Apply(s, step))
  {
    var t := Apply(s, step);
    if p, b :| 0 <= p < PROVIDERS && Detaches(s, step, p) && IsReady(s, b) && In(s.pools[p], b) {
      PolicyStep(s, step, p);
      RegistrationKeepsMembers(s, step, p);
      NewlyReady(s, step, b);
      assert IsReady(t, b) && In(t.pools[p], b) && !t.pools[p].policy;
    } else {
      var p :| 0 <= p < PROVIDERS && In(s.pools[p], step.id) && p !in step.attach && !s.pools[p].policy;
      PolicyStep(s, step, p);
      RegistrationKeepsMembers(s, step, p);
      BusyDeploy(s, step.id, step.fate, step.attach);
      assert IsReady(t, step.id) && In(t.pools[p], step.id) && !t.pools[p].policy;
    }
  }

  lemma RoutingStays(s: State, step: Step, p: nat, b: Id)
    requires Inv(s) && Busy(s) && Routed(s) && !Unroutes(s, step) && p < PROVIDERS
    requires IsReady(Apply(s, step), b) && In(Apply(s, step).pools[p], b)
    ensures Apply(s, step).pools[p].policy
  {
    PolicyStep(s, step, p);
    NewlyReady(s, step, b);
    if IsReady(s, b) {
      assert b != step.id || TaskOf(s, step).None?;
      NobodyElseJoins(s, step, p, b);
      assert s.pools[p].policy && EventOf(s, step, p) != Some(Deleted);
    } else {
      NobodyElseJoins(s, step, p, b);
      assert In(s.pools[p], step.id);
    }
  }

  /** One step keeps every ready account routed, in every pool it is in, if and only if it is not
      one of those two. */
  lemma RoutedExactly(s: State, step: Step)
    requires Inv(s) && Busy(s) && Routed(s)
    ensures Routed(Apply(s, step)) <==> !Unroutes(s, step)
  {
    PoolsStay(s, step);
    if Unroutes(s, step) {
      UnroutingShows(s, step);
    } else {
      var t := Apply(s, step);
      forall p, b | 0 <= p < PROVIDERS && IsReady(t, b) && In(t.pools[p], b) ensures t.pools[p].policy {
        RoutingStays(s, step, p, b);
      }
    }
  }

  /** A policy is only taken off under a ready account by a task whose ETag no longer stands. */
  lemma OnlyStaleDetachUnroutes(s: State, step: Step, p: nat, b: Id)
    requires Inv(s) && Busy(s) && p < PROVIDERS && Detaches(s, step, p) && IsReady(s, b) && In(s.pools[p], b)
    ensures s.tasks[step.id].seen < s.pools[p].version
  {
    assert TaskOk(s.pools, s.hubs, step.id, s.tasks[step.id]);
    assert b != step.id;
  }

  ghost predicate KeepsRouted(s: State, steps: seq<Step>)
    requires |s.pools| == PROVIDERS
    decreases |steps|
  {
    steps == [] || (!Unroutes(s, steps[0]) && (PoolsStay(s, steps[0]); KeepsRouted(Apply(s, steps[0]), steps[1..])))
  }

  lemma {:induction false} RunStaysRouted(s: State, steps: seq<Step>)
    requires Inv(s) && Busy(s) && Routed(s) && KeepsRouted(s, steps)
    ensures Busy(Run(s, steps)) && Routed(Run(s, steps))
    decreases |steps|
  {
    if steps != [] {
      StepKeeps(s, steps[0]);
      BusyStays(s, steps[0]);
      RoutedExactly(s, steps[0]);
      RunStaysRouted(Apply(s, steps[0]), steps[1..]);
    }
  }

  /** In every run in which no two accounts create the same pool at once and no step is one of
      those, traffic is routed to every ready account: its hub is up, and it is in every
      provider's pool, each with its policy. */
  lemma ReadyAccountsAreRouted(steps: seq<Step>, a: Id)
    requires NoClobber(START, steps) && KeepsRouted(START, steps)
    requires IsReady(Run(START, steps), a)
    ensures var s := Run(START, steps);
            && InAll(s, a, PROVIDERS) && a in s.hubs
            && forall p :: 0 <= p < PROVIDERS ==> s.pools[p].policy
  {
    ReadyAccountsServe(steps, a);
    RunStaysRouted(START, steps);
  }
}
