/** What a teardown and a deploy by themselves achieve, who else a step can take out of a pool,
    and what a ready account may rely on. */
module AccountsRuns {
  import opened Wrappers
  import opened AccountsSpec
  import opened AccountsProofs

  // ---- a teardown by itself ----

  /** A teardown task that has seen the pool as it is. */
  predicate UpToDate(s: State, a: Id)
    requires |s.pools| == PROVIDERS && a in s.tasks
  {
    match s.tasks[a]
    case PutKept(p, _, seen) => p < PROVIDERS ==> seen == s.pools[p].version
    case DetachPolicy(p, seen) => p < PROVIDERS ==> seen == s.pools[p].version
    case DeletePool(p, seen) => p < PROVIDERS ==> seen == s.pools[p].version && !s.pools[p].policy
    case t => !IsDeploy(t)
  }

  /** Nothing is left of `a`. */
  predicate Gone(s: State, a: Id)
    requires |s.pools| == PROVIDERS
  {
    a !in s.rows && a !in s.hubs && a !in s.tasks && OutOf(s.pools, a, PROVIDERS)
  }

  /** Every account but `a` is as it was. */
  ghost predicate OthersSame(s: State, t: State, a: Id)
    requires |s.pools| == |t.pools| == PROVIDERS
  {
    && t.rows - {a} == s.rows - {a} && t.hubs - {a} == s.hubs - {a} && t.tasks - {a} == s.tasks - {a}
    && forall p, b :: 0 <= p < PROVIDERS && b != a ==> In(t.pools[p], b) == In(s.pools[p], b)
  }

  /** What one step of a teardown by itself leaves. */
  ghost predicate WellAlone(s: State, t: State, a: Id)
    requires |s.pools| == |t.pools| == PROVIDERS && a in s.tasks
  {
    OthersSame(s, t, a) && if a in t.tasks then UpToDate(t, a) else s.tasks[a].EraseRow? && a !in t.rows
  }

  lemma ReadAlone(s: State, a: Id, p: nat)
    requires Inv(s) && a in s.tasks && s.tasks[a] == ReadToRemove(p)
    ensures WellAlone(s, TeardownStep(s, a, s.tasks[a], Fine), a)
  {
  }

  lemma PutAlone(s: State, a: Id, p: nat, kept: seq<Id>, seen: nat)
    requires Inv(s) && a in s.tasks && s.tasks[a] == PutKept(p, kept, seen) && UpToDate(s, a)
    ensures WellAlone(s, TeardownStep(s, a, s.tasks[a], Fine), a)
  {
    WithoutIs(s.pools[p].members.value, a);
    var t := TeardownStep(s, a, s.tasks[a], Fine);
    assert t == Goto(Write(s, p, Some(kept)), a, AfterRemoving(p));
  }

  lemma DetachAlone(s: State, a: Id, p: nat, seen: nat)
    requires Inv(s) && a in s.tasks && s.tasks[a] == DetachPolicy(p, seen) && UpToDate(s, a)
    ensures WellAlone(s, TeardownStep(s, a, s.tasks[a], Fine), a)
  {
    var t := TeardownStep(s, a, s.tasks[a], Fine);
    assert t == Goto(WithPolicy(s, p, false), a, DeletePool(p, seen));
  }

  lemma DeleteAlone(s: State, a: Id, p: nat, seen: nat)
    requires Inv(s) && a in s.tasks && s.tasks[a] == DeletePool(p, seen) && UpToDate(s, a)
    ensures WellAlone(s, TeardownStep(s, a, s.tasks[a], Fine), a)
  {
    var t := TeardownStep(s, a, s.tasks[a], Fine);
    assert t == Goto(if s.pools[p].members.None? then s else Write(s, p, None), a, AfterRemoving(p));
  }

  lemma EndAlone(s: State, a: Id)
    requires Inv(s) && a in s.tasks && (s.tasks[a].DestroyHub? || s.tasks[a].EraseRow?)
    ensures WellAlone(s, TeardownStep(s, a, s.tasks[a], Fine), a)
  {
  }

  lemma AdvanceAlone(s: State, a: Id)
    requires Inv(s) && a in s.tasks && UpToDate(s, a)
    ensures WellAlone(s, Apply(s, Advance(a, Fine, {})), a)
  {
    match s.tasks[a] {
      case ReadToRemove(p) => ReadAlone(s, a, p);
      case PutKept(p, kept, seen) => PutAlone(s, a, p, kept, seen);
      case DetachPolicy(p, seen) => DetachAlone(s, a, p, seen);
      case DeletePool(p, seen) => DeleteAlone(s, a, p, seen);
      case _ => EndAlone(s, a);
    }
  }

  lemma {:induction false} DriveCleans(s: State, a: Id)
    requires Inv(s) && a in s.tasks && UpToDate(s, a)
    ensures var t := Drive(s, a, [], {}); Inv(t) && Gone(t, a) && OthersSame(s, t, a)
    decreases Rank(s.tasks[a])
  {
    var t := Apply(s, Advance(a, Fine, {}));
    StepKeeps(s, Advance(a, Fine, {}));
    AdvanceAlone(s, a);
    TaskMovesOn(s, a, Fine, {});
    if a in t.tasks {
      DriveCleans(t, a);
    } else {
      assert Drive(s, a, [], {}) == t;
    }
  }

  /** From every reachable state, whatever failed before, one teardown without failures leaves
      nothing of the account behind and every other account as it was. */
  lemma OneTeardownCleans(steps: seq<Step>, a: Id)
    requires a in Run(START, steps).rows && a !in Run(START, steps).tasks
    ensures var s := Run(START, steps);
            var t := Drive(Apply(s, DeleteAccount(a)), a, [], {});
            Gone(t, a) && OthersSame(s, t, a)
  {
    RunKeeps(START, steps);
    var s := Run(START, steps);
    StepKeeps(s, DeleteAccount(a));
    DriveCleans(Apply(s, DeleteAccount(a)), a);
  }

  /** A pool is only asked to be deleted by a task whose last step took the policy off. */
  lemma DeletedOnlyDetached(s: State, step: Step, a: Id)
    requires Inv(s) && a in Apply(s, step).tasks && Apply(s, step).tasks[a].DeletePool?
    requires a in s.tasks ==> s.tasks[a] != Apply(s, step).tasks[a]
    ensures var p := Apply(s, step).tasks[a].p;
            && step.Advance? && step.id == a && a in s.tasks && s.tasks[a] == DetachPolicy(p, Apply(s, step).tasks[a].seen)
            && p < PROVIDERS && !Apply(s, step).pools[p].policy
  {
    if step.id != a {
      OthersRows(s, step, a);
    } else if step.Advance? && a in s.tasks {
      if IsDeploy(s.tasks[a]) {
        DeployDeletesNothing(s, a, step.fate, step.attach);
      } else {
        TeardownDeletesDetached(s, a, step.fate);
      }
    }
  }

  lemma DeployDeletesNothing(s: State, a: Id, fate: Fate, attach: set<nat>)
    requires |s.pools| == PROVIDERS && a in s.tasks && IsDeploy(s.tasks[a])
    ensures var t := DeployStep(s, a, s.tasks[a], fate, attach); a in t.tasks ==> !t.tasks[a].DeletePool?
  {
  }

  lemma TeardownDeletesDetached(s: State, a: Id, fate: Fate)
    requires |s.pools| == PROVIDERS && a in s.tasks && !IsDeploy(s.tasks[a])
    ensures var t := TeardownStep(s, a, s.tasks[a], fate);
            a in t.tasks && t.tasks[a].DeletePool? ==>
              && s.tasks[a] == DetachPolicy(t.tasks[a].p, t.tasks[a].seen)
              && t.tasks[a].p < PROVIDERS && |t.pools| == PROVIDERS && !t.pools[t.tasks[a].p].policy
  {
  }

  // ---- what a ready account may rely on ----

  /** A step that creates, over another account's head, a pool that was absent when it was read. */
  ghost predicate Clobbers(s: State, step: Step)
    requires |s.pools| == PROVIDERS
  {
    && step.Advance? && step.id in s.tasks && s.tasks[step.id].PutAdded?
    && s.tasks[step.id].etag.None? && TookEffect(step.fate)
    && s.tasks[step.id].p < PROVIDERS
    && exists b :: In(s.pools[s.tasks[step.id].p], b) && b != step.id
  }

  /** No step takes another account out of a pool, except exactly such a creation. */
  lemma OthersStayExactly(s: State, step: Step)
    requires Inv(s)
    ensures (exists p, b :: 0 <= p < PROVIDERS && b != step.id && In(s.pools[p], b) && !In(Apply(s, step).pools[p], b)) <==>
            Clobbers(s, step)
  {
    var t := Apply(s, step);
    if Clobbers(s, step) {
      var b :| In(s.pools[s.tasks[step.id].p], b) && b != step.id;
      assert !In(t.pools[s.tasks[step.id].p], b);
    } else {
      forall p, b | 0 <= p < PROVIDERS && b != step.id && In(s.pools[p], b) ensures In(t.pools[p], b) {
        OtherStays(s, step, p, b);
      }
    }
  }

  lemma OtherStays(s: State, step: Step, p: nat, b: Id)
    requires Inv(s) && !Clobbers(s, step) && p < PROVIDERS && b != step.id && In(s.pools[p], b)
    ensures In(Apply(s, step).pools[p], b)
  {
    if step.Advance? && step.id in s.tasks {
      match s.tasks[step.id] {
        case PutKept(q, kept, seen) => if q == p && seen == s.pools[p].version { WithoutIs(s.pools[p].members.value, step.id); }
        case _ =>
      }
    }
  }

  predicate InAll(s: State, a: Id, n: nat)
    requires n <= |s.pools|
  {
    forall p :: 0 <= p < n ==> In(s.pools[p], a)
  }

  /** How far a deploy has got into the pools. */
  predicate Joined(s: State, a: Id, t: Task)
    requires |s.pools| == PROVIDERS
  {
    match t
    case ReadToAdd(p) => p < PROVIDERS && InAll(s, a, p)
    case PutAdded(p, services, _) => p < PROVIDERS && InAll(s, a, p) && a in services
    case RegisterCatalog => InAll(s, a, PROVIDERS)
    case _ => true
  }

  ghost predicate Serving(s: State) {
    && |s.pools| == PROVIDERS
    && (forall a :: a in s.rows && s.rows[a] == Ready ==> a !in s.tasks && InAll(s, a, PROVIDERS))
    && (forall a :: a in s.tasks ==> Joined(s, a, s.tasks[a]))
  }

  /** The account is as a serving state wants it. */
  predicate Served(t: State, a: Id)
    requires |t.pools| == PROVIDERS
  {
    && (a in t.tasks ==> Joined(t, a, t.tasks[a]))
    && (a in t.rows && t.rows[a] == Ready ==> a !in t.tasks && InAll(t, a, PROVIDERS))
  }

  lemma OwnDeployServes(s: State, a: Id, fate: Fate, attach: set<nat>)
    requires |s.pools| == PROVIDERS && a in s.tasks && a in s.rows && s.rows[a] != Ready
    requires IsDeploy(s.tasks[a]) && Joined(s, a, s.tasks[a])
    ensures Served(DeployStep(s, a, s.tasks[a], fate, attach), a)
  {
    match s.tasks[a] {
      case ReadToAdd(p) =>
      case PutAdded(p, services, etag) => AddPutServes(s, a, p, services, etag, fate);
      case _ =>
    }
  }

  lemma AddPutServes(s: State, a: Id, p: nat, services: seq<Id>, etag: Option<nat>, fate: Fate)
    requires |s.pools| == PROVIDERS && a in s.rows && s.rows[a] != Ready
    requires p < PROVIDERS && InAll(s, a, p) && a in services
    ensures Served(AddPut(s, a, p, services, etag, fate), a)
  {
    var u := Write(s, p, Some(services));
    assert InAll(u, a, p + 1);
  }

  lemma OwnTeardownServes(s: State, a: Id, fate: Fate)
    requires |s.pools| == PROVIDERS && a in s.tasks && a in s.rows && s.rows[a] != Ready && !IsDeploy(s.tasks[a])
    ensures Served(TeardownStep(s, a, s.tasks[a], fate), a)
  {
  }

  lemma OwnStepServes(s: State, a: Id, fate: Fate, attach: set<nat>)
    requires Inv(s) && Serving(s) && a in s.tasks
    ensures Served(Apply(s, Advance(a, fate, attach)), a)
  {
    if IsDeploy(s.tasks[a]) { OwnDeployServes(s, a, fate, attach); } else { OwnTeardownServes(s, a, fate); }
  }

  predicate SameFor(s: State, t: State, b: Id) {
    && (b in t.rows <==> b in s.rows) && (b in s.rows ==> t.rows[b] == s.rows[b])
    && (b in t.tasks <==> b in s.tasks) && (b in s.tasks ==> t.tasks[b] == s.tasks[b])
  }

  lemma DeployRows(s: State, a: Id, fate: Fate, attach: set<nat>, b: Id)
    requires |s.pools| == PROVIDERS && a in s.tasks && b != a
    ensures SameFor(s, DeployStep(s, a, s.tasks[a], fate, attach), b)
  {
  }

  lemma TeardownRows(s: State, a: Id, fate: Fate, b: Id)
    requires |s.pools| == PROVIDERS && a in s.tasks && b != a
    ensures SameFor(s, TeardownStep(s, a, s.tasks[a], fate), b)
  {
  }

  lemma OthersRows(s: State, step: Step, b: Id)
    requires |s.pools| == PROVIDERS && b != step.id
    ensures SameFor(s, Apply(s, step), b)
  {
    if step.Advance? && step.id in s.tasks {
      DeployRows(s, step.id, step.fate, step.attach, b);
      TeardownRows(s, step.id, step.fate, b);
    }
  }

  lemma OtherServes(s: State, step: Step, b: Id, n: nat)
    requires Inv(s) && !Clobbers(s, step) && b != step.id && n <= PROVIDERS && InAll(s, b, n)
    ensures InAll(Apply(s, step), b, n)
  {
    forall p | 0 <= p < n ensures In(Apply(s, step).pools[p], b) {
      OtherStays(s, step, p, b);
    }
  }

  lemma StepServes(s: State, step: Step)
    requires Inv(s) && Serving(s) && !Clobbers(s, step)
    ensures Serving(Apply(s, step))
  {
    var t := Apply(s, step);
    if step.Advance? && step.id in s.tasks {
      OwnStepServes(s, step.id, step.fate, step.attach);
    }
    forall b | b in t.tasks ensures Joined(t, b, t.tasks[b]) {
      if b != step.id {
        OthersRows(s, step, b);
        match s.tasks[b] {
          case ReadToAdd(p) => OtherServes(s, step, b, p);
          case PutAdded(p, _, _) => OtherServes(s, step, b, p);
          case RegisterCatalog => OtherServes(s, step, b, PROVIDERS);
          case _ =>
        }
      }
    }
    forall b | b in t.rows && t.rows[b] == Ready ensures b !in t.tasks && InAll(t, b, PROVIDERS) {
      if b != step.id {
        OthersRows(s, step, b);
        OtherServes(s, step, b, PROVIDERS);
      }
    }
  }

  ghost predicate NoClobber(s: State, steps: seq<Step>)
    requires |s.pools| == PROVIDERS
    decreases |steps|
  {
    steps == [] || (!Clobbers(s, steps[0]) && (PoolsStay(s, steps[0]); NoClobber(Apply(s, steps[0]), steps[1..])))
  }

  lemma {:induction false} RunServes(s: State, steps: seq<Step>)
    requires Inv(s) && Serving(s) && NoClobber(s, steps)
    ensures Serving(Run(s, steps))
    decreases |steps|
  {
    if steps != [] {
      StepKeeps(s, steps[0]);
      StepServes(s, steps[0]);
      RunServes(Apply(s, steps[0]), steps[1..]);
    }
  }

  /** In every run in which no two accounts create the same pool at once, a ready account is a
      member of every provider's pool, and its hub is up. */
  lemma ReadyAccountsServe(steps: seq<Step>, a: Id)
    requires NoClobber(START, steps)
    requires a in Run(START, steps).rows && Run(START, steps).rows[a] == Ready
    ensures var s := Run(START, steps); InAll(s, a, PROVIDERS) && a in s.hubs
  {
    RunServes(START, steps);
    RunKeeps(START, steps);
    var s := Run(START, steps);
    assert In(s.pools[0], a);
  }

  // ---- a deploy by itself ----

  /** A deploy task that has seen the pool as it is. */
  predicate SawPool(s: State, a: Id)
    requires |s.pools| == PROVIDERS && a in s.tasks
  {
    match s.tasks[a]
    case PutAdded(p, _, etag) =>
      p < PROVIDERS ==> (if etag.Some? then etag.value == s.pools[p].version else s.pools[p].members.None?)
    case t => IsDeploy(t)
  }

  /** The account serves: ready, its hub up, in every pool, the given policies in place. */
  predicate Up(s: State, a: Id, attach: set<nat>)
    requires |s.pools| == PROVIDERS
  {
    && a in s.rows && s.rows[a] == Ready && a in s.hubs && a !in s.tasks && InAll(s, a, PROVIDERS)
    && forall p :: 0 <= p < PROVIDERS && p in attach ==> s.pools[p].policy
  }

  lemma DeployAlone(s: State, a: Id, attach: set<nat>)
    requires Inv(s) && a in s.tasks && SawPool(s, a) && Joined(s, a, s.tasks[a])
    ensures var t := Apply(s, Advance(a, Fine, attach));
            && OthersSame(s, t, a)
            && if a in t.tasks then SawPool(t, a) && Joined(t, a, t.tasks[a]) else Up(t, a, attach)
  {
    match s.tasks[a] {
      case PutAdded(p, services, etag) =>
        var u := Write(s, p, Some(services));
        assert Apply(s, Advance(a, Fine, attach)) == Goto(u, a, AfterAdding(p));
        assert InAll(u, a, p + 1);
      case _ =>
    }
  }

  lemma {:induction false} DriveJoins(s: State, a: Id, attach: set<nat>)
    requires Inv(s) && a in s.tasks && SawPool(s, a) && Joined(s, a, s.tasks[a])
    ensures var t := Drive(s, a, [], attach); Inv(t) && Up(t, a, attach) && OthersSame(s, t, a)
    decreases Rank(s.tasks[a])
  {
    var t := Apply(s, Advance(a, Fine, attach));
    StepKeeps(s, Advance(a, Fine, attach));
    DeployAlone(s, a, attach);
    TaskMovesOn(s, a, Fine, attach);
    if a in t.tasks {
      DriveJoins(t, a, attach);
    } else {
      assert Drive(s, a, [], attach) == t;
    }
  }

  /** From every reachable state one deploy without failures makes a pending account serve, and
      leaves every other account as it was. */
  lemma OneDeployServes(steps: seq<Step>, a: Id, attach: set<nat>)
    requires a in Run(START, steps).rows && Run(START, steps).rows[a] == Pending && a !in Run(START, steps).tasks
    ensures var s := Run(START, steps);
            var t := Drive(Apply(s, Authorize(a)), a, [], attach);
            Inv(t) && Up(t, a, attach) && OthersSame(s, t, a)
  {
    RunKeeps(START, steps);
    var s := Run(START, steps);
    StepKeeps(s, Authorize(a));
    DriveJoins(Apply(s, Authorize(a)), a, attach);
  }

  /** A deploy followed by a teardown is as if the account had never been, for everyone else. */
  lemma TeardownUndoesDeploy(steps: seq<Step>, a: Id, attach: set<nat>)
    requires a in Run(START, steps).rows && Run(START, steps).rows[a] == Pending && a !in Run(START, steps).tasks
    ensures var s := Run(START, steps);
            var up := Drive(Apply(s, Authorize(a)), a, [], attach);
            var t := Drive(Apply(up, DeleteAccount(a)), a, [], {});
            Gone(t, a) && OthersSame(s, t, a)
  {
    OneDeployServes(steps, a, attach);
    var up := Drive(Apply(Run(START, steps), Authorize(a)), a, [], attach);
    StepKeeps(up, DeleteAccount(a));
    DriveCleans(Apply(up, DeleteAccount(a)), a);
  }
}
