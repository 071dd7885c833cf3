/** Two races, from the start of a run to their lasting end: a member dropped from a pool, and a
    pool left without its policy under a ready account. */
module AccountsRaces {
  import opened Wrappers
  import opened AccountsSpec
  import opened AccountsProofs
  import opened AccountsRuns
  import opened AccountsRouting

  /** A state that some run reaches. */
  ghost predicate Reachable(s: State) { exists steps :: s == Run(START, steps) }

  lemma ReachableStart()
    ensures Reachable(START)
  {
    assert START == Run(START, []);
  }

  lemma {:induction false} RunSnoc(s: State, steps: seq<Step>, step: Step)
    requires |s.pools| == PROVIDERS
    ensures Run(s, steps + [step]) == Apply(Run(s, steps), step)
    decreases |steps|
  {
    if steps == [] {
      assert [] + [step] == [step] && [step][1..] == [];
      PoolsStay(s, step);
    } else {
      assert (steps + [step])[1..] == steps[1..] + [step];
      PoolsStay(s, steps[0]);
      RunSnoc(Apply(s, steps[0]), steps[1..], step);
    }
  }

  lemma ReachableStep(s: State, step: Step)
    requires Reachable(s)
    ensures |s.pools| == PROVIDERS && Inv(s) && Reachable(Apply(s, step))
  {
    var steps :| s == Run(START, steps);
    RunKeeps(START, steps);
    RunSnoc(START, steps, step);
    assert Apply(s, step) == Run(START, steps + [step]);
  }

  lemma {:induction false} ReachableDrive(s: State, a: Id, fates: seq<Fate>, attach: set<nat>)
    requires Reachable(s)
    ensures |s.pools| == PROVIDERS && Reachable(Drive(s, a, fates, attach))
    decreases if a in s.tasks then Rank(s.tasks[a]) + 1 else 0
  {
    ReachableStep(s, Advance(a, Head(fates), attach));
    if a in s.tasks {
      DriveStep(s, a, fates, attach);
      TaskMovesOn(s, a, Head(fates), attach);
      ReachableDrive(Apply(s, Advance(a, Head(fates), attach)), a, Tail(fates), attach);
    }
  }

  const ALL := {0, 1, 2}

  /** An account registered and authorized, its deploy about to begin. */
  lemma Begin(s: State, a: Id) returns (t: State)
    requires Reachable(s) && a !in s.rows
    ensures |s.pools| == PROVIDERS && |t.pools| == PROVIDERS && Reachable(t)
    ensures t == s.(rows := s.rows[a := Deploying], tasks := s.tasks[a := DeployHub])
    ensures a !in s.tasks && a !in s.hubs
  {
    ReachableStep(s, StartAccount(a));
    var s1 := Apply(s, StartAccount(a));
    ReachableStep(s1, Authorize(a));
    t := Apply(s1, Authorize(a));
    ReachableStep(t, StartAccount(a));
    assert s1.rows[a := Deploying] == s.rows[a := Deploying];
  }

  /** An account deployed without failures. */
  lemma Deploy(s: State, a: Id) returns (t: State)
    requires Reachable(s) && a !in s.rows
    ensures |s.pools| == PROVIDERS && |t.pools| == PROVIDERS && Reachable(t) && Inv(t)
    ensures Up(t, a, ALL) && OthersSame(s, t, a)
  {
    var u := Begin(s, a);
    ReachableStep(u, StartAccount(a));
    DriveJoins(u, a, ALL);
    ReachableDrive(u, a, [], ALL);
    t := Drive(u, a, [], ALL);
    ReachableStep(t, StartAccount(a));
    assert OthersSame(s, u, a);
  }

  lemma NotThere(tasks: map<Id, Task>, a: Id)
    requires a !in tasks
    ensures tasks - {a} == tasks
  {
  }

  // ---- the policy ----

  /** The last member's teardown reads its pool. */
  lemma ReadLast(s: State, a: Id) returns (t: State)
    requires Reachable(s) && |s.pools| == PROVIDERS && a in s.rows && a !in s.tasks
    requires In(s.pools[0], a) && forall b :: In(s.pools[0], b) ==> b == a
    ensures |t.pools| == PROVIDERS && Reachable(t)
    ensures t == s.(rows := s.rows[a := Deleting], tasks := s.tasks[a := DetachPolicy(0, s.pools[0].version)])
  {
    ReachableStep(s, DeleteAccount(a));
    var u := Apply(s, DeleteAccount(a));
    ReachableStep(u, Advance(a, Fine, {}));
    var (ms, v) := (s.pools[0].members.value, s.pools[0].version);
    WithoutIs(ms, a);
    if Without(ms, a) != [] {
      assert Without(ms, a)[0] in Without(ms, a);
      assert In(s.pools[0], Without(ms, a)[0]);
    }
    t := Apply(u, Advance(a, Fine, {}));
    assert t == Goto(u, a, DetachPolicy(0, v));
    assert u.tasks[a := DetachPolicy(0, v)] == s.tasks[a := DetachPolicy(0, v)];
  }

  /** Its policy is taken off all the same once another account has joined, and its delete is
      refused. */
  lemma DetachInVain(s: State, a: Id, b: Id, v: nat) returns (t: State)
    requires Reachable(s) && |s.pools| == PROVIDERS
    requires a in s.tasks && s.tasks[a] == DetachPolicy(0, v) && a != b && In(s.pools[0], b)
    ensures |t.pools| == PROVIDERS && Reachable(t)
    ensures t == s.(pools := s.pools[0 := s.pools[0].(policy := false)], rows := s.rows[a := Failed], tasks := s.tasks - {a})
  {
    var x := Advance(a, Fine, {});
    ReachableStep(s, x);
    assert TaskOk(s.pools, s.hubs, a, s.tasks[a]);
    assert s.pools[0].version != v;
    var u := Apply(s, x);
    assert u == Goto(WithPolicy(s, 0, false), a, DeletePool(0, v));
    ReachableStep(u, x);
    t := Apply(u, x);
    assert t == Stop(u, a, Raises(false));
    assert u.tasks - {a} == s.tasks - {a};
  }

  /** The pool of a ready account has lost its policy, and no task is left that would put it back. */
  predicate Stranded(s: State, a: Id, b: Id)
    requires |s.pools| == PROVIDERS
  {
    && b in s.rows && s.rows[b] == Ready && InAll(s, b, PROVIDERS) && !s.pools[0].policy
    && a in s.rows && s.rows[a] == Failed && s.tasks == map[]
  }

  /** The first account is torn down and reads its pool as the last member; the second account is
      deployed from beginning to end; then the first takes the policy off. */
  lemma StaleDetachStrandsPool(a: Id, b: Id)
    requires a != b
    ensures exists steps :: Stranded(Run(START, steps), a, b)
  {
    ReachableStart();
    var s1 := Deploy(START, a);
    forall c | In(s1.pools[0], c) ensures c == a {
      assert c != a ==> In(s1.pools[0], c) == In(START.pools[0], c);
    }
    assert In(s1.pools[0], a);
    var s2 := ReadLast(s1, a);
    assert b !in s1.rows by { assert b !in s1.rows - {a}; }
    var s3 := Deploy(s2, b);
    assert In(s3.pools[0], b);
    assert a in s3.tasks - {b} && (s3.tasks - {b})[a] == (s2.tasks - {b})[a];
    var s4 := DetachInVain(s3, a, b, s1.pools[0].version);
    NotThere(s1.tasks, a);
    NotThere(s3.tasks, b);
    assert s1.tasks == map[] && s2.tasks == map[a := DetachPolicy(0, s1.pools[0].version)];
    NotThere(s2.tasks, b);
    assert s3.tasks == s2.tasks && s4.tasks == map[];
    assert Stranded(s4, a, b);
    var steps :| s4 == Run(START, steps);
    assert Stranded(Run(START, steps), a, b);
  }

  // ---- the member ----

  /** A deploy past the first pool leaves it alone. */
  predicate PastFirst(t: Task) {
    match t
    case ReadToAdd(p) => 1 <= p < PROVIDERS
    case PutAdded(p, _, _) => 1 <= p < PROVIDERS
    case RegisterCatalog => true
    case _ => false
  }

  lemma PastFirstStep(s: State, a: Id)
    requires Inv(s) && a in s.tasks && SawPool(s, a) && PastFirst(s.tasks[a])
    ensures var t := Apply(s, Advance(a, Fine, ALL));
            && |t.pools| == PROVIDERS && t.pools[0].members == s.pools[0].members && t.tasks - {a} == s.tasks - {a}
            && (forall b :: b in s.rows && b != a ==> b in t.rows && t.rows[b] == s.rows[b])
            && if a in t.tasks then SawPool(t, a) && PastFirst(t.tasks[a]) else IsReady(t, a)
  {
    match s.tasks[a] {
      case PutAdded(p, services, etag) =>
        assert Apply(s, Advance(a, Fine, ALL)) == Goto(Write(s, p, Some(services)), a, AfterAdding(p));
      case _ =>
    }
  }

  lemma {:induction false} DriveLeavesFirst(s: State, a: Id)
    requires Inv(s) && a in s.tasks && SawPool(s, a) && PastFirst(s.tasks[a])
    ensures var t := Drive(s, a, [], ALL);
            && Inv(t) && t.pools[0].members == s.pools[0].members && IsReady(t, a) && a !in t.tasks
            && t.tasks - {a} == s.tasks - {a}
            && forall b :: b in s.rows && b != a ==> b in t.rows && t.rows[b] == s.rows[b]
    decreases Rank(s.tasks[a])
  {
    var t := Apply(s, Advance(a, Fine, ALL));
    StepKeeps(s, Advance(a, Fine, ALL));
    PastFirstStep(s, a);
    DriveStep(s, a, [], ALL);
    TaskMovesOn(s, a, Fine, ALL);
    if a in t.tasks {
      DriveLeavesFirst(t, a);
    } else {
      assert Drive(s, a, [], ALL) == t;
    }
  }

  /** The hub up and its secrets stored, the first pool about to be read. */
  lemma ComeToFirst(s: State, a: Id) returns (t: State)
    requires Reachable(s) && |s.pools| == PROVIDERS && a in s.tasks && s.tasks[a] == DeployHub
    ensures |t.pools| == PROVIDERS && Reachable(t)
    ensures t == s.(hubs := s.hubs + {a}, tasks := s.tasks[a := ReadToAdd(0)])
  {
    var x := Advance(a, Fine, ALL);
    ReachableStep(s, x);
    var u := Apply(s, x);
    ReachableStep(u, x);
    t := Apply(u, x);
    ReachableStep(t, x);
    assert u.tasks[a := ReadToAdd(0)] == s.tasks[a := ReadToAdd(0)];
  }

  lemma ReadAbsent(s: State, a: Id) returns (t: State)
    requires Reachable(s) && |s.pools| == PROVIDERS && a in s.tasks && s.tasks[a] == ReadToAdd(0) && s.pools[0].members.None?
    ensures |t.pools| == PROVIDERS && Reachable(t) && t == s.(tasks := s.tasks[a := PutAdded(0, [a], None)])
  {
    ReachableStep(s, Advance(a, Fine, ALL));
    t := Apply(s, Advance(a, Fine, ALL));
  }

  lemma Create(s: State, a: Id) returns (t: State)
    requires Reachable(s) && |s.pools| == PROVIDERS && a in s.tasks && s.tasks[a] == PutAdded(0, [a], None)
    ensures |t.pools| == PROVIDERS && Reachable(t) && Inv(t)
    ensures t == Goto(Write(s, 0, Some([a])), a, ReadToAdd(1))
  {
    ReachableStep(s, Advance(a, Fine, ALL));
    t := Apply(s, Advance(a, Fine, ALL));
    ReachableStep(t, Advance(a, Fine, ALL));
  }

  /** Both accounts have read the first pool as absent. */
  lemma BothReadAbsent(a: Id, b: Id) returns (t: State)
    requires a != b
    ensures |t.pools| == PROVIDERS && Reachable(t)
    ensures t.tasks == map[a := PutAdded(0, [a], None), b := PutAdded(0, [b], None)]
  {
    ReachableStart();
    var s1 := Begin(START, a);
    var s2 := ComeToFirst(s1, a);
    var s3 := Begin(s2, b);
    var s4 := ComeToFirst(s3, b);
    var s5 := ReadAbsent(s4, a);
    t := ReadAbsent(s5, b);
  }

  /** Both have created it: the second account is its only member. */
  lemma BothCreated(a: Id, b: Id) returns (t: State)
    requires a != b
    ensures |t.pools| == PROVIDERS && Reachable(t) && Inv(t) && t.pools[0].members == Some([b])
    ensures t.tasks == map[a := ReadToAdd(1), b := ReadToAdd(1)]
  {
    var s := BothReadAbsent(a, b);
    var s1 := Create(s, a);
    t := Create(s1, b);
  }

  /** The deploy of the one of two that is left goes on to its end. */
  lemma FinishDeploy(s: State, a: Id) returns (t: State)
    requires Reachable(s) && |s.pools| == PROVIDERS && Inv(s) && a in s.tasks && s.tasks[a] == ReadToAdd(1)
    ensures |t.pools| == PROVIDERS && Reachable(t) && Inv(t) && t.pools[0].members == s.pools[0].members && IsReady(t, a)
    ensures t.tasks == s.tasks - {a} && forall b :: b in s.rows && b != a ==> b in t.rows && t.rows[b] == s.rows[b]
  {
    DriveLeavesFirst(s, a);
    ReachableDrive(s, a, [], ALL);
    t := Drive(s, a, [], ALL);
    NotThere(t.tasks, a);
  }

  /** Two accounts that both find the first pool absent: the second creation drops the first
      account, whose deploy goes on to make it ready, and it is not in the pool. */
  lemma CreationRaceDropsMember(a: Id, b: Id)
    requires a != b
    ensures exists steps :: var t := Run(START, steps);
              IsReady(t, a) && IsReady(t, b) && !In(t.pools[0], a) && In(t.pools[0], b) && t.tasks == map[]
  {
    var s2 := BothCreated(a, b);
    var s3 := FinishDeploy(s2, a);
    var s4 := FinishDeploy(s3, b);
    assert s4.tasks == map[];
    var steps :| s4 == Run(START, steps);
    assert Run(START, steps).pools[0].members == Some([b]);
  }
}
