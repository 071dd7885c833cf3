/** What every step of every deploy and teardown keeps. */
module AccountsProofs {
  import opened Wrappers
  import opened AccountsSpec

  predicate NoDup(ms: seq<Id>) { forall i, j :: 0 <= i < j < |ms| ==> ms[i] != ms[j] }

  predicate In(pool: Pool, a: Id) { pool.members.Some? && a in pool.members.value }

  /** An existing pool has members, no member twice, and every member has a hub and a row. */
  predicate PoolOk(pool: Pool, hubs: set<Id>, rows: map<Id, Status>) {
    pool.members.Some? ==>
      && pool.members.value != [] && NoDup(pool.members.value)
      && forall m :: m in pool.members.value ==> m in hubs && m in rows
  }

  predicate OutOf(pools: seq<Pool>, a: Id, n: nat) { forall q :: 0 <= q < n && q < |pools| ==> !In(pools[q], a) }

  /** What a task knows of the pools: what it read still stands if the ETag does. */
  predicate TaskOk(pools: seq<Pool>, hubs: set<Id>, a: Id, t: Task)
    requires |pools| == PROVIDERS
  {
    match t
    case DeployHub => true
    case StoreSecrets => a in hubs
    case ReadToAdd(p) => a in hubs && p < PROVIDERS
    case PutAdded(p, services, etag) =>
      && a in hubs && p < PROVIDERS
      && (etag.None? ==> services == [a])
      && (etag.Some? ==> etag.value <= pools[p].version)
      && (etag == Some(pools[p].version) ==>
            pools[p].members.Some? && a !in pools[p].members.value && services == pools[p].members.value + [a])
    case RegisterCatalog => a in hubs
    case ReadToRemove(p) => p < PROVIDERS && OutOf(pools, a, p)
    case PutKept(p, kept, seen) =>
      && p < PROVIDERS && OutOf(pools, a, p) && seen <= pools[p].version
      && (seen == pools[p].version ==>
            pools[p].members.Some? && kept == Without(pools[p].members.value, a) && kept != [])
    case DetachPolicy(p, seen) => LastOne(pools, a, p, seen)
    case DeletePool(p, seen) => LastOne(pools, a, p, seen)
    case DestroyHub => OutOf(pools, a, PROVIDERS)
    case EraseRow => OutOf(pools, a, PROVIDERS) && a !in hubs
  }

  predicate LastOne(pools: seq<Pool>, a: Id, p: nat, seen: nat)
    requires |pools| == PROVIDERS
  {
    && p < PROVIDERS && OutOf(pools, a, p) && seen <= pools[p].version
    && (seen == pools[p].version ==> pools[p].members.Some? && forall m :: m in pools[p].members.value ==> m == a)
  }

  ghost predicate Inv(s: State) {
    && |s.pools| == PROVIDERS
    && s.hubs <= s.rows.Keys && s.tasks.Keys <= s.rows.Keys
    && (forall p :: 0 <= p < PROVIDERS ==> PoolOk(s.pools[p], s.hubs, s.rows))
    && (forall a :: a in s.tasks ==> TaskOk(s.pools, s.hubs, a, s.tasks[a]))
  }

  lemma {:induction false} WithoutIs(ms: seq<Id>, a: Id)
    ensures forall m :: m in Without(ms, a) <==> m in ms && m != a
    ensures NoDup(ms) ==> NoDup(Without(ms, a))
    ensures |Without(ms, a)| <= |ms| && (|Without(ms, a)| == |ms| <==> a !in ms)
  {
    if ms != [] {
      WithoutIs(ms[1..], a);
      var rest := Without(ms[1..], a);
      assert forall m :: m in ms <==> m == ms[0] || m in ms[1..];
      if NoDup(ms) {
        assert forall i :: 0 <= i < |ms[1..]| ==> ms[1..][i] == ms[i + 1];
        assert NoDup(ms[1..]);
        assert ms[0] !in ms[1..];
      }
    }
  }

  // ---- changes one at a time ----

  /** Pools p of two states differ only in pool `p`, which moved on in version. */
  lemma OtherTaskKeeps(pools: seq<Pool>, next: seq<Pool>, hubs: set<Id>, a: Id, t: Task, p: nat)
    requires |pools| == |next| == PROVIDERS && p < PROVIDERS && TaskOk(pools, hubs, a, t)
    requires next[p].version > pools[p].version && (In(next[p], a) ==> In(pools[p], a))
    requires forall q :: 0 <= q < PROVIDERS && q != p ==> next[q] == pools[q]
    ensures TaskOk(next, hubs, a, t)
  {
  }

  /** Writing pool `p` with members that are well, none of them new but the writer. */
  lemma WriteKeeps(s: State, a: Id, p: nat, members: Option<seq<Id>>, t: Task)
    requires Inv(s) && a in s.tasks && p < PROVIDERS
    requires PoolOk(Pool(members, 0, false), s.hubs, s.rows)
    requires members.Some? ==> forall m :: m in members.value ==> m == a || In(s.pools[p], m)
    requires TaskOk(Write(s, p, members).pools, s.hubs, a, t)
    ensures Inv(Goto(Write(s, p, members), a, t))
  {
    var u := Write(s, p, members);
    forall b | b in s.tasks && b != a ensures TaskOk(u.pools, u.hubs, b, s.tasks[b]) {
      OtherTaskKeeps(s.pools, u.pools, s.hubs, b, s.tasks[b], p);
    }
  }

  lemma GotoKeeps(s: State, a: Id, t: Task)
    requires Inv(s) && a in s.tasks && TaskOk(s.pools, s.hubs, a, t)
    ensures Inv(Goto(s, a, t))
  {
  }

  lemma StopKeeps(s: State, a: Id, fate: Fate)
    requires Inv(s) && a in s.tasks
    ensures Inv(Stop(s, a, fate))
  {
    var u := Stop(s, a, fate);
    assert u.rows.Keys == s.rows.Keys;
  }

  lemma ThenKeeps(s: State, a: Id, fate: Fate, t: Task)
    requires Inv(s) && a in s.tasks && TaskOk(s.pools, s.hubs, a, t)
    ensures Inv(Then(s, a, fate, t))
  {
    StopKeeps(s, a, fate);
  }

  /** Policies are not what the invariant is about. */
  lemma PolicyKeeps(s: State, next: seq<Pool>)
    requires Inv(s) && |next| == PROVIDERS
    requires forall q :: 0 <= q < PROVIDERS ==> next[q].members == s.pools[q].members && next[q].version == s.pools[q].version
    ensures Inv(s.(pools := next))
    ensures forall a, t :: TaskOk(s.pools, s.hubs, a, t) ==> TaskOk(next, s.hubs, a, t)
  {
    forall a, t | TaskOk(s.pools, s.hubs, a, t) ensures TaskOk(next, s.hubs, a, t) {
      assert forall q, b :: 0 <= q < PROVIDERS ==> In(next[q], b) == In(s.pools[q], b);
    }
  }

  // ---- the steps of a deploy ----

  lemma AddReadKeeps(s: State, a: Id, p: nat)
    requires Inv(s) && a in s.tasks && a in s.hubs && p < PROVIDERS
    ensures Inv(AddRead(s, a, p))
  {
    match s.pools[p].members {
      case None => GotoKeeps(s, a, PutAdded(p, [a], None));
      case Some(ms) =>
        if a in ms {
          GotoKeeps(s, a, AfterAdding(p));
        } else {
          GotoKeeps(s, a, PutAdded(p, ms + [a], Some(s.pools[p].version)));
        }
    }
  }

  lemma AddPutKeeps(s: State, a: Id, p: nat, services: seq<Id>, etag: Option<nat>, fate: Fate)
    requires Inv(s) && a in s.tasks && TaskOk(s.pools, s.hubs, a, PutAdded(p, services, etag))
    ensures Inv(AddPut(s, a, p, services, etag, fate))
  {
    if etag.None? || etag.value == s.pools[p].version {
      if TookEffect(fate) {
        assert a in s.rows;
        WriteKeeps(s, a, p, Some(services), AfterAdding(p));
        var u := Write(s, p, Some(services));
        assert Stop(Goto(u, a, AfterAdding(p)), a, fate) == Stop(u, a, fate) by {
          assert u.tasks[a := AfterAdding(p)] - {a} == u.tasks - {a};
        }
        StopKeeps(Goto(u, a, AfterAdding(p)), a, fate);
      } else {
        StopKeeps(s, a, fate);
      }
    } else {
      StopKeeps(s, a, if fate.Dies? then fate else Raises(false));
    }
  }

  lemma HubUp(s: State, a: Id)
    requires Inv(s) && a in s.tasks && s.tasks[a].DeployHub?
    ensures Inv(s.(hubs := s.hubs + {a}))
  {
  }

  lemma DeployStepKeeps(s: State, a: Id, fate: Fate, attach: set<nat>)
    requires Inv(s) && a in s.tasks && IsDeploy(s.tasks[a])
    ensures Inv(DeployStep(s, a, s.tasks[a], fate, attach))
  {
    match s.tasks[a] {
      case DeployHub =>
        HubUp(s, a);
        var u := if TookEffect(fate) then s.(hubs := s.hubs + {a}) else s;
        if fate.Fine? { GotoKeeps(u, a, StoreSecrets); } else { StopKeeps(u, a, fate); }
      case StoreSecrets => ThenKeeps(s, a, fate, ReadToAdd(0));
      case ReadToAdd(p) => if fate.Fine? { AddReadKeeps(s, a, p); } else { StopKeeps(s, a, fate); }
      case PutAdded(p, services, etag) => AddPutKeeps(s, a, p, services, etag, fate);
      case RegisterCatalog =>
        var u := s.(pools := Attached(s.pools, attach));
        PolicyKeeps(s, u.pools);
        StopKeeps(u, a, fate);
        StopKeeps(u, a, Dies(false));
        var done := u.(rows := u.rows[a := Ready], tasks := u.tasks - {a});
        assert done.rows.Keys == u.rows.Keys;
        assert done.tasks == Stop(u, a, Dies(false)).tasks;
    }
  }

  // ---- the steps of a teardown ----

  lemma RemoveReadKeeps(s: State, a: Id, p: nat)
    requires Inv(s) && a in s.tasks && TaskOk(s.pools, s.hubs, a, ReadToRemove(p))
    ensures Inv(RemoveRead(s, a, p))
  {
    match s.pools[p].members {
      case None => GotoKeeps(s, a, AfterRemoving(p));
      case Some(ms) =>
        WithoutIs(ms, a);
        var kept := Without(ms, a);
        if |kept| == |ms| {
          GotoKeeps(s, a, AfterRemoving(p));
        } else if kept == [] {
          assert forall m :: m in ms ==> m == a || m in kept;
          GotoKeeps(s, a, DetachPolicy(p, s.pools[p].version));
        } else {
          GotoKeeps(s, a, PutKept(p, kept, s.pools[p].version));
        }
    }
  }

  /** A write of pool `p` by a teardown, that goes on or stops. */
  lemma RemovalWritten(s: State, a: Id, p: nat, members: Option<seq<Id>>, fate: Fate)
    requires Inv(s) && a in s.tasks && p < PROVIDERS && OutOf(s.pools, a, p)
    requires PoolOk(Pool(members, 0, false), s.hubs, s.rows)
    requires members.Some? ==> a !in members.value && forall m :: m in members.value ==> In(s.pools[p], m)
    ensures Inv(Then(Write(s, p, members), a, fate, AfterRemoving(p)))
  {
    var u := Write(s, p, members);
    assert OutOf(u.pools, a, p + 1);
    WriteKeeps(s, a, p, members, AfterRemoving(p));
    assert u.tasks[a := AfterRemoving(p)] - {a} == u.tasks - {a};
    assert Stop(Goto(u, a, AfterRemoving(p)), a, fate) == Stop(u, a, fate);
    StopKeeps(Goto(u, a, AfterRemoving(p)), a, fate);
  }

  lemma RemovePutKeeps(s: State, a: Id, p: nat, kept: seq<Id>, seen: nat, fate: Fate)
    requires Inv(s) && a in s.tasks && TaskOk(s.pools, s.hubs, a, PutKept(p, kept, seen))
    ensures Inv(RemovePut(s, a, p, kept, seen, fate))
  {
    StopKeeps(s, a, fate);
    StopKeeps(s, a, Raises(false));
    if seen == s.pools[p].version && TookEffect(fate) {
      WithoutIs(s.pools[p].members.value, a);
      RemovalWritten(s, a, p, Some(kept), fate);
    }
  }

  lemma PoolDeleteKeeps(s: State, a: Id, p: nat, seen: nat, fate: Fate)
    requires Inv(s) && a in s.tasks && LastOne(s.pools, a, p, seen)
    ensures Inv(PoolDelete(s, a, p, seen, fate))
  {
    StopKeeps(s, a, fate);
    StopKeeps(s, a, Raises(false));
    if s.pools[p].members.None? {
      ThenKeeps(s, a, fate, AfterRemoving(p));
    } else if TookEffect(fate) {
      RemovalWritten(s, a, p, None, fate);
    }
  }

  lemma HubDown(s: State, a: Id)
    requires Inv(s) && a in s.tasks && s.tasks[a].DestroyHub?
    ensures Inv(s.(hubs := s.hubs - {a}))
  {
  }

  lemma RowErased(s: State, a: Id)
    requires Inv(s) && a in s.tasks && s.tasks[a].EraseRow?
    ensures Inv(s.(rows := s.rows - {a}, tasks := s.tasks - {a}))
  {
    forall p | 0 <= p < PROVIDERS ensures PoolOk(s.pools[p], s.hubs, s.rows - {a}) {
      assert !In(s.pools[p], a);
    }
  }

  lemma TeardownStepKeeps(s: State, a: Id, fate: Fate)
    requires Inv(s) && a in s.tasks && !IsDeploy(s.tasks[a])
    ensures Inv(TeardownStep(s, a, s.tasks[a], fate))
  {
    StopKeeps(s, a, fate);
    match s.tasks[a] {
      case ReadToRemove(p) => if fate.Fine? { RemoveReadKeeps(s, a, p); }
      case PutKept(p, kept, seen) => RemovePutKeeps(s, a, p, kept, seen, fate);
      case DetachPolicy(p, seen) =>
        var u := if TookEffect(fate) then WithPolicy(s, p, false) else s;
        PolicyKeeps(s, u.pools);
        ThenKeeps(u, a, fate, DeletePool(p, seen));
      case DeletePool(p, seen) => PoolDeleteKeeps(s, a, p, seen, fate);
      case DestroyHub =>
        HubDown(s, a);
        ThenKeeps(if TookEffect(fate) then s.(hubs := s.hubs - {a}) else s, a, fate, if TookEffect(fate) then EraseRow else DestroyHub);
      case EraseRow => RowErased(s, a); StopKeeps(s, a, Dies(false));
    }
  }

  lemma RequestKeeps(s: State, step: Step)
    requires Inv(s) && !step.Advance?
    ensures Inv(Apply(s, step))
  {
    if step.ResyncCatalog? {
      PolicyKeeps(s, Attached(s.pools, step.attach));
    }
  }

  lemma StepKeeps(s: State, step: Step)
    requires Inv(s)
    ensures Inv(Apply(s, step))
  {
    match step {
      case Advance(a, fate, attach) =>
        if a in s.tasks {
          if IsDeploy(s.tasks[a]) { DeployStepKeeps(s, a, fate, attach); } else { TeardownStepKeeps(s, a, fate); }
        }
      case _ => RequestKeeps(s, step);
    }
  }

  lemma {:induction false} RunKeeps(s: State, steps: seq<Step>)
    requires Inv(s)
    ensures Inv(Run(s, steps))
    decreases |steps|
  {
    if steps != [] {
      StepKeeps(s, steps[0]);
      RunKeeps(Apply(s, steps[0]), steps[1..]);
    }
  }

  /** In every run: no pool lists a member whose hub is gone, every existing pool has members and
      none twice, and an account without a row has no hub left and is in no pool. */
  lemma AccountsAreSafe(steps: seq<Step>)
    ensures var s := Run(START, steps);
            && |s.pools| == PROVIDERS
            && (forall p :: 0 <= p < PROVIDERS ==> PoolOk(s.pools[p], s.hubs, s.rows))
            && (forall a :: a !in s.rows ==> a !in s.hubs && OutOf(s.pools, a, PROVIDERS))
  {
    RunKeeps(START, steps);
  }

  lemma DeployKeepsRows(s: State, a: Id, fate: Fate, attach: set<nat>, b: Id)
    requires |s.pools| == PROVIDERS && a in s.tasks && IsDeploy(s.tasks[a]) && b in s.rows
    ensures b in DeployStep(s, a, s.tasks[a], fate, attach).rows
  {
  }

  lemma TeardownKeepsRows(s: State, a: Id, fate: Fate, b: Id)
    requires |s.pools| == PROVIDERS && a in s.tasks && !IsDeploy(s.tasks[a]) && b in s.rows
    requires !s.tasks[a].EraseRow? || a != b
    ensures b in TeardownStep(s, a, s.tasks[a], fate).rows
  {
  }

  /** A row vanishes only in the last step of a teardown, when the account is out of all pools
      and its hub is destroyed. */
  lemma RowsVanishLast(steps: seq<Step>, step: Step, a: Id)
    requires a in Run(START, steps).rows
    requires a !in Apply(Run(START, steps), step).rows
    ensures var s := Run(START, steps);
            a in s.tasks && s.tasks[a].EraseRow? && a !in s.hubs && OutOf(s.pools, a, PROVIDERS)
  {
    RunKeeps(START, steps);
    var s := Run(START, steps);
    if step.Advance? && step.id in s.tasks {
      if IsDeploy(s.tasks[step.id]) {
        DeployKeepsRows(s, step.id, step.fate, step.attach, a);
      } else if !s.tasks[step.id].EraseRow? || step.id != a {
        TeardownKeepsRows(s, step.id, step.fate, a);
      }
    }
  }
}
