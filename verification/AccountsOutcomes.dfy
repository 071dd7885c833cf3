/** How a task ends, told by the calls it makes and how they go. */
module AccountsOutcomes {
  import opened Wrappers
  import opened AccountsSpec
  import opened AccountsProofs
  import opened AccountsTeardown

  // ---- one step ----

  /** What the task read no longer stands, or the gateway would refuse: its write fails. */
  predicate IsRefused(s: State, a: Id)
    requires |s.pools| == PROVIDERS && a in s.tasks
  {
    match s.tasks[a]
    case PutAdded(p, _, Some(seen)) => p < PROVIDERS && seen != s.pools[p].version
    case PutKept(p, _, seen) => p < PROVIDERS && seen != s.pools[p].version
    case DeletePool(p, seen) =>
      p < PROVIDERS && s.pools[p].members.Some? && (s.pools[p].policy || seen != s.pools[p].version)
    case _ => false
  }

  /** A task goes on exactly while its calls work: a call that raises or is refused leaves the
      account failed, the end of the process leaves its row as it was. A deploy ends ready; a
      teardown ends without a row, unless it is the erasing itself that did not work. */
  lemma TaskGoesOn(s: State, a: Id, fate: Fate, attach: set<nat>)
    requires Inv(s) && a in s.tasks
    ensures var t, task := Apply(s, Advance(a, fate, attach)), s.tasks[a];
            var works := fate.Fine? && !IsRefused(s, a);
            && (a in t.tasks <==> works && !task.RegisterCatalog? && !task.EraseRow?)
            && (works && task.RegisterCatalog? ==> t.rows == s.rows[a := Ready])
            && (task.EraseRow? ==> t.rows == if fate.Fine? || fate.applied then s.rows - {a} else s.rows)
            && (works && a in t.tasks ==> t.rows == s.rows)
            && (!works && !task.EraseRow? ==> t.rows == if fate.Dies? then s.rows else s.rows[a := Failed])
  {
    assert TaskOk(s.pools, s.hubs, a, s.tasks[a]);
    if IsDeploy(s.tasks[a]) {
      assert Apply(s, Advance(a, fate, attach)) == DeployStep(s, a, s.tasks[a], fate, attach);
    } else {
      assert Apply(s, Advance(a, fate, attach)) == TeardownStep(s, a, s.tasks[a], fate);
    }
  }

  /** Who may start what: an account is added as pending and without anything; only a pending one
      is authorized, once; a deletion only waits for the task of the account to be over. */
  lemma RequestsStartTasks(s: State, a: Id)
    requires |s.pools| == PROVIDERS && a !in s.tasks
    ensures a !in s.rows ==> Apply(s, StartAccount(a)) == s.(rows := s.rows[a := Pending])
    ensures Apply(s, Authorize(a)) == (if a in s.rows && s.rows[a] == Pending
                                       then s.(rows := s.rows[a := Deploying], tasks := s.tasks[a := DeployHub]) else s)
    ensures Apply(s, DeleteAccount(a)) == (if a in s.rows
                                           then s.(rows := s.rows[a := Deleting], tasks := s.tasks[a := ReadToRemove(0)]) else s)
  {
  }

  // ---- a whole task by itself ----

  /** The calls of a deploy from the read of pool `p` on: a read a pool and, where the account is not
      in it, a write; then the catalog. */
  function AddCalls(s: State, a: Id, p: nat): nat
    requires |s.pools| == PROVIDERS
    decreases PROVIDERS - p
  {
    if p >= PROVIDERS then 1 else (if In(s.pools[p], a) then 1 else 2) + AddCalls(s, a, p + 1)
  }

  /** Those of a teardown: a read a pool and, where the account is in it, a write, or two for a pool
      of its own; then the hub and the row. */
  function RemoveCalls(s: State, a: Id, p: nat): nat
    requires |s.pools| == PROVIDERS
    decreases PROVIDERS - p
  {
    if p >= PROVIDERS then 2
    else (if !In(s.pools[p], a) then 1 else if Alone(s.pools[p], a) then 3 else 2) + RemoveCalls(s, a, p + 1)
  }

  /** The calls a task has left. */
  function CallsLeft(s: State, a: Id): nat
    requires |s.pools| == PROVIDERS && a in s.tasks
  {
    match s.tasks[a]
    case DeployHub => 2 + AddCalls(s, a, 0)
    case StoreSecrets => 1 + AddCalls(s, a, 0)
    case ReadToAdd(p) => AddCalls(s, a, p)
    case PutAdded(p, _, _) => 1 + AddCalls(s, a, p + 1)
    case RegisterCatalog => 1
    case ReadToRemove(p) => RemoveCalls(s, a, p)
    case PutKept(p, _, _) => 1 + RemoveCalls(s, a, p + 1)
    case DetachPolicy(p, _) => 2 + RemoveCalls(s, a, p + 1)
    case DeletePool(p, _) => 1 + RemoveCalls(s, a, p + 1)
    case DestroyHub => 2
    case EraseRow => 1
  }

  /** What the task read is how things are. */
  predicate UpToDate(s: State, a: Id)
    requires |s.pools| == PROVIDERS && a in s.tasks
  {
    match s.tasks[a]
    case ReadToAdd(p) => p < PROVIDERS
    case PutAdded(p, services, etag) =>
      p < PROVIDERS && !In(s.pools[p], a) && a in services && (etag.None? || etag.value == s.pools[p].version)
    case ReadToRemove(p) => p < PROVIDERS
    case PutKept(p, kept, seen) => p < PROVIDERS && seen == s.pools[p].version
    case DetachPolicy(p, seen) => p < PROVIDERS && seen == s.pools[p].version
    case DeletePool(p, seen) => p < PROVIDERS && seen == s.pools[p].version && !s.pools[p].policy
    case _ => true
  }

  lemma {:induction false} SameAddCalls(s: State, t: State, a: Id, p: nat)
    requires |s.pools| == |t.pools| == PROVIDERS && forall q :: p <= q < PROVIDERS ==> t.pools[q].members == s.pools[q].members
    ensures AddCalls(t, a, p) == AddCalls(s, a, p)
    decreases PROVIDERS - p
  {
    if p < PROVIDERS {
      SameAddCalls(s, t, a, p + 1);
    }
  }

  lemma {:induction false} SameRemoveCalls(s: State, t: State, a: Id, p: nat)
    requires |s.pools| == |t.pools| == PROVIDERS && forall q :: p <= q < PROVIDERS ==> t.pools[q].members == s.pools[q].members
    ensures RemoveCalls(t, a, p) == RemoveCalls(s, a, p)
    decreases PROVIDERS - p
  {
    if p < PROVIDERS {
      SameRemoveCalls(s, t, a, p + 1);
    }
  }

  /** What one call of a deploy that works comes to. */
  ghost predicate DeployCounted(s: State, a: Id, attach: set<nat>)
    requires |s.pools| == PROVIDERS && a in s.tasks
  {
    var t := Apply(s, Advance(a, Fine, attach));
    && |t.pools| == PROVIDERS && a in t.tasks && IsDeploy(t.tasks[a]) && UpToDate(t, a)
    && CallsLeft(s, a) == CallsLeft(t, a) + 1
  }

  lemma AddReadCounts(s: State, a: Id, p: nat, attach: set<nat>)
    requires Inv(s) && a in s.tasks && s.tasks[a] == ReadToAdd(p) && p < PROVIDERS
    ensures DeployCounted(s, a, attach)
  {
    var t := Apply(s, Advance(a, Fine, attach));
    assert t == AddRead(s, a, p);
    SameAddCalls(s, t, a, p + 1);
  }

  lemma AddPutCounts(s: State, a: Id, p: nat, services: seq<Id>, etag: Option<nat>, attach: set<nat>)
    requires Inv(s) && a in s.tasks && s.tasks[a] == PutAdded(p, services, etag) && UpToDate(s, a)
    ensures DeployCounted(s, a, attach)
  {
    var t := Apply(s, Advance(a, Fine, attach));
    assert t == AddPut(s, a, p, services, etag, Fine);
    assert t.pools == s.pools[p := Pool(Some(services), s.pools[p].version + 1, s.pools[p].policy)];
    SameAddCalls(s, t, a, p + 1);
  }

  lemma DeployCountsDown(s: State, a: Id, attach: set<nat>)
    requires Inv(s) && a in s.tasks && IsDeploy(s.tasks[a]) && UpToDate(s, a) && !s.tasks[a].RegisterCatalog?
    ensures DeployCounted(s, a, attach)
  {
    var task := s.tasks[a];
    if task.PutAdded? {
      AddPutCounts(s, a, task.p, task.services, task.etag, attach);
    } else if task.ReadToAdd? {
      AddReadCounts(s, a, task.p, attach);
    } else {
      SameAddCalls(s, Apply(s, Advance(a, Fine, attach)), a, 0);
    }
  }

  /** What one call of a teardown that works comes to. */
  ghost predicate CountedDown(s: State, a: Id)
    requires |s.pools| == PROVIDERS && a in s.tasks
  {
    var t := Apply(s, Advance(a, Fine, {}));
    && |t.pools| == PROVIDERS && a in t.tasks && !IsDeploy(t.tasks[a]) && UpToDate(t, a)
    && CallsLeft(s, a) == CallsLeft(t, a) + 1
  }

  lemma ReadCountsDown(s: State, a: Id, p: nat)
    requires Inv(s) && a in s.tasks && s.tasks[a] == ReadToRemove(p) && p < PROVIDERS
    ensures CountedDown(s, a)
  {
    var t := Apply(s, Advance(a, Fine, {}));
    assert t == RemoveRead(s, a, p);
    SameRemoveCalls(s, t, a, p + 1);
    if s.pools[p].members.Some? {
      WithoutIs(s.pools[p].members.value, a);
      assert Alone(s.pools[p], a) <==> Without(s.pools[p].members.value, a) == [];
    }
  }

  lemma PutCountsDown(s: State, a: Id, p: nat, kept: seq<Id>)
    requires Inv(s) && a in s.tasks && p < PROVIDERS && s.tasks[a] == PutKept(p, kept, s.pools[p].version)
    ensures CountedDown(s, a)
  {
    var t := Apply(s, Advance(a, Fine, {}));
    assert t.pools == s.pools[p := Pool(Some(kept), s.pools[p].version + 1, s.pools[p].policy)];
    SameRemoveCalls(s, t, a, p + 1);
  }

  lemma DetachCountsDown(s: State, a: Id, p: nat)
    requires Inv(s) && a in s.tasks && p < PROVIDERS && s.tasks[a] == DetachPolicy(p, s.pools[p].version)
    ensures CountedDown(s, a)
  {
    var t := Apply(s, Advance(a, Fine, {}));
    assert t.pools == s.pools[p := s.pools[p].(policy := false)];
    SameRemoveCalls(s, t, a, p + 1);
  }

  lemma DeleteCountsDown(s: State, a: Id, p: nat)
    requires Inv(s) && a in s.tasks && p < PROVIDERS && s.tasks[a] == DeletePool(p, s.pools[p].version) && !s.pools[p].policy
    ensures CountedDown(s, a)
  {
    var t := Apply(s, Advance(a, Fine, {}));
    assert s.pools[p].members.None? ==> t.pools == s.pools;
    assert s.pools[p].members.Some? ==> t.pools == s.pools[p := Pool(None, s.pools[p].version + 1, s.pools[p].policy)];
    SameRemoveCalls(s, t, a, p + 1);
  }

  lemma TeardownCountsDown(s: State, a: Id)
    requires Inv(s) && a in s.tasks && !IsDeploy(s.tasks[a]) && UpToDate(s, a) && !s.tasks[a].EraseRow?
    ensures CountedDown(s, a)
  {
    var task := s.tasks[a];
    if task.ReadToRemove? {
      ReadCountsDown(s, a, task.p);
    } else if task.PutKept? {
      PutCountsDown(s, a, task.p, task.services);
    } else if task.DetachPolicy? {
      DetachCountsDown(s, a, task.p);
    } else if task.DeletePool? {
      DeleteCountsDown(s, a, task.p);
    }
  }

  /** The first `n` calls all work. */
  predicate AllWork(fates: seq<Fate>, n: nat) { forall i :: 0 <= i < n ==> FateAt(fates, i).Fine? }

  /** Of `n` calls the one at `j` is the first that does not work. */
  predicate FirstBad(fates: seq<Fate>, n: nat, j: nat) { j < n && AllWork(fates, j) && !FateAt(fates, j).Fine? }

  lemma ShiftBad(fates: seq<Fate>, n: nat, j: nat)
    requires Head(fates).Fine?
    ensures AllWork(fates, n + 1) <==> AllWork(Tail(fates), n)
    ensures FirstBad(fates, n + 1, j + 1) ==> FirstBad(Tail(fates), n, j) && FateAt(Tail(fates), j) == FateAt(fates, j + 1)
  {
    forall i: nat ensures FateAt(Tail(fates), i) == FateAt(fates, i + 1) {
    }
    assert FateAt(fates, 0) == Head(fates);
    if AllWork(Tail(fates), n) {
      forall i | 0 <= i < n + 1 ensures FateAt(fates, i).Fine? {
        assert i > 0 ==> FateAt(Tail(fates), i - 1).Fine?;
      }
    }
  }

  /** The row of an account whose task was stopped by a call. */
  function Stopped(rows: map<Id, Status>, a: Id, fate: Fate): map<Id, Status> {
    if fate.Dies? then rows else rows[a := Failed]
  }

  /** A deploy by itself ends ready exactly when every call it makes works; otherwise the first that
      does not decides: failed, or, when the process died, as it was. */
  lemma {:induction false} DeployOutcome(s: State, a: Id, fates: seq<Fate>, attach: set<nat>, j: nat)
    requires Inv(s) && a in s.tasks && IsDeploy(s.tasks[a]) && UpToDate(s, a)
    ensures var t, n := Drive(s, a, fates, attach), CallsLeft(s, a);
            && a !in t.tasks
            && (AllWork(fates, n) ==> t.rows == s.rows[a := Ready])
            && (FirstBad(fates, n, j) ==> t.rows == Stopped(s.rows, a, FateAt(fates, j)))
    decreases Rank(s.tasks[a])
  {
    var fate, n := Head(fates), CallsLeft(s, a);
    var u := Apply(s, Advance(a, fate, attach));
    assert fate == FateAt(fates, 0) && n >= 1;
    DriveStep(s, a, fates, attach);
    TaskGoesOn(s, a, fate, attach);
    StepKeeps(s, Advance(a, fate, attach));
    if fate.Fine? && !s.tasks[a].RegisterCatalog? {
      DeployCountsDown(s, a, attach);
      TaskMovesOn(s, a, fate, attach);
      ShiftBad(fates, n - 1, if j > 0 then j - 1 else 0);
      DeployOutcome(u, a, Tail(fates), attach, if j > 0 then j - 1 else 0);
      assert FirstBad(fates, n, j) ==> j > 0;
    }
  }

  /** A teardown by itself ends without a row exactly when every call but the last works and the last,
      the erasing, takes effect; otherwise the row stays, failed if a call before raised. */
  lemma {:induction false} TeardownOutcome(s: State, a: Id, fates: seq<Fate>, j: nat)
    requires Inv(s) && a in s.tasks && !IsDeploy(s.tasks[a]) && UpToDate(s, a)
    ensures var t, n := Drive(s, a, fates, {}), CallsLeft(s, a);
            && n >= 1 && a !in t.tasks
            && (AllWork(fates, n - 1) ==> t.rows == if TookEffect(FateAt(fates, n - 1)) then s.rows - {a} else s.rows)
            && (FirstBad(fates, n - 1, j) ==> t.rows == Stopped(s.rows, a, FateAt(fates, j)))
    decreases Rank(s.tasks[a])
  {
    var fate, n := Head(fates), CallsLeft(s, a);
    var u := Apply(s, Advance(a, fate, {}));
    assert fate == FateAt(fates, 0);
    DriveStep(s, a, fates, {});
    TaskGoesOn(s, a, fate, {});
    StepKeeps(s, Advance(a, fate, {}));
    if !s.tasks[a].EraseRow? {
      assert n >= 2 by { AtLeastTwo(s, a); }
      if fate.Fine? {
        TeardownCountsDown(s, a);
        TaskMovesOn(s, a, fate, {});
        ShiftBad(fates, n - 2, if j > 0 then j - 1 else 0);
        TeardownOutcome(u, a, Tail(fates), if j > 0 then j - 1 else 0);
        FateShift(fates, n - 2);
        assert FirstBad(fates, n - 1, j) ==> j > 0;
      }
    }
  }

  lemma {:induction false} RemoveCallsAtLeast(s: State, a: Id, p: nat)
    requires |s.pools| == PROVIDERS
    ensures RemoveCalls(s, a, p) >= 2
    decreases PROVIDERS - p
  {
    if p < PROVIDERS {
      RemoveCallsAtLeast(s, a, p + 1);
    }
  }

  lemma AtLeastTwo(s: State, a: Id)
    requires |s.pools| == PROVIDERS && a in s.tasks && !IsDeploy(s.tasks[a]) && !s.tasks[a].EraseRow?
    ensures CallsLeft(s, a) >= 2
  {
    match s.tasks[a] {
      case ReadToRemove(p) => RemoveCallsAtLeast(s, a, p);
      case PutKept(p, _, _) => RemoveCallsAtLeast(s, a, p + 1);
      case DetachPolicy(p, _) => RemoveCallsAtLeast(s, a, p + 1);
      case DeletePool(p, _) => RemoveCallsAtLeast(s, a, p + 1);
      case _ =>
    }
  }
}
