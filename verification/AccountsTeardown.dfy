/** What a teardown that does not get through has changed: exactly when pools, policies and hubs
    are as they were before it. */
module AccountsTeardown {
  import opened Wrappers
  import opened AccountsSpec
  import opened AccountsProofs

  function FateAt(fates: seq<Fate>, i: nat): Fate { if i < |fates| then fates[i] else Fine }

  predicate Alone(pool: Pool, a: Id) { pool.members.Some? && Without(pool.members.value, a) == [] }

  /** How many calls a teardown makes, from the read of pool `p` on, before the first that would
      change something: it reads the pools the account is not in, and the first one it is in; and
      a policy that is not there is taken off for nothing. */
  function CallsBefore(s: State, a: Id, p: nat): nat
    requires |s.pools| == PROVIDERS
    decreases PROVIDERS - p
  {
    if p >= PROVIDERS then 0
    else if !In(s.pools[p], a) then 1 + CallsBefore(s, a, p + 1)
    else if Alone(s.pools[p], a) && !s.pools[p].policy then 2
    else 1
  }

  /** There is something to change: a pool that lists the account, or its hub. */
  predicate Something(s: State, a: Id, p: nat) {
    a in s.hubs || exists q :: p <= q < |s.pools| && In(s.pools[q], a)
  }

  /** That call is reached, and takes effect. */
  predicate Touches(s: State, a: Id, fates: seq<Fate>, p: nat)
    requires |s.pools| == PROVIDERS
  {
    var n := CallsBefore(s, a, p);
    Something(s, a, p) && (forall i :: 0 <= i < n ==> FateAt(fates, i).Fine?) && TookEffect(FateAt(fates, n))
  }

  predicate Untouched(s: State, t: State) { t.pools == s.pools && t.hubs == s.hubs }

  // ---- what is changed stays changed ----

  predicate Downhill(s: State, t: State) {
    && |s.pools| == |t.pools| && t.hubs <= s.hubs
    && forall q :: 0 <= q < |s.pools| ==> t.pools[q].version >= s.pools[q].version && (t.pools[q].policy ==> s.pools[q].policy)
  }

  lemma StepGoesDown(s: State, a: Id, fate: Fate)
    requires |s.pools| == PROVIDERS && a in s.tasks && !IsDeploy(s.tasks[a])
    ensures var t := TeardownStep(s, a, s.tasks[a], fate); Downhill(s, t) && (a in t.tasks ==> !IsDeploy(t.tasks[a]))
  {
  }

  lemma {:induction false} DriveGoesDown(s: State, a: Id, fates: seq<Fate>)
    requires |s.pools| == PROVIDERS && (a in s.tasks ==> !IsDeploy(s.tasks[a]))
    ensures Downhill(s, Drive(s, a, fates, {}))
    decreases if a in s.tasks then Rank(s.tasks[a]) + 1 else 0
  {
    if a in s.tasks {
      StepGoesDown(s, a, Head(fates));
      DriveStep(s, a, fates, {});
      TaskMovesOn(s, a, Head(fates), {});
      DriveGoesDown(Apply(s, Advance(a, Head(fates), {})), a, Tail(fates));
    }
  }

  /** A hub is gone, or a pool has been written or has lost its policy. */
  predicate Lost(s: State, u: State)
    requires |s.pools| == |u.pools|
  {
    || u.hubs != s.hubs
    || exists q :: 0 <= q < |s.pools| && (u.pools[q].version > s.pools[q].version || (s.pools[q].policy && !u.pools[q].policy))
  }

  /** From there nothing brings it back. */
  lemma LostForGood(s: State, u: State, a: Id, fates: seq<Fate>)
    requires |s.pools| == |u.pools| == PROVIDERS && (a in u.tasks ==> !IsDeploy(u.tasks[a]))
    requires Downhill(s, u) && Lost(s, u)
    ensures !Untouched(s, Drive(u, a, fates, {}))
  {
    DriveGoesDown(u, a, fates);
  }

  // ---- the calls one by one ----

  /** A task that has ended leaves what it left. */
  lemma Ended(s: State, a: Id, fates: seq<Fate>)
    requires |s.pools| == PROVIDERS && a !in s.tasks
    ensures Drive(s, a, fates, {}) == s
  {
  }

  lemma FromErase(s: State, a: Id, fates: seq<Fate>)
    requires |s.pools| == PROVIDERS && a in s.tasks && s.tasks[a].EraseRow?
    ensures Untouched(s, Drive(s, a, fates, {}))
  {
    DriveStep(s, a, fates, {});
    Ended(Apply(s, Advance(a, Head(fates), {})), a, Tail(fates));
  }

  lemma FromDestroy(s: State, a: Id, fates: seq<Fate>)
    requires |s.pools| == PROVIDERS && a in s.tasks && s.tasks[a].DestroyHub?
    ensures Untouched(s, Drive(s, a, fates, {})) <==> !(a in s.hubs && TookEffect(Head(fates)))
  {
    var u := Apply(s, Advance(a, Head(fates), {}));
    DriveStep(s, a, fates, {});
    if a in s.hubs && TookEffect(Head(fates)) {
      assert a !in u.hubs;
      StepGoesDown(s, a, Head(fates));
      LostForGood(s, u, a, Tail(fates));
    } else {
      assert u.hubs == s.hubs;
      if Head(fates).Fine? { FromErase(u, a, Tail(fates)); } else { Ended(u, a, Tail(fates)); }
    }
  }

  lemma FromPut(s: State, a: Id, fates: seq<Fate>, p: nat, kept: seq<Id>)
    requires |s.pools| == PROVIDERS && p < PROVIDERS && a in s.tasks && s.tasks[a] == PutKept(p, kept, s.pools[p].version)
    ensures Untouched(s, Drive(s, a, fates, {})) <==> !TookEffect(Head(fates))
  {
    var u := Apply(s, Advance(a, Head(fates), {}));
    DriveStep(s, a, fates, {});
    if TookEffect(Head(fates)) {
      assert u.pools == Write(s, p, Some(kept)).pools;
      assert u.pools[p].version > s.pools[p].version;
      StepGoesDown(s, a, Head(fates));
      LostForGood(s, u, a, Tail(fates));
    } else {
      Ended(u, a, Tail(fates));
    }
  }

  lemma FromDelete(s: State, a: Id, fates: seq<Fate>, p: nat)
    requires |s.pools| == PROVIDERS && p < PROVIDERS && a in s.tasks && s.tasks[a] == DeletePool(p, s.pools[p].version)
    requires s.pools[p].members.Some? && !s.pools[p].policy
    ensures Untouched(s, Drive(s, a, fates, {})) <==> !TookEffect(Head(fates))
  {
    var u := Apply(s, Advance(a, Head(fates), {}));
    DriveStep(s, a, fates, {});
    if TookEffect(Head(fates)) {
      assert u.pools == Write(s, p, None).pools;
      assert u.pools[p].version > s.pools[p].version;
      StepGoesDown(s, a, Head(fates));
      LostForGood(s, u, a, Tail(fates));
    } else {
      Ended(u, a, Tail(fates));
    }
  }

  lemma FromDetach(s: State, a: Id, fates: seq<Fate>, p: nat)
    requires |s.pools| == PROVIDERS && p < PROVIDERS && a in s.tasks && s.tasks[a] == DetachPolicy(p, s.pools[p].version)
    requires s.pools[p].members.Some?
    ensures Untouched(s, Drive(s, a, fates, {})) <==>
            !(if s.pools[p].policy then TookEffect(Head(fates)) else Head(fates).Fine? && TookEffect(Head(Tail(fates))))
  {
    var u := Apply(s, Advance(a, Head(fates), {}));
    DriveStep(s, a, fates, {});
    if s.pools[p].policy && TookEffect(Head(fates)) {
      assert u.pools == WithPolicy(s, p, false).pools;
      assert !u.pools[p].policy;
      StepGoesDown(s, a, Head(fates));
      LostForGood(s, u, a, Tail(fates));
    } else if Head(fates).Fine? {
      assert s.pools[p].(policy := false) == s.pools[p];
      assert u.pools == s.pools;
      FromDelete(u, a, Tail(fates), p);
    } else {
      assert s.pools[p].policy || s.pools[p].(policy := false) == s.pools[p];
      Ended(u, a, Tail(fates));
    }
  }

  lemma FateShift(fates: seq<Fate>, i: nat)
    ensures FateAt(Tail(fates), i) == FateAt(fates, i + 1) && Head(fates) == FateAt(fates, 0)
  {
  }

  /** A pool without the account takes one call, its read. */
  lemma OnPastPool(s: State, a: Id, fates: seq<Fate>, p: nat)
    requires |s.pools| == PROVIDERS && p < PROVIDERS && !In(s.pools[p], a)
    ensures Touches(s, a, fates, p) <==> Head(fates).Fine? && Touches(s, a, Tail(fates), p + 1)
  {
    var n := CallsBefore(s, a, p + 1);
    forall i: nat ensures FateAt(Tail(fates), i) == FateAt(fates, i + 1) {
      FateShift(fates, i);
    }
    assert Something(s, a, p) <==> Something(s, a, p + 1);
    FateShift(fates, 0);
    if forall i :: 0 <= i < n + 1 ==> FateAt(fates, i).Fine? {
      forall i | 0 <= i < n ensures FateAt(Tail(fates), i).Fine? {
        assert FateAt(fates, i + 1).Fine?;
      }
    } else if Head(fates).Fine? && forall i :: 0 <= i < n ==> FateAt(Tail(fates), i).Fine? {
      forall i | 0 <= i < n + 1 ensures FateAt(fates, i).Fine? {
        if i > 0 { assert FateAt(Tail(fates), i - 1).Fine?; }
      }
    }
  }

  /** A pool with the account takes its read, and then the call that changes it. */
  lemma IntoPool(s: State, a: Id, fates: seq<Fate>, p: nat)
    requires |s.pools| == PROVIDERS && p < PROVIDERS && In(s.pools[p], a)
    ensures var bare := Alone(s.pools[p], a) && !s.pools[p].policy;
            Touches(s, a, fates, p) <==>
              Head(fates).Fine? && (if bare then Head(Tail(fates)).Fine? && TookEffect(Head(Tail(Tail(fates))))
                                    else TookEffect(Head(Tail(fates))))
  {
    FateShift(fates, 0);
    FateShift(fates, 1);
    FateShift(Tail(fates), 0);
    FateShift(Tail(Tail(fates)), 0);
    assert Something(s, a, p);
    var n := CallsBefore(s, a, p);
    if n == 1 {
      assert (forall i :: 0 <= i < n ==> FateAt(fates, i).Fine?) <==> FateAt(fates, 0).Fine?;
    } else {
      assert (forall i :: 0 <= i < n ==> FateAt(fates, i).Fine?) <==> FateAt(fates, 0).Fine? && FateAt(fates, 1).Fine?;
    }
  }

  lemma {:induction false} FromRead(s: State, a: Id, fates: seq<Fate>, p: nat)
    requires Inv(s) && p < PROVIDERS && a in s.tasks && s.tasks[a] == ReadToRemove(p)
    ensures Untouched(s, Drive(s, a, fates, {})) <==> !Touches(s, a, fates, p)
    decreases PROVIDERS - p
  {
    var u := Apply(s, Advance(a, Head(fates), {}));
    DriveStep(s, a, fates, {});
    StepKeeps(s, Advance(a, Head(fates), {}));
    if s.pools[p].members.Some? { WithoutIs(s.pools[p].members.value, a); }
    if In(s.pools[p], a) { IntoPool(s, a, fates, p); } else { OnPastPool(s, a, fates, p); }
    if !Head(fates).Fine? {
      Ended(u, a, Tail(fates));
    } else if !In(s.pools[p], a) {
      assert u == Goto(s, a, AfterRemoving(p));
      if p + 1 < PROVIDERS {
        FromRead(u, a, Tail(fates), p + 1);
        SameTouches(s, u, a, Tail(fates), p + 1);
      } else {
        FromDestroy(u, a, Tail(fates));
        FateShift(Tail(fates), 0);
      }
    } else if Alone(s.pools[p], a) {
      assert u == Goto(s, a, DetachPolicy(p, s.pools[p].version));
      FromDetach(u, a, Tail(fates), p);
    } else {
      assert u == Goto(s, a, PutKept(p, Without(s.pools[p].members.value, a), s.pools[p].version));
      FromPut(u, a, Tail(fates), p, Without(s.pools[p].members.value, a));
    }
  }

  lemma {:induction false} SameTouches(s: State, u: State, a: Id, fates: seq<Fate>, p: nat)
    requires |s.pools| == |u.pools| == PROVIDERS && Untouched(s, u)
    ensures Touches(s, a, fates, p) <==> Touches(u, a, fates, p)
  {
    SameCalls(s, u, a, p);
  }

  lemma {:induction false} SameCalls(s: State, u: State, a: Id, p: nat)
    requires |s.pools| == |u.pools| == PROVIDERS && Untouched(s, u)
    ensures CallsBefore(s, a, p) == CallsBefore(u, a, p)
    decreases PROVIDERS - p
  {
    if p < PROVIDERS {
      SameCalls(s, u, a, p + 1);
    }
  }

  /** A teardown, however it ends, leaves every pool, policy and hub as it was if and only if it
      does not get to the first call that would change something, or that call has no effect. */
  lemma TeardownTouchesExactly(s: State, a: Id, fates: seq<Fate>)
    requires Inv(s) && a in s.rows && a !in s.tasks
    ensures Untouched(s, Drive(Apply(s, DeleteAccount(a)), a, fates, {})) <==> !Touches(s, a, fates, 0)
  {
    var u := Apply(s, DeleteAccount(a));
    StepKeeps(s, DeleteAccount(a));
    FromRead(u, a, fates, 0);
    SameTouches(s, u, a, fates, 0);
  }

  // ---- two teardowns that fail and leave something changed ----

  lemma ThreeCalls(s: State, a: Id, x: Fate, y: Fate, z: Fate, s1: State, s2: State, s3: State)
    requires |s.pools| == |s1.pools| == |s2.pools| == PROVIDERS && a in s.tasks && a in s1.tasks && a in s2.tasks && a !in s3.tasks
    requires s1 == Apply(s, Advance(a, x, {})) && s2 == Apply(s1, Advance(a, y, {})) && s3 == Apply(s2, Advance(a, z, {}))
    ensures Drive(s, a, [x, y, z], {}) == s3
  {
    assert [x, y, z][1..] == [y, z] && [y, z][1..] == [z] && [z][1..] == [];
    DriveStep(s, a, [x, y, z], {});
    DriveStep(s1, a, [y, z], {});
    DriveStep(s2, a, [z], {});
    Ended(s3, a, []);
  }

  /** The last member's pool delete fails: the account is failed, its pool alive, the policy gone;
      so nothing is as before unless there was no policy. */
  lemma FailedDeleteLosesPolicy(s: State, a: Id)
    requires |s.pools| == PROVIDERS && a in s.rows && a !in s.tasks && s.pools[0].members == Some([a])
    ensures var t := Drive(Apply(s, DeleteAccount(a)), a, [Fine, Fine, Raises(false)], {});
            && a in t.rows && t.rows[a] == Failed && t.pools[0].members == Some([a]) && !t.pools[0].policy
            && (Untouched(s, t) <==> !s.pools[0].policy)
  {
    var (v, s0) := (s.pools[0].version, Apply(s, DeleteAccount(a)));
    assert [a][1..] == [] && Without([a], a) == [];
    var s1 := Goto(s0, a, DetachPolicy(0, v));
    assert Apply(s0, Advance(a, Fine, {})) == s1;
    var s2 := Goto(WithPolicy(s1, 0, false), a, DeletePool(0, v));
    assert Apply(s1, Advance(a, Fine, {})) == s2;
    var s3 := Stop(s2, a, Raises(false));
    assert Apply(s2, Advance(a, Raises(false), {})) == s3;
    ThreeCalls(s0, a, Fine, Fine, Raises(false), s1, s2, s3);
  }

  /** The second pool cannot be read: the account is failed, and out of the first pool already. */
  lemma FailedReadLeavesHalf(s: State, a: Id, b: Id)
    requires |s.pools| == PROVIDERS && a in s.rows && a !in s.tasks && a != b && s.pools[0].members == Some([a, b])
    ensures var t := Drive(Apply(s, DeleteAccount(a)), a, [Fine, Fine, Raises(false)], {});
            a in t.rows && t.rows[a] == Failed && t.pools[0].members == Some([b]) && t.pools[0].policy == s.pools[0].policy
  {
    var (v, s0) := (s.pools[0].version, Apply(s, DeleteAccount(a)));
    assert [a, b][1..] == [b] && [b][1..] == [];
    assert Without([b], a) == [b] + Without([], a) == [b];
    assert Without([a, b], a) == [] + Without([b], a) == [b];
    var s1 := Goto(s0, a, PutKept(0, [b], v));
    assert Apply(s0, Advance(a, Fine, {})) == s1;
    var s2 := Goto(Write(s1, 0, Some([b])), a, ReadToRemove(1));
    assert Apply(s1, Advance(a, Fine, {})) == s2;
    var s3 := Stop(s2, a, Raises(false));
    assert Apply(s2, Advance(a, Raises(false), {})) == s3;
    ThreeCalls(s0, a, Fine, Fine, Raises(false), s1, s2, s3);
  }
}
