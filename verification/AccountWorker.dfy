/** The two background tasks, run each by itself: what `_deploy_account` and `_teardown_account`
    do to rows, hubs, pools and policies as their calls succeed or fail. */
module AccountWorker {
  import opened Wrappers
  import opened AccountsSpec

  class Worker {
    var rows: map<Id, Status>
    var hubs: set<Id>
    var pools: seq<Pool>
    ghost var others: map<Id, Task>

    /** The state between tasks, and the state in which `a` is at task `t`. */
    ghost function View(): State
      reads this
    {
      State(rows, hubs, pools, others)
    }

    ghost function At(a: Id, t: Task): State
      reads this
    {
      State(rows, hubs, pools, others[a := t])
    }

    ghost predicate Valid(a: Id)
      reads this
    {
      |pools| == PROVIDERS && a in rows && a !in others
    }

    constructor (r: map<Id, Status>, h: set<Id>, p: seq<Pool>, ghost o: map<Id, Task>)
      ensures View() == State(r, h, p, o)
    {
      rows, hubs, pools, others := r, h, p, o;
    }

    method Fail(a: Id, fate: Fate)
      requires Valid(a)
      modifies this`rows
      ensures rows == if fate.Dies? then old(rows) else old(rows)[a := Failed]
    {
      if !fate.Dies? { rows := rows[a := Failed]; }
    }

    ghost function Done(a: Id, t: Task, ok: bool, rest: seq<Fate>, attach: set<nat>): State
      requires |pools| == PROVIDERS
      reads this
    {
      if ok then Drive(At(a, t), a, rest, attach) else View()
    }

    /** `_pool_add_service` for one provider, the backend being registered with the read. */
    method AddService(a: Id, p: nat, fates: seq<Fate>, ghost attach: set<nat>) returns (ok: bool, rest: seq<Fate>)
      requires Valid(a) && p < PROVIDERS
      modifies this`rows, this`pools
      ensures Valid(a)
      ensures Drive(old(At(a, ReadToAdd(p))), a, fates, attach) == Done(a, AfterAdding(p), ok, rest, attach)
    {
      ghost var s := At(a, ReadToAdd(p));
      var fate := Head(fates);
      rest := Tail(fates);
      DriveStep(s, a, fates, attach);
      if !fate.Fine? {
        Fail(a, fate);
        Stopped(s, a, fate, View(), rest, attach);
        return false, rest;
      }
      var services, etag := [a], None;
      if pools[p].members.Some? {
        if a in pools[p].members.value {
          Moved(s, a, AfterAdding(p), At(a, AfterAdding(p)));
          return true, rest;
        }
        services, etag := pools[p].members.value + [a], Some(pools[p].version);
      }
      ghost var t := At(a, PutAdded(p, services, etag));
      Moved(s, a, PutAdded(p, services, etag), t);
      fate := Head(rest);
      DriveStep(t, a, rest, attach);
      rest := Tail(rest);
      if TookEffect(fate) {
        pools := pools[p := Pool(Some(services), pools[p].version + 1, pools[p].policy)];
      }
      ghost var u := t.(pools := pools);
      if !fate.Fine? {
        Fail(a, fate);
        Stopped(u, a, fate, View(), rest, attach);
        return false, rest;
      }
      Moved(u, a, AfterAdding(p), At(a, AfterAdding(p)));
      return true, rest;
    }

    /** The hub deployed, then its secrets stored. */
    method RaiseHub(a: Id, fates: seq<Fate>, ghost attach: set<nat>) returns (ok: bool, rest: seq<Fate>)
      requires Valid(a)
      modifies this`rows, this`hubs
      ensures Valid(a)
      ensures Drive(old(At(a, DeployHub)), a, fates, attach) == Done(a, ReadToAdd(0), ok, rest, attach)
    {
      ghost var s := At(a, DeployHub);
      var fate := Head(fates);
      rest := Tail(fates);
      DriveStep(s, a, fates, attach);
      if TookEffect(fate) { hubs := hubs + {a}; }
      s := s.(hubs := hubs);
      if !fate.Fine? {
        Fail(a, fate);
        Stopped(s, a, fate, View(), rest, attach);
        return false, rest;
      }
      Moved(s, a, StoreSecrets, At(a, StoreSecrets));
      s := At(a, StoreSecrets);
      DriveStep(s, a, rest, attach);
      fate := Head(rest);
      rest := Tail(rest);
      if !fate.Fine? {
        Fail(a, fate);
        Stopped(s, a, fate, View(), rest, attach);
        return false, rest;
      }
      Moved(s, a, ReadToAdd(0), At(a, ReadToAdd(0)));
      return true, rest;
    }

    /** The models registered as well as can be, and the account ready. */
    method RegisterAndFinish(a: Id, fates: seq<Fate>, attach: set<nat>)
      requires Valid(a)
      modifies this`rows, this`pools
      ensures View() == Drive(old(At(a, RegisterCatalog)), a, fates, attach)
    {
      ghost var s := At(a, RegisterCatalog);
      DriveStep(s, a, fates, attach);
      var fate := Head(fates);
      pools := Attached(pools, attach);
      s := s.(pools := pools);
      if !fate.Fine? {
        Fail(a, fate);
        Stopped(s, a, fate, View(), Tail(fates), attach);
        return;
      }
      rows := rows[a := Ready];
      assert s.tasks - {a} == others;
    }

    /** `_deploy_account`: hub, secrets, the three pools, catalog, and ready. */
    method DeployAccount(a: Id, fates: seq<Fate>, attach: set<nat>)
      requires Valid(a)
      modifies this
      ensures View() == Drive(old(At(a, DeployHub)), a, fates, attach)
    {
      var ok, rest := RaiseHub(a, fates, attach);
      if !ok { return; }
      for p := 0 to PROVIDERS
        invariant Valid(a) && others == old(others)
        invariant Drive(At(a, if p == PROVIDERS then RegisterCatalog else ReadToAdd(p)), a, rest, attach) ==
                  Drive(old(At(a, DeployHub)), a, fates, attach)
      {
        ok, rest := AddService(a, p, rest, attach);
        if !ok { return; }
      }
      RegisterAndFinish(a, rest, attach);
    }

    /** The pool written back without `a`. */
    method PutKeptServices(a: Id, p: nat, kept: seq<Id>, fates: seq<Fate>) returns (ok: bool, rest: seq<Fate>)
      requires Valid(a) && p < PROVIDERS
      modifies this`rows, this`pools
      ensures Valid(a)
      ensures Drive(old(At(a, PutKept(p, kept, pools[p].version))), a, fates, {}) == Done(a, AfterRemoving(p), ok, rest, {})
    {
      ghost var s := At(a, PutKept(p, kept, pools[p].version));
      DriveStep(s, a, fates, {});
      var fate := Head(fates);
      rest := Tail(fates);
      if TookEffect(fate) {
        pools := pools[p := Pool(Some(kept), pools[p].version + 1, pools[p].policy)];
      }
      s := s.(pools := pools);
      if !fate.Fine? {
        Fail(a, fate);
        Stopped(s, a, fate, View(), rest, {});
        return false, rest;
      }
      Moved(s, a, AfterRemoving(p), At(a, AfterRemoving(p)));
      return true, rest;
    }

    method DetachApiPolicy(a: Id, p: nat, fates: seq<Fate>) returns (ok: bool, rest: seq<Fate>)
      requires Valid(a) && p < PROVIDERS
      modifies this`rows, this`pools
      ensures Valid(a) && pools[p].version == old(pools[p].version)
      ensures ok ==> !pools[p].policy && pools[p].members == old(pools[p].members)
      ensures Drive(old(At(a, DetachPolicy(p, pools[p].version))), a, fates, {}) ==
              Done(a, DeletePool(p, pools[p].version), ok, rest, {})
    {
      ghost var s := At(a, DetachPolicy(p, pools[p].version));
      DriveStep(s, a, fates, {});
      var fate := Head(fates);
      rest := Tail(fates);
      if TookEffect(fate) { pools := pools[p := pools[p].(policy := false)]; }
      s := s.(pools := pools);
      if !fate.Fine? {
        Fail(a, fate);
        Stopped(s, a, fate, View(), rest, {});
        return false, rest;
      }
      Moved(s, a, DeletePool(p, pools[p].version), At(a, DeletePool(p, pools[p].version)));
      return true, rest;
    }

    /** The pool of the last member: policy off, then the pool deleted. */
    method DeleteLastPool(a: Id, p: nat, fates: seq<Fate>) returns (ok: bool, rest: seq<Fate>)
      requires Valid(a) && p < PROVIDERS && pools[p].members.Some?
      modifies this`rows, this`pools
      ensures Valid(a)
      ensures Drive(old(At(a, DetachPolicy(p, pools[p].version))), a, fates, {}) == Done(a, AfterRemoving(p), ok, rest, {})
    {
      ok, rest := DetachApiPolicy(a, p, fates);
      if ok {
        ok, rest := DeleteDetachedPool(a, p, rest);
      }
    }

    method DeleteDetachedPool(a: Id, p: nat, fates: seq<Fate>) returns (ok: bool, rest: seq<Fate>)
      requires Valid(a) && p < PROVIDERS && pools[p].members.Some? && !pools[p].policy
      modifies this`rows, this`pools
      ensures Valid(a)
      ensures Drive(old(At(a, DeletePool(p, pools[p].version))), a, fates, {}) == Done(a, AfterRemoving(p), ok, rest, {})
    {
      ghost var s := At(a, DeletePool(p, pools[p].version));
      DriveStep(s, a, fates, {});
      var fate := Head(fates);
      rest := Tail(fates);
      if TookEffect(fate) {
        pools := pools[p := Pool(None, pools[p].version + 1, pools[p].policy)];
      }
      s := s.(pools := pools);
      if !fate.Fine? {
        Fail(a, fate);
        Stopped(s, a, fate, View(), rest, {});
        return false, rest;
      }
      Moved(s, a, AfterRemoving(p), At(a, AfterRemoving(p)));
      return true, rest;
    }

    /** `_pool_remove_service` for one provider. */
    method RemoveService(a: Id, p: nat, fates: seq<Fate>) returns (ok: bool, rest: seq<Fate>)
      requires Valid(a) && p < PROVIDERS
      modifies this`rows, this`pools
      ensures Valid(a)
      ensures Drive(old(At(a, ReadToRemove(p))), a, fates, {}) == Done(a, AfterRemoving(p), ok, rest, {})
    {
      ghost var s := At(a, ReadToRemove(p));
      DriveStep(s, a, fates, {});
      var fate := Head(fates);
      rest := Tail(fates);
      if !fate.Fine? {
        Fail(a, fate);
        Stopped(s, a, fate, View(), rest, {});
        return false, rest;
      }
      if pools[p].members.None? || |Without(pools[p].members.value, a)| == |pools[p].members.value| {
        Moved(s, a, AfterRemoving(p), At(a, AfterRemoving(p)));
        return true, rest;
      }
      var kept := Without(pools[p].members.value, a);
      if kept == [] {
        Moved(s, a, DetachPolicy(p, pools[p].version), At(a, DetachPolicy(p, pools[p].version)));
        ok, rest := DeleteLastPool(a, p, rest);
      } else {
        Moved(s, a, PutKept(p, kept, pools[p].version), At(a, PutKept(p, kept, pools[p].version)));
        ok, rest := PutKeptServices(a, p, kept, rest);
      }
    }

    /** `_teardown_account`: out of the three pools, hub destroyed, row erased; each step only
        once the one before has succeeded. */
    method TeardownAccount(a: Id, fates: seq<Fate>)
      requires Valid(a)
      modifies this
      ensures |pools| == PROVIDERS
      ensures View() == Drive(old(At(a, ReadToRemove(0))), a, fates, {})
    {
      var rest := fates;
      for p := 0 to PROVIDERS
        invariant Valid(a) && others == old(others)
        invariant Drive(At(a, if p == PROVIDERS then DestroyHub else ReadToRemove(p)), a, rest, {}) ==
                  Drive(old(At(a, ReadToRemove(0))), a, fates, {})
      {
        var ok;
        ok, rest := RemoveService(a, p, rest);
        if !ok { return; }
      }
      DestroyAndErase(a, rest);
    }

    /** The hub destroyed, and only then the row erased. */
    method DestroyAndErase(a: Id, fates: seq<Fate>)
      requires Valid(a)
      modifies this`rows, this`hubs
      ensures View() == Drive(old(At(a, DestroyHub)), a, fates, {})
    {
      ghost var s := At(a, DestroyHub);
      DriveStep(s, a, fates, {});
      var fate := Head(fates);
      var rest := Tail(fates);
      if TookEffect(fate) { hubs := hubs - {a}; }
      s := s.(hubs := hubs);
      if !fate.Fine? {
        Fail(a, fate);
        Stopped(s, a, fate, View(), rest, {});
        return;
      }
      Moved(s, a, EraseRow, At(a, EraseRow));
      s := At(a, EraseRow);
      DriveStep(s, a, rest, {});
      fate := Head(rest);
      if TookEffect(fate) { rows := rows - {a}; }
      assert s.tasks - {a} == others;
    }
  }

  /** The task has stopped, and `t` is what is left. */
  lemma Stopped(s: State, a: Id, fate: Fate, t: State, rest: seq<Fate>, attach: set<nat>)
    requires |s.pools| == PROVIDERS && a in s.tasks && a !in t.tasks && s.tasks == t.tasks[a := s.tasks[a]]
    requires t == State(if fate.Dies? then s.rows else s.rows[a := Failed], s.hubs, s.pools, t.tasks)
    ensures Stop(s, a, fate) == t && Drive(Stop(s, a, fate), a, rest, attach) == t
  {
    assert s.tasks - {a} == t.tasks;
  }

  lemma Moved(s: State, a: Id, next: Task, t: State)
    requires t.rows == s.rows && t.hubs == s.hubs && t.pools == s.pools
    requires t.tasks[a := next] == s.tasks[a := next] && a in t.tasks && t.tasks[a] == next
    ensures Goto(s, a, next) == t
  {
    assert t.tasks[a := next] == t.tasks;
  }
}
