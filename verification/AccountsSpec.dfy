/**
  The life of GitHub accounts: each has a row, a hub, and a place in one backend pool per
  provider. Background tasks deploy and tear down accounts; the reads and writes of different
  tasks interleave, and any external call may fail, with or without having taken effect.
 */
module AccountsSpec {
  import opened Wrappers

  type Id = string

  datatype Status = Pending | Deploying | Ready | Failed | Deleting

  /** A backend pool: absent, or its members. `version` is its ETag, and `policy` whether the
      provider's API policy, which names the pool, is in place. */
  datatype Pool = Pool(members: Option<seq<Id>>, version: nat, policy: bool)

  /** Where a background task is. A read pool waits to be written back under the ETag it was
      read with, or, having been absent, to be created without one. */
  datatype Task =
    | DeployHub
    | StoreSecrets
    | ReadToAdd(p: nat)
    | PutAdded(p: nat, services: seq<Id>, etag: Option<nat>)
    | RegisterCatalog
    | ReadToRemove(p: nat)
    | PutKept(p: nat, services: seq<Id>, seen: nat)
    | DetachPolicy(p: nat, seen: nat)
    | DeletePool(p: nat, seen: nat)
    | DestroyHub
    | EraseRow

  /** How an external call goes: it works; it raises; or the process dies during it. */
  datatype Fate = Fine | Raises(applied: bool) | Dies(applied: bool)

  datatype State = State(rows: map<Id, Status>, hubs: set<Id>, pools: seq<Pool>, tasks: map<Id, Task>)

  const PROVIDERS := 3

  datatype Step =
    | StartAccount(id: Id)
    | Authorize(id: Id)
    | DeleteAccount(id: Id)
    | ResyncCatalog(id: Id, attach: set<nat>)
    | Advance(id: Id, fate: Fate, attach: set<nat>)

  const START := State(map[], {}, [Pool(None, 0, false), Pool(None, 0, false), Pool(None, 0, false)], map[])

  function Goto(s: State, a: Id, t: Task): State { s.(tasks := s.tasks[a := t]) }

  /** The task ends: as `_fail` ends it, or leaving the row as it is. */
  function Stop(s: State, a: Id, fate: Fate): State {
    s.(tasks := s.tasks - {a}, rows := if fate.Dies? then s.rows else s.rows[a := Failed])
  }

  predicate TookEffect(fate: Fate) { fate.Fine? || fate.applied }

  /** After a call: on to `t`, or stopped. */
  function Then(s: State, a: Id, fate: Fate, t: Task): State {
    if fate.Fine? then Goto(s, a, t) else Stop(s, a, fate)
  }

  function Write(s: State, p: nat, members: Option<seq<Id>>): State
    requires p < |s.pools|
  {
    s.(pools := s.pools[p := Pool(members, s.pools[p].version + 1, s.pools[p].policy)])
  }

  function WithPolicy(s: State, p: nat, attached: bool): State
    requires p < |s.pools|
  {
    s.(pools := s.pools[p := s.pools[p].(policy := attached)])
  }

  function AfterAdding(p: nat): Task { if p + 1 < PROVIDERS then ReadToAdd(p + 1) else RegisterCatalog }

  function AfterRemoving(p: nat): Task { if p + 1 < PROVIDERS then ReadToRemove(p + 1) else DestroyHub }

  function Without(ms: seq<Id>, a: Id): seq<Id> {
    if ms == [] then [] else (if ms[0] == a then [] else [ms[0]]) + Without(ms[1..], a)
  }

  /** `_pool_add_service` up to its PUT. */
  function AddRead(s: State, a: Id, p: nat): State
    requires p < |s.pools|
  {
    match s.pools[p].members
    case None => Goto(s, a, PutAdded(p, [a], None))
    case Some(ms) => if a in ms then Goto(s, a, AfterAdding(p)) else Goto(s, a, PutAdded(p, ms + [a], Some(s.pools[p].version)))
  }

  /** Its PUT: with If-Match, or without when the pool was absent. */
  function AddPut(s: State, a: Id, p: nat, services: seq<Id>, etag: Option<nat>, fate: Fate): State
    requires p < |s.pools|
  {
    if etag.None? || etag.value == s.pools[p].version
    then Then(if TookEffect(fate) then Write(s, p, Some(services)) else s, a, fate, AfterAdding(p))
    else Stop(s, a, if fate.Dies? then fate else Raises(false))
  }

  /** `_pool_remove_service` up to its write. */
  function RemoveRead(s: State, a: Id, p: nat): State
    requires p < |s.pools|
  {
    match s.pools[p].members
    case None => Goto(s, a, AfterRemoving(p))
    case Some(ms) =>
      var kept := Without(ms, a);
      if |kept| == |ms| then Goto(s, a, AfterRemoving(p))
      else if kept == [] then Goto(s, a, DetachPolicy(p, s.pools[p].version))
      else Goto(s, a, PutKept(p, kept, s.pools[p].version))
  }

  function RemovePut(s: State, a: Id, p: nat, kept: seq<Id>, seen: nat, fate: Fate): State
    requires p < |s.pools|
  {
    if seen == s.pools[p].version
    then Then(if TookEffect(fate) then Write(s, p, Some(kept)) else s, a, fate, AfterRemoving(p))
    else Stop(s, a, if fate.Dies? then fate else Raises(false))
  }

  /** The gateway refuses to delete a pool that a policy names; an absent pool is fine. */
  function PoolDelete(s: State, a: Id, p: nat, seen: nat, fate: Fate): State
    requires p < |s.pools|
  {
    if s.pools[p].members.None? then Then(s, a, fate, AfterRemoving(p))
    else if s.pools[p].policy || seen != s.pools[p].version then Stop(s, a, if fate.Dies? then fate else Raises(false))
    else Then(if TookEffect(fate) then Write(s, p, None) else s, a, fate, AfterRemoving(p))
  }

  function Attached(pools: seq<Pool>, attach: set<nat>): seq<Pool> {
    seq(|pools|, i requires 0 <= i < |pools| => if i in attach then pools[i].(policy := true) else pools[i])
  }

  function DeployStep(s: State, a: Id, t: Task, fate: Fate, attach: set<nat>): State
    requires |s.pools| == PROVIDERS
  {
    match t
    case DeployHub => Then(if TookEffect(fate) then s.(hubs := s.hubs + {a}) else s, a, fate, StoreSecrets)
    case StoreSecrets => Then(s, a, fate, ReadToAdd(0))
    case ReadToAdd(p) => if p < PROVIDERS && fate.Fine? then AddRead(s, a, p) else Stop(s, a, fate)
    case PutAdded(p, services, etag) => if p < PROVIDERS then AddPut(s, a, p, services, etag, fate) else Stop(s, a, fate)
    case RegisterCatalog =>
      var s1 := s.(pools := Attached(s.pools, attach));
      if fate.Fine? then s1.(rows := s1.rows[a := Ready], tasks := s1.tasks - {a}) else Stop(s1, a, fate)
    case _ => s
  }

  function TeardownStep(s: State, a: Id, t: Task, fate: Fate): State
    requires |s.pools| == PROVIDERS
  {
    match t
    case ReadToRemove(p) => if p < PROVIDERS && fate.Fine? then RemoveRead(s, a, p) else Stop(s, a, fate)
    case PutKept(p, kept, seen) => if p < PROVIDERS then RemovePut(s, a, p, kept, seen, fate) else Stop(s, a, fate)
    case DetachPolicy(p, seen) =>
      if p < PROVIDERS then Then(if TookEffect(fate) then WithPolicy(s, p, false) else s, a, fate, DeletePool(p, seen))
      else Stop(s, a, fate)
    case DeletePool(p, seen) => if p < PROVIDERS then PoolDelete(s, a, p, seen, fate) else Stop(s, a, fate)
    case DestroyHub => Then(if TookEffect(fate) then s.(hubs := s.hubs - {a}) else s, a, fate, EraseRow)
    case EraseRow => if TookEffect(fate) then s.(rows := s.rows - {a}, tasks := s.tasks - {a}) else s.(tasks := s.tasks - {a})
    case _ => s
  }

  predicate IsDeploy(t: Task) { t.DeployHub? || t.StoreSecrets? || t.ReadToAdd? || t.PutAdded? || t.RegisterCatalog? }

  /** At most one background task per account: a deletion waits for the deploy to end. */
  function Apply(s: State, step: Step): State
    requires |s.pools| == PROVIDERS
  {
    var a := step.id;
    match step
    case StartAccount(_) => if a in s.rows then s else s.(rows := s.rows[a := Pending])
    case Authorize(_) =>
      if a in s.rows && s.rows[a] == Pending && a !in s.tasks
      then Goto(s.(rows := s.rows[a := Deploying]), a, DeployHub) else s
    case DeleteAccount(_) =>
      if a in s.rows && a !in s.tasks then Goto(s.(rows := s.rows[a := Deleting]), a, ReadToRemove(0)) else s
    case ResyncCatalog(_, attach) => if a in s.rows then s.(pools := Attached(s.pools, attach)) else s
    case Advance(_, fate, attach) =>
      if a !in s.tasks then s
      else if IsDeploy(s.tasks[a]) then DeployStep(s, a, s.tasks[a], fate, attach)
      else TeardownStep(s, a, s.tasks[a], fate)
  }

  lemma PoolsStay(s: State, step: Step)
    requires |s.pools| == PROVIDERS
    ensures |Apply(s, step).pools| == PROVIDERS
  {
  }

  function Run(s: State, steps: seq<Step>): (t: State)
    requires |s.pools| == PROVIDERS
    ensures |t.pools| == PROVIDERS
    decreases |steps|
  {
    if steps == [] then s
    else
      PoolsStay(s, steps[0]);
      Run(Apply(s, steps[0]), steps[1..])
  }

  // ---- one task by itself ----

  /** No task goes back: the steps a task has left at most. */
  function Rank(t: Task): nat {
    match t
    case DeployHub => 20
    case StoreSecrets => 19
    case ReadToAdd(p) => if p < PROVIDERS then 2 + 2 * (PROVIDERS - p) else 0
    case PutAdded(p, _, _) => if p < PROVIDERS then 1 + 2 * (PROVIDERS - p) else 0
    case RegisterCatalog => 0
    case ReadToRemove(p) => if p < PROVIDERS then 2 + 4 * (PROVIDERS - p) else 0
    case PutKept(p, _, _) => if p < PROVIDERS then 1 + 4 * (PROVIDERS - p) else 0
    case DetachPolicy(p, _) => if p < PROVIDERS then 1 + 4 * (PROVIDERS - p) else 0
    case DeletePool(p, _) => if p < PROVIDERS then 4 * (PROVIDERS - p) else 0
    case DestroyHub => 1
    case EraseRow => 0
  }

  lemma DeployMovesOn(s: State, a: Id, fate: Fate, attach: set<nat>)
    requires |s.pools| == PROVIDERS && a in s.tasks && IsDeploy(s.tasks[a])
    ensures var t := DeployStep(s, a, s.tasks[a], fate, attach); a in t.tasks ==> Rank(t.tasks[a]) < Rank(s.tasks[a])
  {
  }

  lemma TeardownMovesOn(s: State, a: Id, fate: Fate)
    requires |s.pools| == PROVIDERS && a in s.tasks && !IsDeploy(s.tasks[a])
    ensures var t := TeardownStep(s, a, s.tasks[a], fate); a in t.tasks ==> Rank(t.tasks[a]) < Rank(s.tasks[a])
  {
  }

  lemma TaskMovesOn(s: State, a: Id, fate: Fate, attach: set<nat>)
    requires |s.pools| == PROVIDERS && a in s.tasks
    ensures var t := Apply(s, Advance(a, fate, attach)); a in t.tasks ==> Rank(t.tasks[a]) < Rank(s.tasks[a])
  {
    if IsDeploy(s.tasks[a]) { DeployMovesOn(s, a, fate, attach); } else { TeardownMovesOn(s, a, fate); }
  }

  /** The task of `a` run to its end with no other task in between; once the fates given are
      used up, every call works. */
  function Drive(s: State, a: Id, fates: seq<Fate>, attach: set<nat>): (t: State)
    requires |s.pools| == PROVIDERS
    ensures |t.pools| == PROVIDERS
    decreases if a in s.tasks then Rank(s.tasks[a]) + 1 else 0
  {
    if a !in s.tasks then s
    else
      var fate := Head(fates);
      PoolsStay(s, Advance(a, fate, attach));
      TaskMovesOn(s, a, fate, attach);
      Drive(Apply(s, Advance(a, fate, attach)), a, Tail(fates), attach)
  }

  /** The fate of a task's next call, and those of the calls after it. */
  function Head(fates: seq<Fate>): Fate { if fates == [] then Fine else fates[0] }

  function Tail(fates: seq<Fate>): seq<Fate> { if fates == [] then [] else fates[1..] }

  lemma DriveStep(s: State, a: Id, fates: seq<Fate>, attach: set<nat>)
    requires |s.pools| == PROVIDERS && a in s.tasks
    ensures |Apply(s, Advance(a, Head(fates), attach)).pools| == PROVIDERS
    ensures Drive(s, a, fates, attach) == Drive(Apply(s, Advance(a, Head(fates), attach)), a, Tail(fates), attach)
  {
    PoolsStay(s, Advance(a, Head(fates), attach));
    TaskMovesOn(s, a, Head(fates), attach);
  }
}
