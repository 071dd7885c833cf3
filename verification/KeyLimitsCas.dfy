/**
  Many writers share the named value with the per-key map: each call reads it with its etag,
  merges its change and writes it back on the condition that the etag still holds, up to three
  times.
 */
module KeyLimitsCas {
  import opened Wrappers
  import opened KeyLimits

  /** How a call ended: written, nothing to do, or one of three ways to raise. */
  datatype Outcome = Written | Nothing | OverCap | Conflict | Failed

  /** A call in progress, `since` being the number of writes there had been when it began. The
      merged map waits to be written; `read` is the map that was read, `seen` its etag, and
      `tagged` whether the read gave the etag away. */
  datatype Client =
    | Reading(op: Op, since: nat, attempt: nat)
    | Writing(op: Op, since: nat, attempt: nat, merged: Limits, read: Limits, seen: nat, tagged: bool)
    | Ended(op: Op, since: nat, outcome: Outcome)

  datatype Commit = Commit(client: int, op: Op)

  /** The value's etag is the number of writes so far. */
  datatype State = State(value: Limits, log: seq<Commit>, clients: map<int, Client>)

  /** One await-free step of one call. A read may fail, or come without an etag; a write may be
      answered with an error although it took effect. */
  datatype Step =
    | Call(client: int, op: Op)
    | Read(client: int, tagged: bool)
    | ReadFails(client: int)
    | Write(client: int)
    | WriteFails(client: int, applied: bool)

  function Start(m: Limits): State { State(m, [], map[]) }

  function Set(s: State, c: int, x: Client): State { s.(clients := s.clients[c := x]) }

  /** Whether the call returns without writing, given what it read. */
  predicate NothingToDo(m: Limits, op: Op) {
    match op
    case SetLimits(_, _, _, _) => false
    case SetAudit(subs, enabled) => WithAudit(m, subs, enabled) == m
    case Remove(sub) => sub !in m
  }

  ghost function Merged(s: State, c: int, x: Client, tagged: bool): State
    requires x.Reading?
  {
    match Merge(s.value, x.op)
    case Err(_) => Set(s, c, Ended(x.op, x.since, OverCap))
    case Ok(m) =>
      if NothingToDo(s.value, x.op) then Set(s, c, Ended(x.op, x.since, Nothing))
      else Set(s, c, Writing(x.op, x.since, x.attempt, m, s.value, |s.log|, tagged))
  }

  /** Without an etag the write goes out under If-Match `*`. */
  predicate Matches(s: State, x: Client)
    requires x.Writing?
  {
    !x.tagged || x.seen == |s.log|
  }

  function Committed(s: State, c: int, x: Client, outcome: Outcome): State
    requires x.Writing?
  {
    State(x.merged, s.log + [Commit(c, x.op)], s.clients[c := Ended(x.op, x.since, outcome)])
  }

  function Sent(s: State, c: int, x: Client): State
    requires x.Writing?
  {
    if Matches(s, x) then Committed(s, c, x, Written)
    else if x.attempt < 2 then Set(s, c, Reading(x.op, x.since, x.attempt + 1))
    else Set(s, c, Ended(x.op, x.since, Conflict))
  }

  function SentInVain(s: State, c: int, x: Client, applied: bool): State
    requires x.Writing?
  {
    if applied && Matches(s, x) then Committed(s, c, x, Failed) else Set(s, c, Ended(x.op, x.since, Failed))
  }

  ghost function Apply(s: State, step: Step): State {
    var c := step.client;
    if step.Call? then
      if c in s.clients then s
      else if step.op.SetAudit? && step.op.subs == [] then Set(s, c, Ended(step.op, |s.log|, Nothing))
      else Set(s, c, Reading(step.op, |s.log|, 0))
    else if c !in s.clients then s
    else
      var x := s.clients[c];
      match step
      case Read(_, tagged) => if x.Reading? then Merged(s, c, x, tagged) else s
      case ReadFails(_) => if x.Reading? then Set(s, c, Ended(x.op, x.since, Failed)) else s
      case Write(_) => if x.Writing? then Sent(s, c, x) else s
      case WriteFails(_, applied) => if x.Writing? then SentInVain(s, c, x, applied) else s
  }

  ghost function Run(s: State, steps: seq<Step>): State
    decreases |steps|
  {
    if steps == [] then s else Run(Apply(s, steps[0]), steps[1..])
  }

  /** What a reading call becomes: it ends, over the cap or with nothing to do, or has a map to write. */
  lemma MergedIs(s: State, c: int, x: Client, tagged: bool)
    requires x.Reading?
    ensures var t := Merged(s, c, x, tagged);
            || (t == Set(s, c, Ended(x.op, x.since, OverCap)) && Merge(s.value, x.op).Err?)
            || (t == Set(s, c, Ended(x.op, x.since, Nothing)) && NothingToDo(s.value, x.op))
            || (Merge(s.value, x.op).Ok?
                && t == Set(s, c, Writing(x.op, x.since, x.attempt, Merge(s.value, x.op).value, s.value, |s.log|, tagged)))
  {
  }

  // ---- one after the other ----

  /** The committed operations applied one after another; an error if one does not merge. */
  ghost function Serial(m: Limits, log: seq<Commit>): Result<Limits, Problem> {
    if log == [] then Ok(m) else Then(Serial(m, log[..|log| - 1]), log[|log| - 1].op)
  }

  predicate Absent(log: seq<Commit>, c: int) { forall i :: 0 <= i < |log| ==> log[i].client != c }

  /** Exactly one commit of the call, made after it began. */
  ghost predicate Once(log: seq<Commit>, c: int, op: Op, since: nat) {
    exists i :: since <= i < |log| && log[i] == Commit(c, op) && forall j :: 0 <= j < |log| && j != i ==> log[j].client != c
  }

  /** The map as it was after the first `n` commits. */
  ghost function At(m: Limits, log: seq<Commit>, n: nat): Result<Limits, Problem>
    requires n <= |log|
  {
    Serial(m, log[..n])
  }

  ghost predicate IdleAt(m: Limits, log: seq<Commit>, op: Op, n: nat)
    requires n <= |log|
  {
    At(m, log, n).Ok? && NothingToDo(At(m, log, n).value, op)
  }

  ghost predicate OverAt(m: Limits, log: seq<Commit>, op: Op, n: nat)
    requires n <= |log|
  {
    At(m, log, n).Ok? && Merge(At(m, log, n).value, op).Err?
  }

  /** An ended call was committed once, or never, or one of the two if it met an error; and
      beaten by three commits of others if it says so. */
  ghost predicate EndedOnce(log: seq<Commit>, c: int, x: Client)
    requires x.Ended?
  {
    match x.outcome
    case Written => Once(log, c, x.op, x.since)
    case Conflict => Absent(log, c) && x.since + 3 <= |log|
    case Failed => Absent(log, c) || Once(log, c, x.op, x.since)
    case _ => Absent(log, c)
  }

  /** And if it was a no-op or over the cap, it was so on a map that was current during it. */
  ghost predicate EndedWell(m: Limits, log: seq<Commit>, c: int, x: Client)
    requires x.Ended?
  {
    && EndedOnce(log, c, x)
    && (x.outcome == Nothing ==> exists n :: x.since <= n <= |log| && IdleAt(m, log, x.op, n))
    && (x.outcome == OverCap ==> exists n :: x.since <= n <= |log| && OverAt(m, log, x.op, n))
  }

  /** What is known of a call in any run. */
  ghost predicate CallOk(log: seq<Commit>, c: int, x: Client) {
    match x
    case Reading(op, since, attempt) => Absent(log, c) && attempt < 3 && since + attempt <= |log|
    case Writing(op, since, attempt, _, _, seen, _) =>
      Absent(log, c) && attempt < 3 && since + attempt <= seen <= |log|
    case Ended(_, _, _) => EndedOnce(log, c, x)
  }

  /** What is known of it in a run that loses nothing. */
  ghost predicate ClientOk(m: Limits, value: Limits, log: seq<Commit>, c: int, x: Client) {
    && CallOk(log, c, x)
    && (x.Writing? ==> Merge(x.read, x.op) == Ok(x.merged) && (x.seen == |log| ==> x.read == value))
    && (x.Ended? ==> EndedWell(m, log, c, x))
  }

  ghost predicate Inv(m: Limits, s: State) {
    && Serial(m, s.log) == Ok(s.value)
    && (forall c :: c in s.clients ==> ClientOk(m, s.value, s.log, c, s.clients[c]))
    && (forall i :: 0 <= i < |s.log| ==> s.log[i].client in s.clients)
  }

  lemma OthersStay(log: seq<Commit>, c: int, x: Client, other: Commit)
    requires CallOk(log, c, x) && other.client != c
    ensures CallOk(log + [other], c, x)
  {
    if x.Ended? && Once(log, c, x.op, x.since) {
      OnceKept(log, c, x.op, x.since, other);
    }
  }

  /** Another call's commit leaves what is known of a call true. */
  lemma OthersKeep(m: Limits, value: Limits, log: seq<Commit>, c: int, x: Client, next: Limits, other: Commit)
    requires ClientOk(m, value, log, c, x) && other.client != c
    ensures ClientOk(m, next, log + [other], c, x)
  {
    var log' := log + [other];
    OthersStay(log, c, x, other);
    if x.Ended? {
      match x.outcome {
        case Nothing =>
          var n :| x.since <= n <= |log| && IdleAt(m, log, x.op, n);
          assert log'[..n] == log[..n];
          assert IdleAt(m, log', x.op, n);
        case OverCap =>
          var n :| x.since <= n <= |log| && OverAt(m, log, x.op, n);
          assert log'[..n] == log[..n];
          assert OverAt(m, log', x.op, n);
        case _ =>
      }
    }
  }

  lemma OnceKept(log: seq<Commit>, c: int, op: Op, since: nat, other: Commit)
    requires Once(log, c, op, since) && other.client != c
    ensures Once(log + [other], c, op, since)
  {
    var i :| since <= i < |log| && log[i] == Commit(c, op) && forall j :: 0 <= j < |log| && j != i ==> log[j].client != c;
    assert (log + [other])[i] == Commit(c, op);
  }

  lemma SetKeeps(m: Limits, s: State, c: int, x: Client)
    requires Inv(m, s) && ClientOk(m, s.value, s.log, c, x)
    ensures Inv(m, Set(s, c, x))
  {
  }

  lemma ReadKeeps(m: Limits, s: State, c: int, tagged: bool)
    requires Inv(m, s) && c in s.clients && s.clients[c].Reading?
    ensures Inv(m, Merged(s, c, s.clients[c], tagged))
  {
    var x := s.clients[c];
    assert s.log[..|s.log|] == s.log;
    if Merge(s.value, x.op).Err? {
      assert OverAt(m, s.log, x.op, |s.log|);
      SetKeeps(m, s, c, Ended(x.op, x.since, OverCap));
    } else if NothingToDo(s.value, x.op) {
      assert IdleAt(m, s.log, x.op, |s.log|);
      SetKeeps(m, s, c, Ended(x.op, x.since, Nothing));
    } else {
      SetKeeps(m, s, c, Writing(x.op, x.since, x.attempt, Merge(s.value, x.op).value, s.value, |s.log|, tagged));
    }
  }

  /** Nothing that matters to the operation differs between the two maps: every entry it does not
      touch, and of those it touches the fields it carries over. */
  predicate Unaffected(read: Limits, value: Limits, op: Op, sub: string) {
    match op
    case SetLimits(k, _, _, _) =>
      if k == sub then Audited(read, sub) == Audited(value, sub) else Stored(read, sub) == Stored(value, sub)
    case SetAudit(subs, _) =>
      if sub in subs then LimitsOf(read, sub) == LimitsOf(value, sub) else Stored(read, sub) == Stored(value, sub)
    case Remove(k) => k == sub || Stored(read, sub) == Stored(value, sub)
  }

  /** The keys on which something that matters differs. */
  function Missed(read: Limits, value: Limits, op: Op): set<string> {
    set sub | sub in read.Keys + value.Keys && !Unaffected(read, value, op, sub)
  }

  predicate NothingMissed(read: Limits, value: Limits, op: Op) { Missed(read, value, op) == {} }

  lemma SameChange(read: Limits, value: Limits, op: Op, sub: string)
    ensures Stored(Changed(read, op), sub) == Stored(Changed(value, op), sub) <==> Unaffected(read, value, op, sub)
  {
    ChangedKeyByKey(read, sub, op);
    ChangedKeyByKey(value, sub, op);
    assert Get(read, sub) == Said(Stored(read, sub)) && Get(value, sub) == Said(Stored(value, sub));
  }

  /** The map made of what was read is the map made of what is stored exactly when nothing that
      matters has changed in between. */
  lemma SameMerge(read: Limits, value: Limits, op: Op, merged: Limits)
    requires Merge(read, op) == Ok(merged)
    ensures Merge(value, op) == Ok(merged) <==> NothingMissed(read, value, op)
  {
    forall sub ensures Stored(Changed(read, op), sub) == Stored(Changed(value, op), sub) <==> sub !in Missed(read, value, op) {
      SameChange(read, value, op, sub);
      assert sub !in read && sub !in value ==> Unaffected(read, value, op, sub);
    }
    if NothingMissed(read, value, op) {
      SameMap(Changed(read, op), Changed(value, op));
    } else {
      var sub :| sub in Missed(read, value, op);
      assert Changed(read, op) != Changed(value, op);
    }
  }

  /** A write that takes effect. */
  predicate Commits(s: State, step: Step) {
    && (step.Write? || (step.WriteFails? && step.applied))
    && step.client in s.clients && s.clients[step.client].Writing? && Matches(s, s.clients[step.client])
  }

  /** A write that takes effect although something that matters to it has changed since its read. */
  ghost predicate Loses(s: State, step: Step) {
    Commits(s, step) && var x := s.clients[step.client]; !NothingMissed(x.read, s.value, x.op)
  }

  lemma CommitIsSerial(m: Limits, s: State, c: int, outcome: Outcome)
    requires Inv(m, s) && c in s.clients && s.clients[c].Writing?
    ensures var (x, t) := (s.clients[c], Committed(s, c, s.clients[c], outcome));
            Serial(m, t.log) == Ok(t.value) <==> NothingMissed(x.read, s.value, x.op)
  {
    var x := s.clients[c];
    var t := Committed(s, c, x, outcome);
    assert t.log[..|t.log| - 1] == s.log && t.log[|t.log| - 1] == Commit(c, x.op);
    assert Serial(m, t.log) == Then(Serial(m, s.log), x.op) == Merge(s.value, x.op);
    assert ClientOk(m, s.value, s.log, c, x);
    SameMerge(x.read, s.value, x.op, x.merged);
  }

  lemma CommittedOnce(log: seq<Commit>, c: int, op: Op, since: nat)
    requires Absent(log, c) && since <= |log|
    ensures Once(log + [Commit(c, op)], c, op, since)
  {
    assert (log + [Commit(c, op)])[|log|] == Commit(c, op);
  }

  /** What is known of the calls outlasts a commit. */
  lemma CommitKeepsClients(m: Limits, s: State, c: int, outcome: Outcome, d: int)
    requires Inv(m, s) && c in s.clients && s.clients[c].Writing? && d in s.clients
    requires outcome == Written || outcome == Failed
    ensures var t := Committed(s, c, s.clients[c], outcome); ClientOk(m, t.value, t.log, d, t.clients[d])
  {
    var x := s.clients[c];
    assert ClientOk(m, s.value, s.log, c, x) && ClientOk(m, s.value, s.log, d, s.clients[d]);
    if d == c {
      CommittedOnce(s.log, c, x.op, x.since);
    } else {
      OthersKeep(m, s.value, s.log, d, s.clients[d], x.merged, Commit(c, x.op));
    }
  }

  lemma CommitKeeps(m: Limits, s: State, c: int, outcome: Outcome)
    requires Inv(m, s) && c in s.clients && s.clients[c].Writing?
    requires NothingMissed(s.clients[c].read, s.value, s.clients[c].op)
    requires outcome == Written || outcome == Failed
    ensures Inv(m, Committed(s, c, s.clients[c], outcome))
  {
    var t := Committed(s, c, s.clients[c], outcome);
    CommitIsSerial(m, s, c, outcome);
    forall d | d in t.clients ensures ClientOk(m, t.value, t.log, d, t.clients[d]) {
      CommitKeepsClients(m, s, c, outcome, d);
    }
  }

  lemma CallKeeps(m: Limits, s: State, c: int, op: Op)
    requires Inv(m, s) && c !in s.clients
    ensures Inv(m, Apply(s, Call(c, op)))
  {
    assert Absent(s.log, c);
    if op.SetAudit? && op.subs == [] {
      assert s.log[..|s.log|] == s.log;
      assert IdleAt(m, s.log, op, |s.log|);
      SetKeeps(m, s, c, Ended(op, |s.log|, Nothing));
    } else {
      SetKeeps(m, s, c, Reading(op, |s.log|, 0));
    }
  }

  /** One step keeps the stored map a serial one, and all that is known of the calls, except
      exactly a write that loses something. */
  lemma StepKeeps(m: Limits, s: State, step: Step)
    requires Inv(m, s)
    ensures Inv(m, Apply(s, step)) <==> !Loses(s, step)
    ensures Serial(m, Apply(s, step).log) == Ok(Apply(s, step).value) <==> !Loses(s, step)
  {
    var c := step.client;
    if Commits(s, step) {
      var outcome := if step.Write? then Written else Failed;
      CommitIsSerial(m, s, c, outcome);
      if !Loses(s, step) {
        CommitKeeps(m, s, c, outcome);
      }
    } else {
      QuietStepKeeps(m, s, step);
    }
  }

  lemma QuietStepKeeps(m: Limits, s: State, step: Step)
    requires Inv(m, s) && !Commits(s, step)
    ensures Inv(m, Apply(s, step))
  {
    var c := step.client;
    match step {
      case Call(_, op) => if c !in s.clients { CallKeeps(m, s, c, op); }
      case Read(_, tagged) => if c in s.clients && s.clients[c].Reading? { ReadKeeps(m, s, c, tagged); }
      case ReadFails(_) =>
        if c in s.clients && s.clients[c].Reading? { SetKeeps(m, s, c, Ended(s.clients[c].op, s.clients[c].since, Failed)); }
      case Write(_) => if c in s.clients && s.clients[c].Writing? { RefusedKeeps(m, s, c); }
      case WriteFails(_, applied) =>
        if c in s.clients && s.clients[c].Writing? {
          SetKeeps(m, s, c, Ended(s.clients[c].op, s.clients[c].since, Failed));
        }
    }
  }

  /** A refused write: somebody else wrote since the read. */
  lemma RefusedKeeps(m: Limits, s: State, c: int)
    requires Inv(m, s) && c in s.clients && s.clients[c].Writing? && !Matches(s, s.clients[c])
    ensures Inv(m, Sent(s, c, s.clients[c]))
  {
    var x := s.clients[c];
    if x.attempt < 2 {
      SetKeeps(m, s, c, Reading(x.op, x.since, x.attempt + 1));
    } else {
      SetKeeps(m, s, c, Ended(x.op, x.since, Conflict));
    }
  }

  ghost predicate LosesNothing(s: State, steps: seq<Step>)
    decreases |steps|
  {
    steps == [] || (!Loses(s, steps[0]) && LosesNothing(Apply(s, steps[0]), steps[1..]))
  }

  lemma {:induction false} RunKeeps(m: Limits, s: State, steps: seq<Step>)
    requires Inv(m, s) && LosesNothing(s, steps)
    ensures Inv(m, Run(s, steps))
    decreases |steps|
  {
    if steps != [] {
      StepKeeps(m, s, steps[0]);
      RunKeeps(m, Apply(s, steps[0]), steps[1..]);
    }
  }

  /** The stored map is the committed operations applied one after another in commit order. */
  ghost predicate IsSerial(m: Limits, s: State) { Serial(m, s.log) == Ok(s.value) }

  /** It is in every state of a run. */
  ghost predicate AlwaysSerial(m: Limits, s: State, steps: seq<Step>)
    decreases |steps|
  {
    IsSerial(m, s) && (steps == [] || AlwaysSerial(m, Apply(s, steps[0]), steps[1..]))
  }

  lemma {:induction false} SerialExactly(m: Limits, s: State, steps: seq<Step>)
    requires Inv(m, s)
    ensures LosesNothing(s, steps) <==> AlwaysSerial(m, s, steps)
    decreases |steps|
  {
    if steps != [] {
      StepKeeps(m, s, steps[0]);
      if !Loses(s, steps[0]) {
        SerialExactly(m, Apply(s, steps[0]), steps[1..]);
      }
    }
  }

  /** However the calls interleave and whatever fails, with or without etags: the stored map is
      serial at every moment if and only if no write took effect over a change that mattered to
      it. */
  lemma NoLostUpdate(m: Limits, steps: seq<Step>)
    ensures LosesNothing(Start(m), steps) <==> AlwaysSerial(m, Start(m), steps)
  {
    SerialExactly(m, Start(m), steps);
  }

  // ---- when nothing is lost ----

  /** A write that takes effect with a commit between it and its read: only without an etag. */
  predicate Blind(s: State, step: Step) { Commits(s, step) && s.clients[step.client].seen != |s.log| }

  lemma LossIsBlind(m: Limits, s: State, step: Step)
    requires Inv(m, s)
    ensures Loses(s, step) ==> Blind(s, step) && !s.clients[step.client].tagged
  {
    if Commits(s, step) && !Blind(s, step) {
      var x := s.clients[step.client];
      assert ClientOk(m, s.value, s.log, step.client, x);
      assert x.read == s.value;
    }
  }

  predicate Tagged(step: Step) { step.Read? ==> step.tagged }

  ghost predicate AllTagged(s: State) { forall c :: c in s.clients && s.clients[c].Writing? ==> s.clients[c].tagged }

  lemma StepTags(s: State, step: Step)
    ensures var (c, t) := (step.client, Apply(s, step));
            && (forall d :: d in t.clients && d != c ==> d in s.clients && t.clients[d] == s.clients[d])
            && (c in t.clients && t.clients[c].Writing? ==>
                  (c in s.clients && t.clients[c] == s.clients[c]) || (step.Read? && t.clients[c].tagged == step.tagged))
  {
  }

  lemma TaggedStays(s: State, step: Step)
    requires AllTagged(s) && Tagged(step)
    ensures AllTagged(Apply(s, step))
  {
    StepTags(s, step);
  }

  /** If every read came with an etag, no write is blind, and nothing is lost. */
  lemma {:induction false} TaggedLosesNothing(m: Limits, s: State, steps: seq<Step>)
    requires Inv(m, s) && AllTagged(s) && forall step :: step in steps ==> Tagged(step)
    ensures LosesNothing(s, steps)
    decreases |steps|
  {
    if steps != [] {
      assert steps[0] in steps;
      LossIsBlind(m, s, steps[0]);
      StepKeeps(m, s, steps[0]);
      TaggedStays(s, steps[0]);
      TaggedLosesNothing(m, Apply(s, steps[0]), steps[1..]);
    }
  }

  // ---- at most once ----

  predicate NoKeys(op: Op) { op.SetAudit? && op.subs == [] }

  ghost predicate CallsOk(s: State) {
    && (forall c :: c in s.clients ==> CallOk(s.log, c, s.clients[c]))
    && (forall i :: 0 <= i < |s.log| ==> s.log[i].client in s.clients)
  }

  lemma CommitKeepsCalls(s: State, c: int, outcome: Outcome)
    requires CallsOk(s) && c in s.clients && s.clients[c].Writing? && (outcome == Written || outcome == Failed)
    ensures CallsOk(Committed(s, c, s.clients[c], outcome))
  {
    var x, t := s.clients[c], Committed(s, c, s.clients[c], outcome);
    assert CallOk(s.log, c, x);
    CommittedOnce(s.log, c, x.op, x.since);
    forall d | d in t.clients ensures CallOk(t.log, d, t.clients[d]) {
      if d != c {
        OthersStay(s.log, d, s.clients[d], Commit(c, x.op));
      }
    }
  }

  lemma SetKeepsCalls(s: State, c: int, x: Client)
    requires CallsOk(s) && CallOk(s.log, c, x)
    ensures CallsOk(Set(s, c, x))
  {
  }

  lemma NewCall(s: State, c: int, op: Op)
    requires CallsOk(s) && c !in s.clients
    ensures CallsOk(Apply(s, Call(c, op)))
  {
    assert Absent(s.log, c);
    SetKeepsCalls(s, c, if NoKeys(op) then Ended(op, |s.log|, Nothing) else Reading(op, |s.log|, 0));
  }

  lemma StepKeepsCalls(s: State, step: Step)
    requires CallsOk(s)
    ensures CallsOk(Apply(s, step))
  {
    var c, t := step.client, Apply(s, step);
    if Commits(s, step) {
      CommitKeepsCalls(s, c, if step.Write? then Written else Failed);
    } else if c !in s.clients {
      if step.Call? { NewCall(s, c, step.op); }
    } else {
      assert CallOk(s.log, c, s.clients[c]);
      if t != s { SetKeepsCalls(s, c, t.clients[c]); }
    }
  }

  lemma {:induction false} RunKeepsCalls(s: State, steps: seq<Step>)
    requires CallsOk(s)
    ensures CallsOk(Run(s, steps))
    decreases |steps|
  {
    if steps != [] {
      StepKeepsCalls(s, steps[0]);
      RunKeepsCalls(Apply(s, steps[0]), steps[1..]);
    }
  }

  /** At some moment of the run the call is about to read, and on the map stored then there is
      nothing for it to do, or its change is over the cap. */
  ghost predicate SeenDuring(m: Limits, steps: seq<Step>, c: int, op: Op, outcome: Outcome) {
    exists n :: 0 <= n <= |steps| && Sees(Run(Start(m), steps[..n]), c, op, outcome)
  }

  ghost predicate Sees(s: State, c: int, op: Op, outcome: Outcome) {
    && c in s.clients && s.clients[c].Reading? && s.clients[c].op == op
    && (if outcome == OverCap then Merge(s.value, op).Err? else NothingToDo(s.value, op))
  }

  lemma SeenLater(m: Limits, steps: seq<Step>, step: Step, c: int, op: Op, outcome: Outcome)
    requires SeenDuring(m, steps, c, op, outcome)
    ensures SeenDuring(m, steps + [step], c, op, outcome)
  {
    var n :| 0 <= n <= |steps| && Sees(Run(Start(m), steps[..n]), c, op, outcome);
    assert (steps + [step])[..n] == steps[..n];
  }

  /** How a call that writes nothing comes to its end. */
  lemma EndOfCall(s: State, step: Step, c: int)
    requires c in Apply(s, step).clients && Apply(s, step).clients[c].Ended?
    requires Apply(s, step).clients[c].outcome == Nothing || Apply(s, step).clients[c].outcome == OverCap
    ensures var x := Apply(s, step).clients[c];
            || (c in s.clients && s.clients[c] == x)
            || (x.outcome == Nothing && NoKeys(x.op))
            || Sees(s, c, x.op, x.outcome)
  {
    if step.Read? && step.client in s.clients && s.clients[step.client].Reading? {
      MergedIs(s, step.client, s.clients[step.client], step.tagged);
    } else if step.Call? {
    } else {
      assert c in s.clients;
    }
  }

  lemma {:induction false} ReasonsSeen(m: Limits, steps: seq<Step>, c: int)
    requires var s := Run(Start(m), steps);
             c in s.clients && s.clients[c].Ended? && (s.clients[c].outcome == Nothing || s.clients[c].outcome == OverCap)
    ensures var x := Run(Start(m), steps).clients[c];
            SeenDuring(m, steps, c, x.op, x.outcome) || (x.outcome == Nothing && NoKeys(x.op))
    decreases |steps|
  {
    if steps != [] {
      var (front, last) := (steps[..|steps| - 1], steps[|steps| - 1]);
      assert steps == front + [last];
      var s := Run(Start(m), front);
      RunCat(Start(m), front, [last]);
      assert [last][1..] == [];
      var x := Run(Start(m), steps).clients[c];
      EndOfCall(s, last, c);
      if c in s.clients && s.clients[c] == x {
        ReasonsSeen(m, front, c);
        if SeenDuring(m, front, c, x.op, x.outcome) {
          SeenLater(m, front, last, c, x.op, x.outcome);
        }
      } else if Sees(s, c, x.op, x.outcome) {
        assert steps[..|front|] == front;
      }
    }
  }

  /** In every run, updates lost or not: an ended call was committed exactly once, or never for a
      reason: it was a no-op, or over the cap, on the map stored at some moment of the call, or at
      least three commits were made during it, or it met an error (after which its write may or may
      not have taken effect). A call still running has committed nothing, and lost less than three
      times. When no update is lost, the map of that moment is the serial one. */
  lemma EveryCallAtMostOnce(m: Limits, steps: seq<Step>, c: int)
    requires c in Run(Start(m), steps).clients
    ensures var s := Run(Start(m), steps);
            var x := s.clients[c];
            if !x.Ended? then Absent(s.log, c) && x.attempt < 3
            else
              && EndedOnce(s.log, c, x)
              && (x.outcome == OverCap ==> SeenDuring(m, steps, c, x.op, OverCap))
              && (x.outcome == Nothing ==> SeenDuring(m, steps, c, x.op, Nothing) || NoKeys(x.op))
              && (LosesNothing(Start(m), steps) ==> EndedWell(m, s.log, c, x))
  {
    var s := Run(Start(m), steps);
    RunKeepsCalls(Start(m), steps);
    assert CallOk(s.log, c, s.clients[c]);
    if s.clients[c].Ended? && (s.clients[c].outcome == Nothing || s.clients[c].outcome == OverCap) {
      ReasonsSeen(m, steps, c);
    }
    if LosesNothing(Start(m), steps) {
      RunKeeps(m, Start(m), steps);
      assert ClientOk(m, s.value, s.log, c, s.clients[c]);
    }
  }

  /** The stored map, and every map that waits to be written, fits and has no empty entry. */
  ghost predicate AllSound(s: State) {
    Sound(s.value) && forall c :: c in s.clients && s.clients[c].Writing? ==> Sound(s.clients[c].merged)
  }

  lemma MergedIsSound(m: Limits, op: Op)
    requires Sound(m) && Merge(m, op).Ok?
    ensures Sound(Merge(m, op).value)
  {
    NoEmptyKept(m, op);
    if op.Remove? { RemovalShrinks(m, op.sub); }
  }

  /** What a step stores and what it leaves to be written come from a map that waited, or was
      read. */
  lemma StepMaps(s: State, step: Step)
    ensures var (c, t) := (step.client, Apply(s, step));
            && (t.value == s.value || (c in s.clients && s.clients[c].Writing? && t.value == s.clients[c].merged))
            && (forall d :: d in t.clients && d != c ==> d in s.clients && t.clients[d] == s.clients[d])
            && (c in t.clients && t.clients[c].Writing? ==>
                  c in s.clients && (t.clients[c] == s.clients[c] || Merge(s.value, s.clients[c].op) == Ok(t.clients[c].merged)))
  {
    if step.Read? && step.client in s.clients && s.clients[step.client].Reading? {
      MergedIs(s, step.client, s.clients[step.client], step.tagged);
    }
  }

  lemma StepStaysSound(s: State, step: Step)
    requires AllSound(s)
    ensures AllSound(Apply(s, step))
  {
    var c := step.client;
    StepMaps(s, step);
    if c in s.clients && Merge(s.value, s.clients[c].op).Ok? {
      MergedIsSound(s.value, s.clients[c].op);
    }
  }

  lemma {:induction false} RunStaysSound(s: State, steps: seq<Step>)
    requires AllSound(s)
    ensures AllSound(Run(s, steps))
    decreases |steps|
  {
    if steps != [] {
      StepStaysSound(s, steps[0]);
      RunStaysSound(Apply(s, steps[0]), steps[1..]);
    }
  }

  /** Starting from a map that fits, what is stored always fits and has no empty entry, even where
      an update is lost. */
  lemma StoredMapsAreSound(m: Limits, steps: seq<Step>)
    requires Sound(m)
    ensures Sound(Run(Start(m), steps).value)
  {
    RunStaysSound(Start(m), steps);
  }

  lemma {:induction false} RunCat(s: State, xs: seq<Step>, ys: seq<Step>)
    ensures Run(s, xs + ys) == Run(Run(s, xs), ys)
    decreases |xs|
  {
    if xs == [] {
      assert xs + ys == ys;
    } else {
      assert (xs + ys)[1..] == xs[1..] + ys;
      RunCat(Apply(s, xs[0]), xs[1..], ys);
    }
  }

  lemma TwoSteps(s: State, x: Step, y: Step)
    ensures Run(s, [x, y]) == Apply(Apply(s, x), y)
  {
    assert [x, y][1..] == [y] && [y][1..] == [];
    assert Run(s, [x, y]) == Run(Apply(s, x), [y]) == Run(Apply(Apply(s, x), y), []);
  }

  /** One call reads without an etag; another, with one, reads and commits before it writes. */
  lemma OneReadUntagged(m: Limits, x: Op, y: Op) returns (t: State)
    requires x.Remove? && y.Remove? && x.sub in m && y.sub in m
    ensures t == State(m, [], map[1 := Writing(x, 0, 0, RemoveKeyLimit(m, x.sub), m, 0, false), 2 := Reading(y, 0, 0)])
    ensures Run(Start(m), [Call(1, x), Call(2, y)] + [Read(1, false)]) == t
  {
    TwoSteps(Start(m), Call(1, x), Call(2, y));
    RunCat(Start(m), [Call(1, x), Call(2, y)], [Read(1, false)]);
    var s := Apply(Apply(Start(m), Call(1, x)), Call(2, y));
    assert s == State(m, [], map[1 := Reading(x, 0, 0), 2 := Reading(y, 0, 0)]);
    assert [Read(1, false)][1..] == [];
    t := Apply(s, Read(1, false));
  }

  lemma OtherCommits(s: State, x: Client, y: Op) returns (t: State)
    requires x.Writing? && y.Remove? && y.sub in s.value && s.log == [] && s.clients == map[1 := x, 2 := Reading(y, 0, 0)]
    ensures t == State(RemoveKeyLimit(s.value, y.sub), [Commit(2, y)], map[1 := x, 2 := Ended(y, 0, Written)])
    ensures Run(s, [Read(2, true), Write(2)]) == t
  {
    TwoSteps(s, Read(2, true), Write(2));
    var s1 := Apply(s, Read(2, true));
    assert s1 == State(s.value, [], map[1 := x, 2 := Writing(y, 0, 0, RemoveKeyLimit(s.value, y.sub), s.value, 0, true)]);
    t := Apply(s1, Write(2));
    assert [] + [Commit(2, y)] == [Commit(2, y)];
  }

  /** Its write goes through all the same. */
  lemma BlindWrite(s: State, x: Client, y: Op) returns (t: State)
    requires x.Writing? && !x.tagged && s.log == [Commit(2, y)] && s.clients == map[1 := x, 2 := Ended(y, 0, Written)]
    ensures t == State(x.merged, [Commit(2, y), Commit(1, x.op)],
                       map[1 := Ended(x.op, x.since, Written), 2 := Ended(y, 0, Written)])
    ensures Run(s, [Write(1)]) == t
  {
    assert [Write(1)][1..] == [];
    assert [Commit(2, y)] + [Commit(1, x.op)] == [Commit(2, y), Commit(1, x.op)];
    t := Apply(s, Write(1));
  }

  lemma SerialTwo(m: Limits, x: Commit, y: Commit)
    ensures Serial(m, [x, y]) == Then(Merge(m, x.op), y.op)
  {
    assert [x, y][..1] == [x] && [x][..0] == [];
    assert Serial(m, [x]) == Then(Ok(m), x.op);
  }

  /** One read without an etag is enough to lose an update: both calls succeed, and the stored
      map has the entry again that the other call removed in between. */
  lemma UntaggedReadLosesUpdate(sub: string, other: string, m: Limits)
    requires sub in m && other in m && sub != other
    ensures var steps := [Call(1, Remove(sub)), Call(2, Remove(other))] + [Read(1, false)] + [Read(2, true), Write(2)] + [Write(1)];
            var s := Run(Start(m), steps);
            && s.clients == map[1 := Ended(Remove(sub), 0, Written), 2 := Ended(Remove(other), 0, Written)]
            && other in s.value && Serial(m, s.log) == Ok(m - {other} - {sub})
  {
    var (x, y) := (Remove(sub), Remove(other));
    var s3 := OneReadUntagged(m, x, y);
    var s5 := OtherCommits(s3, s3.clients[1], y);
    var first := [Call(1, x), Call(2, y)] + [Read(1, false)];
    RunCat(Start(m), first, [Read(2, true), Write(2)]);
    RunCat(Start(m), first + [Read(2, true), Write(2)], [Write(1)]);
    var s6 := BlindWrite(s5, s3.clients[1], y);
    SerialTwo(m, Commit(2, y), Commit(1, x));
  }
}
