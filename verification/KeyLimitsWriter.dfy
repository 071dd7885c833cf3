/** One call's loop over the shared named value, while other writers interfere between its
    reads and its writes. */
module KeyLimitsWriter {
  import opened Wrappers
  import opened KeyLimits
  import opened KeyLimitsCas

  /** What happens in one round of the loop: whether the read fails, and whether it gives an etag;
      which changes others write between the read and the write; and whether the write is
      answered with an error other than a failed precondition (having taken effect or not). */
  datatype Round = Round(readFails: bool, tagged: bool, others: seq<Op>, fault: Option<bool>)

  class NamedValue {
    var value: Limits
    var etag: nat
    ghost var first: Limits
    ghost var log: seq<Commit>

    /** What is stored is the writes so far, one after another, and the etag counts them. */
    ghost predicate Valid()
      reads this
    {
      etag == |log| && Serial(first, log) == Ok(value)
    }

    constructor (m: Limits)
      ensures Valid() && value == m && first == m && log == []
    {
      value, etag, first, log := m, 0, m, [];
    }

    /** Writes under If-Match: refused when the etag is not the current one, and accepted whatever
        is stored when there is none. */
    method Put(merged: Limits, seen: Option<nat>, ghost client: int, ghost op: Op) returns (accepted: bool)
      requires Valid()
      modifies this
      ensures accepted == (seen.None? || seen.value == old(etag))
      ensures etag == |log| && first == old(first)
      ensures log == if accepted then old(log) + [Commit(client, op)] else old(log)
      ensures value == if accepted then merged else old(value)
      ensures !accepted ==> Valid()
    {
      accepted := seen.None? || seen.value == etag;
      if accepted {
        value, etag, log := merged, etag + 1, log + [Commit(client, op)];
      }
    }

    method MergeOp(op: Op) returns (r: Result<Limits, Problem>)
      ensures r == Merge(value, op)
    {
      match op {
        case SetLimits(sub, tpm, tier, period) => r := MergeKeyLimit(value, sub, tpm, tier, period);
        case SetAudit(subs, enabled) => r := MergeAuditFlag(value, subs, enabled);
        case Remove(sub) => r := Ok(RemoveKeyLimit(value, sub));
      }
    }

    /** Changes of other writers, those that do not merge being left out. */
    method Interfere(ops: seq<Op>, ghost other: int)
      requires Valid()
      modifies this
      ensures Valid() && first == old(first) && old(log) <= log
      ensures forall i :: |old(log)| <= i < |log| ==> log[i].client == other
      ensures ops == [] || |log| == |old(log)| ==> log == old(log) && value == old(value)
    {
      for i := 0 to |ops|
        invariant Valid() && first == old(first) && old(log) <= log
        invariant forall i :: |old(log)| <= i < |log| ==> log[i].client == other
        invariant i == 0 || |log| == |old(log)| ==> log == old(log) && value == old(value)
      {
        var r := MergeOp(ops[i]);
        if r.Ok? {
          SerialSnoc(first, log, Commit(other, ops[i]));
          var _ := Put(r.value, Some(etag), other, ops[i]);
        }
      }
    }

    /** What a call makes of the map it reads: a map to write, or a reason to end. */
    method Consider(op: Op) returns (merged: Option<Limits>, outcome: Outcome)
      ensures merged.Some? ==> Merge(value, op) == Ok(merged.value)
      ensures merged.None? ==> (outcome == Nothing && NothingToDo(value, op)) || (outcome == OverCap && Merge(value, op).Err?)
      ensures outcome == Nothing ==> Changed(value, op) == value && !op.SetLimits? && merged.None?
    {
      if op.Remove? && op.sub !in value { return None, Nothing; }
      var r := MergeOp(op);
      if r.Err? { return None, OverCap; }
      if op.SetAudit? && r.value == value { return None, Nothing; }
      return Some(r.value), Written;
    }

    /** One round: it ends the call, or its write was refused because others have written. */
    method Attempt(ghost me: int, ghost other: int, op: Op, round: Round) returns (ended: Option<Outcome>)
      requires Valid() && me != other && Absent(log, me)
      modifies this
      ensures etag == |log| && first == old(first) && old(log) <= log
      ensures forall i :: |old(log)| <= i < |log| ==> log[i].client == me || log[i].client == other
      ensures ended.None? ==> Valid() && Absent(log, me) && |log| > |old(log)|
      ensures ended.Some? ==> ended != Some(Conflict) && EndedWell(first, log, me, Ended(op, |old(log)|, ended.value))
      ensures ended == Some(Failed) ==> round.readFails || round.fault.Some?
      ensures ended == Some(Written) || ended == Some(Nothing) ==> InForce(value, op)
      ensures ended == Some(Nothing) ==> log == old(log) && value == old(value) && Changed(value, op) == value && !op.SetLimits?
      ensures !Valid() ==> !round.tagged && round.others != []
    {
      if round.readFails { return Some(Failed); }
      var seen := if round.tagged then Some(etag) else None;
      var merged, outcome := Consider(op);
      if merged.None? {
        EndsIdle(first, log, value, me, op, outcome);
        ChangeIsInForce(value, op);
        return Some(outcome);
      }
      ghost var read := value;
      ChangeIsInForce(value, op);
      Interfere(round.others, other);
      ended := WriteBack(me, op, merged.value, read, seen, round.fault, |old(log)|);
    }

    /** The write of a round, answered or not. */
    method WriteBack(ghost me: int, op: Op, merged: Limits, ghost read: Limits, seen: Option<nat>, fault: Option<bool>,
                     ghost since: nat)
      returns (ended: Option<Outcome>)
      requires Valid() && Absent(log, me) && since <= |log|
      requires Merge(read, op) == Ok(merged) && (seen == Some(etag) ==> read == value)
      modifies this
      ensures etag == |log| && first == old(first)
      ensures log == old(log) || log == old(log) + [Commit(me, op)]
      ensures ended.None? ==> log == old(log) && Valid() && seen.Some? && seen.value != etag
      ensures ended.Some? ==> ended.value in {Written, Failed} && EndedWell(first, log, me, Ended(op, since, ended.value))
      ensures ended == Some(Failed) ==> fault.Some?
      ensures ended == Some(Written) ==> value == merged
      ensures Valid() <==> log == old(log) || NothingMissed(read, old(value), op)
      ensures !Valid() ==> seen.None? && read != old(value)
    {
      if fault == Some(false) { return Some(Failed); }
      CommittedOnce(log, me, op, since);
      PutIsSerial(first, log, value, read, merged, Commit(me, op));
      NothingMissedOfSame(value, op);
      var accepted := Put(merged, seen, me, op);
      if accepted { return Some(if fault.Some? then Failed else Written); }
      return if fault.Some? then Some(Failed) else None;
    }

    /** `upsert_key_limits`, `set_audit_flag` and `remove_key_limits`: read, merge, write back on
        the etag, and once more after a failed precondition, three times in all. Only a read
        without an etag, with others writing after it, can spoil the stored map. */
    method Update(ghost me: int, ghost other: int, op: Op, rounds: seq<Round>) returns (outcome: Outcome)
      requires Valid() && |rounds| == 3 && me != other && Absent(log, me)
      modifies this
      ensures etag == |log| && first == old(first) && old(log) <= log
      ensures forall i :: |old(log)| <= i < |log| ==> log[i].client == me || log[i].client == other
      ensures EndedWell(first, log, me, Ended(op, |old(log)|, outcome))
      ensures outcome == Failed ==> exists i :: 0 <= i < 3 && (rounds[i].readFails || rounds[i].fault.Some?)
      ensures outcome == Written || outcome == Nothing ==> InForce(value, op)
      ensures outcome == Nothing ==> Changed(value, op) == value && !op.SetLimits?
      ensures outcome == Nothing ==> forall i :: |old(log)| <= i < |log| ==> log[i].client == other
      ensures !Valid() ==> exists i :: 0 <= i < 3 && !rounds[i].tagged && rounds[i].others != []
    {
      assert log[..|log|] == log;
      if op.SetAudit? && op.subs == [] {
        assert IdleAt(first, log, op, |log|);
        return Nothing;
      }
      for attempt := 0 to 3
        invariant Valid() && first == old(first) && old(log) <= log && Absent(log, me)
        invariant |old(log)| + attempt <= |log|
        invariant forall i :: |old(log)| <= i < |log| ==> log[i].client == other
      {
        ghost var since := |log|;
        var ended := Attempt(me, other, op, rounds[attempt]);
        if ended.Some? {
          EarlierStart(first, log, me, op, |old(log)|, since, ended.value);
          return ended.value;
        }
      }
      return Conflict;
    }
  }

  /** A call that has nothing to write on the current map ends well. */
  lemma EndsIdle(m: Limits, log: seq<Commit>, value: Limits, c: int, op: Op, outcome: Outcome)
    requires Serial(m, log) == Ok(value) && Absent(log, c)
    requires (outcome == Nothing && NothingToDo(value, op)) || (outcome == OverCap && Merge(value, op).Err?)
    ensures EndedWell(m, log, c, Ended(op, |log|, outcome))
  {
    assert log[..|log|] == log;
    assert outcome == Nothing ==> IdleAt(m, log, op, |log|);
    assert outcome == OverCap ==> OverAt(m, log, op, |log|);
  }

  lemma NothingMissedOfSame(m: Limits, op: Op)
    ensures NothingMissed(m, m, op)
  {
  }

  lemma SerialSnoc(m: Limits, log: seq<Commit>, c: Commit)
    ensures Serial(m, log + [c]) == Then(Serial(m, log), c.op)
  {
    assert (log + [c])[..|log|] == log;
  }

  lemma PutIsSerial(m: Limits, log: seq<Commit>, value: Limits, read: Limits, merged: Limits, c: Commit)
    requires Serial(m, log) == Ok(value) && Merge(read, c.op) == Ok(merged)
    ensures Serial(m, log + [c]) == Ok(merged) <==> NothingMissed(read, value, c.op)
  {
    SerialSnoc(m, log, c);
    SameMerge(read, value, c.op, merged);
  }

  /** A call that ended well within one of its rounds ended well. */
  lemma EarlierStart(m: Limits, log: seq<Commit>, c: int, op: Op, since: nat, later: nat, outcome: Outcome)
    requires since <= later && outcome != Conflict && EndedWell(m, log, c, Ended(op, later, outcome))
    ensures EndedWell(m, log, c, Ended(op, since, outcome))
  {
  }
}
