/**
  The hub's usage emitter as a step relation.

  Every section of the emitter that runs without an `await` is one step; steps of
  running emits, drain passes, SDK callbacks and the shutdown interleave freely.
  A record that has been emitted is a `Parcel`; the places a parcel can be in are the
  fields of `State`.
 */
module EmitterSpec {

  /** One usage record on its way. `attempts` is the number stamped on it (0 for a first
      send); `handed` and `failed` are its history, which the emitter does not store. */
  datatype Parcel = Parcel(id: nat, attempts: int, nextAt: real, handed: nat, failed: nat)

  datatype Config = Config(enabled: bool, maxAttempts: int, maxQueue: int)

  /** A drain pass: the due items not yet dealt with; the first is in `send_event` when `inFlight`. */
  datatype Pass = Pass(due: seq<Parcel>, inFlight: bool)

  /** The producer singleton and its two flags. */
  datatype Link = Link(ready: bool, disabled: bool, initFailed: bool)

  /** Failed hand-offs, split by cause. */
  datatype Failures = Failures(send: nat, enqueue: nat, init: nat, retry: nat, serialize: nat)

  datatype State = State(
    cfg: Config,
    link: Link,
    sending: seq<Parcel>,     // emits waiting in send_event
    queue: seq<Parcel>,       // the bounded retry queue, oldest first
    passes: seq<Pass>,        // drain passes
    buffer: seq<Parcel>,      // the SDK's buffer
    delivered: seq<Parcel>,   // acknowledged by the broker
    gone: seq<Parcel>,        // given up on
    leaked: seq<Parcel>,      // dropped without being counted
    emitted: nat,
    failures: Failures,
    retried: nat, recovered: nat, lost: nat)

  function Init(cfg: Config): State {
    State(cfg, Link(false, false, false), [], [], [], [], [], [], [], 0, Failures(0, 0, 0, 0, 0), 0, 0, 0)
  }

  function DroppedCount(s: State): nat {
    s.failures.send + s.failures.enqueue + s.failures.init + s.failures.retry + s.failures.serialize
  }

  function Max(a: int, b: int): int { if a >= b then a else b }

  /** What happened to one event of a failed batch: its body was unreadable, or it was
      parked with the given deadline. */
  datatype Fate = Unreadable | Park(at: real)

  datatype Step =
    | EmitUnserializable
    | EmitStart(built: bool)
    | EmitResult(i: nat, ok: bool, at: real)
    | RecordDrop(count: nat)
    | BeginPass(now: real, built: bool)
    | HandOff(p: nat)
    | MakeFails(p: nat, at: real)
    | PassResult(p: nat, ok: bool, at: real)
    | CancelPass(p: nat, enqueued: bool)
    | SendOk(mask: seq<bool>, seen: nat)
    | SendError(mask: seq<bool>, fates: seq<Fate>)
    | SendErrorOpaque(mask: seq<bool>)
    | Reinit(built: bool)
    | CloseExpire
    | CloseReset
    | CloseFinish

  /** The events of a buffer that a callback is about, and the others. */
  function Pick(s: seq<Parcel>, mask: seq<bool>): seq<Parcel>
    requires |s| == |mask|
  {
    if s == [] then [] else (if mask[0] then [s[0]] else []) + Pick(s[1..], mask[1..])
  }

  function Rest(s: seq<Parcel>, mask: seq<bool>): seq<Parcel>
    requires |s| == |mask|
  {
    if s == [] then [] else (if mask[0] then [] else [s[0]]) + Rest(s[1..], mask[1..])
  }

  predicate Enabled(s: State, step: Step) {
    match step
    case EmitResult(i, _, _) => i < |s.sending|
    case HandOff(p) => p < |s.passes| && s.passes[p].due != [] && !s.passes[p].inFlight
    case MakeFails(p, _) => p < |s.passes| && s.passes[p].due != [] && !s.passes[p].inFlight
    case PassResult(p, _, _) => p < |s.passes| && s.passes[p].due != [] && s.passes[p].inFlight
    case CancelPass(p, _) => p < |s.passes| && s.passes[p].due != [] && s.passes[p].inFlight
    case SendOk(mask, _) => |mask| == |s.buffer|
    case SendError(mask, fates) => |mask| == |s.buffer| && |fates| == |Pick(s.buffer, mask)|
    case SendErrorOpaque(mask) => |mask| == |s.buffer|
    case _ => true
  }

  // ---- the sections ----

  /** `_get_producer`: `built` says whether constructing the client would succeed. */
  function GetLink(cfg: Config, link: Link, built: bool): Link {
    if link.ready || link.disabled || link.initFailed then link
    else if !cfg.enabled then link.(disabled := true)
    else if built then link.(ready := true)
    else link.(initFailed := true)
  }

  function GetProducer(s: State, built: bool): State { s.(link := GetLink(s.cfg, s.link, built)) }

  function FailSend(s: State, n: nat): State { s.(failures := s.failures.(send := s.failures.send + n)) }

  function FailEnqueue(s: State, n: nat): State { s.(failures := s.failures.(enqueue := s.failures.enqueue + n)) }

  function FailInit(s: State): State { s.(failures := s.failures.(init := s.failures.init + 1)) }

  function FailRetry(s: State): State { s.(failures := s.failures.(retry := s.failures.retry + 1)) }

  function FailSerialize(s: State): State { s.(failures := s.failures.(serialize := s.failures.serialize + 1)) }

  function GiveUp(s: State, p: Parcel): State {
    s.(lost := s.lost + 1, gone := s.gone + [p])
  }

  /** How many of the oldest items `_requeue` evicts to make room for one more. */
  function Overflow(s: State): nat {
    Max(0, |s.queue| + 1 - Max(s.cfg.maxQueue, 1))
  }

  /** `_requeue`: park a parcel, evicting the oldest items while the queue is full. */
  function Requeue(s: State, p: Parcel, at: real): State {
    if p.attempts > s.cfg.maxAttempts then GiveUp(s, p)
    else
      var over := Overflow(s);
      s.(lost := s.lost + over,
         gone := s.gone + s.queue[..over],
         queue := s.queue[over..] + [p.(nextAt := at)])
  }

  /** `_give_up_all`, and the last lines of `aclose`. */
  function GiveUpAll(s: State): State {
    s.(lost := s.lost + |s.queue|, gone := s.gone + s.queue, queue := [])
  }

  function Failed(p: Parcel): Parcel { p.(attempts := p.attempts + 1, failed := p.failed + 1) }

  /** The loop of `_on_error` over a batch whose bodies could or could not be read. */
  function OnErrorLoop(s: State, batch: seq<Parcel>, fates: seq<Fate>): State
    requires |batch| == |fates|
    decreases |batch|
  {
    if batch == [] then s
    else
      var s1 := match fates[0]
        case Unreadable => GiveUp(s, batch[0].(failed := batch[0].failed + 1))
        case Park(at) => Requeue(s, Failed(batch[0]), at);
      OnErrorLoop(s1, batch[1..], fates[1..])
  }

  function CountRetried(batch: seq<Parcel>): nat {
    if batch == [] then 0 else (if batch[0].attempts != 0 then 1 else 0) + CountRetried(batch[1..])
  }

  function Due(q: seq<Parcel>, now: real): seq<Parcel> {
    if q == [] then [] else (if q[0].nextAt <= now then [q[0]] else []) + Due(q[1..], now)
  }

  function NotDue(q: seq<Parcel>, now: real): seq<Parcel> {
    if q == [] then [] else (if q[0].nextAt <= now then [] else [q[0]]) + NotDue(q[1..], now)
  }

  function Expire(q: seq<Parcel>): seq<Parcel> {
    if q == [] then [] else [q[0].(nextAt := 0.0)] + Expire(q[1..])
  }

  function FreshRun(s: State, count: nat): seq<Parcel>
    decreases count
  {
    if count == 0 then [] else [Fresh(s)] + FreshRun(s.(emitted := s.emitted + 1), count - 1)
  }

  function Fresh(s: State): Parcel { Parcel(s.emitted, 0, 0.0, 0, 0) }

  /** `emit` of a record that cannot be encoded. */
  function EmitUnencodable(s: State): State {
    GiveUp(FailSerialize(s.(emitted := s.emitted + 1)), Fresh(s))
  }

  /** `emit` up to its `await`. */
  function EmitBegin(s: State, built: bool): State {
    var s1 := GetProducer(s, built).(emitted := s.emitted + 1);
    if s1.link.ready then s1.(sending := s1.sending + [Fresh(s).(handed := 1)])
    else if s1.link.initFailed then GiveUp(FailInit(s1), Fresh(s))
    else s1.(leaked := s1.leaked + [Fresh(s)])
  }

  function Unsend(s: State, i: nat): State
    requires i < |s.sending|
  {
    s.(sending := s.sending[..i] + s.sending[i + 1..])
  }

  function Buffer(s: State, p: Parcel): State { s.(buffer := s.buffer + [p]) }

  function FirstFailure(p: Parcel): Parcel { p.(attempts := 1, failed := p.failed + 1) }

  /** The rest of `emit`: `send_event` returned or raised. */
  function EmitEnd(s: State, i: nat, ok: bool, at: real): State
    requires i < |s.sending|
  {
    var p := s.sending[i];
    if ok then Buffer(Unsend(s, i), p) else Requeue(FailEnqueue(Unsend(s, i), 1), FirstFailure(p), at)
  }

  function DropRecords(s: State, count: nat): State {
    FailEnqueue(s, count).(lost := s.lost + count, gone := s.gone + FreshRun(s, count), emitted := s.emitted + count)
  }

  function SplitQueue(s: State, now: real): State {
    s.(queue := NotDue(s.queue, now), passes := s.passes + [Pass(Due(s.queue, now), false)])
  }

  /** `_drain_once` up to its first `await`. */
  function DrainBegin(s: State, now: real, built: bool): State {
    if s.queue == [] then s
    else
      var s1 := GetProducer(s, built);
      if s1.link.ready then SplitQueue(s1, now)
      else if s1.link.disabled then GiveUpAll(s1)
      else s1
  }

  /** The event of the first due item is built; `send_event` is under way. */
  function HandOver(s: State, p: nat): State
    requires p < |s.passes| && s.passes[p].due != []
  {
    var due := s.passes[p].due;
    s.(retried := s.retried + 1,
       passes := s.passes[p := Pass([due[0].(handed := due[0].handed + 1)] + due[1..], true)])
  }

  function NextItem(s: State, p: nat): State
    requires p < |s.passes| && s.passes[p].due != []
  {
    s.(passes := s.passes[p := Pass(s.passes[p].due[1..], false)])
  }

  function MakeFailed(s: State, p: nat, at: real): State
    requires p < |s.passes| && s.passes[p].due != []
  {
    var item := s.passes[p].due[0];
    Requeue(FailRetry(NextItem(s, p)), Failed(item.(handed := item.handed + 1)), at)
  }

  function RetryEnd(s: State, p: nat, ok: bool, at: real): State
    requires p < |s.passes| && s.passes[p].due != []
  {
    var item := s.passes[p].due[0];
    if ok then Buffer(NextItem(s, p), item) else Requeue(FailRetry(NextItem(s, p)), Failed(item), at)
  }

  /** Cancellation inside `send_event`: the SDK may or may not have taken the first item. */
  function Interrupt(s: State, p: nat, enqueued: bool): State
    requires p < |s.passes| && s.passes[p].due != []
  {
    var due := s.passes[p].due;
    var s1 := s.(passes := s.passes[p := Pass([], false)]);
    if enqueued then Buffer(s1, due[0]).(leaked := s1.leaked + due[1..]) else s1.(leaked := s1.leaked + due)
  }

  /** The first `seen` events of a batch, all that its iteration yields. */
  function Seen(batch: seq<Parcel>, seen: nat): seq<Parcel> {
    if seen < |batch| then batch[..seen] else batch
  }

  /** `_on_success`: an iteration that raises keeps what it has counted. */
  function Acknowledge(s: State, mask: seq<bool>, seen: nat): State
    requires |mask| == |s.buffer|
  {
    var batch := Pick(s.buffer, mask);
    s.(buffer := Rest(s.buffer, mask), delivered := s.delivered + batch,
       recovered := s.recovered + if s.retried != 0 then CountRetried(Seen(batch, seen)) else 0)
  }

  function Unbuffer(s: State, mask: seq<bool>): State
    requires |mask| == |s.buffer|
  {
    s.(buffer := Rest(s.buffer, mask))
  }

  /** `_on_error` for a batch that can be iterated: at least one failure is counted. */
  function Refuse(s: State, mask: seq<bool>, fates: seq<Fate>): State
    requires |mask| == |s.buffer| && |fates| == |Pick(s.buffer, mask)|
  {
    var batch := Pick(s.buffer, mask);
    OnErrorLoop(FailSend(Unbuffer(s, mask), Max(|batch|, 1)), batch, fates)
  }

  function RefuseOpaque(s: State, mask: seq<bool>): State
    requires |mask| == |s.buffer|
  {
    FailSend(Unbuffer(s, mask), 1).(leaked := s.leaked + Pick(s.buffer, mask))
  }

  /** `_maybe_reinit` once its minute is over. */
  function Rebuild(s: State, built: bool): State {
    if s.link.initFailed && s.queue != [] then GetProducer(s.(link := s.link.(initFailed := false)), built) else s
  }

  function Apply(s: State, step: Step): State
    requires Enabled(s, step)
  {
    match step
    case EmitUnserializable => EmitUnencodable(s)
    case EmitStart(built) => EmitBegin(s, built)
    case EmitResult(i, ok, at) => EmitEnd(s, i, ok, at)
    case RecordDrop(count) => DropRecords(s, count)
    case BeginPass(now, built) => DrainBegin(s, now, built)
    case HandOff(p) => HandOver(s, p)
    case MakeFails(p, at) => MakeFailed(s, p, at)
    case PassResult(p, ok, at) => RetryEnd(s, p, ok, at)
    case CancelPass(p, enqueued) => Interrupt(s, p, enqueued)
    case SendOk(mask, seen) => Acknowledge(s, mask, seen)
    case SendError(mask, fates) => Refuse(s, mask, fates)
    case SendErrorOpaque(mask) => RefuseOpaque(s, mask)
    case Reinit(built) => Rebuild(s, built)
    case CloseExpire => if s.link.ready then s.(queue := Expire(s.queue)) else s
    case CloseReset => s.(link := Link(false, false, false))
    case CloseFinish => GiveUpAll(s)
  }

  /** The parcels a step drops without counting them: an emit while Event Hub is switched off,
      a failed batch that cannot be iterated, and what a cancelled pass still held. */
  function Dropped(s: State, step: Step): seq<Parcel>
    requires Enabled(s, step)
  {
    match step
    case EmitStart(built) =>
      var s1 := GetProducer(s, built);
      if s1.link.ready || s1.link.initFailed then [] else [Fresh(s)]
    case CancelPass(p, enqueued) => if enqueued then s.passes[p].due[1..] else s.passes[p].due
    case SendErrorOpaque(mask) => Pick(s.buffer, mask)
    case _ => []
  }

  /** `states` is the run that `steps` makes from a fresh process. */
  ghost predicate Run(cfg: Config, steps: seq<Step>, states: seq<State>) {
    && |states| == |steps| + 1
    && states[0] == Init(cfg)
    && forall i :: 0 <= i < |steps| ==>
         Enabled(states[i], steps[i]) && states[i + 1] == Apply(states[i], steps[i])
  }
}
