/**
  The hub's Copilot credentials: a stored OAuth token that wins over the deployed one, an API
  token exchanged from it and cached, and requests that use or replace them under a lock while
  their exchanges are awaited.
 */
module TokenSwap {
  import opened Wrappers

  /** An API token, with the OAuth token it was exchanged from. */
  datatype Api = Api(token: string, endpoint: string, expiresAt: int, from: string)

  /** The task that holds the lock, awaiting an exchange made with `used`. A swap remembers what
      it replaced. */
  datatype Holder =
    | Renewing(id: int, used: string)
    | Swapping(id: int, used: string, previousOauth: Option<string>, previousApi: Option<Api>)

  datatype State = State(store: Option<string>, deployed: Option<string>, cache: Option<Api>, lock: Option<Holder>)

  /** The await-free sections. `Get` and `Install` are the sections from taking the lock to the
      exchange; `Exchanged`, `Refused` and `Cancelled` what follows the await; `Replace` is a
      login or logout, which takes no lock. */
  datatype Step =
    | Get(id: int, now: int)
    | Install(id: int, token: string)
    | Exchanged(token: string, endpoint: string, expiresAt: int)
    | Refused
    | Cancelled
    | Replace(stored: Option<string>)

  function Resolve(store: Option<string>, deployed: Option<string>): Option<string> {
    if store.Some? && store.value != "" then store else if deployed == Some("") then None else deployed
  }

  function Current(s: State): Option<string> { Resolve(s.store, s.deployed) }

  /** Valid for another five minutes. */
  predicate Usable(cache: Option<Api>, now: int) { cache.Some? && cache.value.expiresAt - 300 > now }

  function Restored(s: State): State
    requires s.lock.Some?
  {
    match s.lock.value
    case Renewing(_, _) => s.(lock := None)
    case Swapping(_, _, oauth, api) => s.(store := oauth, cache := api, lock := None)
  }

  function Apply(s: State, step: Step): State {
    match step
    case Get(id, now) =>
      if Usable(s.cache, now) || s.lock.Some? || Current(s).None? then s
      else s.(lock := Some(Renewing(id, Current(s).value)))
    case Install(id, token) =>
      if token == "" || s.lock.Some? then s
      else s.(store := Some(token), cache := None, lock := Some(Swapping(id, token, s.store, s.cache)))
    case Exchanged(token, endpoint, expiresAt) =>
      if s.lock.None? then s else s.(cache := Some(Api(token, endpoint, expiresAt, s.lock.value.used)), lock := None)
    case Refused => if s.lock.None? then s else Restored(s)
    case Cancelled => s.(lock := None)
    case Replace(stored) => s.(store := stored, cache := None)
  }

  function Run(s: State, steps: seq<Step>): State
    decreases |steps|
  {
    if steps == [] then s else Run(Apply(s, steps[0]), steps[1..])
  }

  // ---- what every step keeps ----

  /** A cached API token belongs to the OAuth token the hub would use now. */
  predicate Matches(s: State) { s.cache.Some? ==> Current(s) == Some(s.cache.value.from) }

  /** While the lock is held the exchange is made with the current token, and a swap has emptied
      the cache and could go back to a matching pair. */
  predicate Inv(s: State) {
    && Matches(s)
    && match s.lock {
         case None => true
         case Some(Renewing(_, used)) => Current(s) == Some(used)
         case Some(Swapping(_, used, oauth, api)) =>
           used != "" && s.store == Some(used) && s.cache == None && Matches(State(oauth, s.deployed, api, None))
       }
  }

  /** A login or logout while some exchange is awaited. */
  predicate Barges(s: State, step: Step) { step.Replace? && s.lock.Some? }

  lemma StepKeeps(s: State, step: Step)
    requires Inv(s) && !Barges(s, step)
    ensures Inv(Apply(s, step))
  {
  }

  ghost predicate Orderly(s: State, steps: seq<Step>)
    decreases |steps|
  {
    steps == [] || (!Barges(s, steps[0]) && Orderly(Apply(s, steps[0]), steps[1..]))
  }

  lemma {:induction false} RunKeeps(s: State, steps: seq<Step>)
    requires Inv(s) && Orderly(s, steps)
    ensures Inv(Run(s, steps))
    decreases |steps|
  {
    if steps != [] {
      StepKeeps(s, steps[0]);
      RunKeeps(Apply(s, steps[0]), steps[1..]);
    }
  }

  /** From a start with nothing cached, in every interleaving of requests and swaps, with
      exchanges that succeed, fail or are cancelled: a cached API token, and so every one handed
      out from the cache, with the lock or without, was exchanged from the OAuth token the hub
      would use now. */
  lemma CachedTokenIsCurrent(store: Option<string>, deployed: Option<string>, steps: seq<Step>)
    requires Orderly(State(store, deployed, None, None), steps)
    ensures Matches(Run(State(store, deployed, None, None), steps))
  {
    RunKeeps(State(store, deployed, None, None), steps);
  }

  /** An exchange returns that was made with a token no longer current. */
  predicate Late(s: State, step: Step) { step.Exchanged? && s.lock.Some? && Current(s) != Some(s.lock.value.used) }

  /** What holds even with logins and logouts during exchanges: a cached token is current, and a
      swap could go back to a matching pair. */
  predicate Sound(s: State) {
    && Matches(s)
    && match s.lock {
         case Some(Swapping(_, _, oauth, api)) => s.cache == None && Matches(State(oauth, s.deployed, api, None))
         case _ => true
       }
  }

  ghost predicate Timely(s: State, steps: seq<Step>)
    decreases |steps|
  {
    steps == [] || (!Late(s, steps[0]) && Timely(Apply(s, steps[0]), steps[1..]))
  }

  /** In every run from a fresh start, with logins and logouts at any moment: the cache matches
      after every step if and only if no exchange has returned late. */
  lemma {:induction false} MatchesThroughout(s: State, steps: seq<Step>)
    requires Sound(s)
    ensures Timely(s, steps) <==> forall n :: 0 <= n <= |steps| ==> Matches(Run(s, steps[..n]))
    decreases |steps|
  {
    if steps == [] {
      assert steps[..0] == [];
    } else {
      var t := Apply(s, steps[0]);
      assert steps[..0] == [];
      forall n | 0 < n <= |steps| ensures Run(s, steps[..n]) == Run(t, steps[1..][..n - 1]) {
        assert steps[..n][1..] == steps[1..][..n - 1] && steps[..n][0] == steps[0];
      }
      if !Late(s, steps[0]) {
        MatchesThroughout(t, steps[1..]);
        forall n | 0 <= n <= |steps| - 1 ensures Run(t, steps[1..][..n]) == Run(s, steps[..n + 1]) {
        }
      } else {
        assert steps[..1][1..] == [] && Run(s, steps[..1]) == t;
      }
    }
  }

  // ---- an exchange during which others log in or out ----

  /** What may happen while an exchange is awaited. */
  predicate Meanwhile(step: Step) { step.Get? || step.Install? || step.Replace? }

  /** What the last login or logout left in the store. */
  function LastStored(store: Option<string>, steps: seq<Step>): Option<string>
    decreases |steps|
  {
    if steps == [] then store
    else LastStored(if steps[0].Replace? then steps[0].stored else store, steps[1..])
  }

  /** Only logins and logouts get through while the lock is held. */
  lemma {:induction false} HeldStays(s: State, steps: seq<Step>)
    requires s.lock.Some? && forall step :: step in steps ==> Meanwhile(step)
    ensures var t := Run(s, steps);
            && t.lock == s.lock && t.deployed == s.deployed && t.store == LastStored(s.store, steps)
            && ((forall step :: step in steps ==> !step.Replace?) ==> t == s)
    decreases |steps|
  {
    if steps != [] {
      assert steps[0] in steps;
      HeldStays(Apply(s, steps[0]), steps[1..]);
    }
  }

  /** A renewal, whatever comes in while its exchange is awaited, leaves a matching cache exactly
      when the last login or logout meanwhile left the token current that it started with. */
  lemma RenewalMatchesExactly(s: State, id: int, now: int, others: seq<Step>, api: string, endpoint: string, expiresAt: int)
    requires s.lock.None? && Apply(s, Get(id, now)).lock.Some?
    requires forall o :: o in others ==> Meanwhile(o)
    ensures var t := Run(s, [Get(id, now)] + others + [Exchanged(api, endpoint, expiresAt)]);
            Matches(t) <==> Resolve(LastStored(s.store, others), s.deployed) == Current(s)
  {
    HeldStays(Apply(s, Get(id, now)), others);
    RunAround(s, Get(id, now), others, Exchanged(api, endpoint, expiresAt));
  }

  /** A swap that is proven leaves a matching cache exactly when no login or logout meanwhile left
      another token current than the one it installed. */
  lemma SwapMatchesExactly(s: State, id: int, token: string, others: seq<Step>, api: string, endpoint: string, expiresAt: int)
    requires s.lock.None? && token != ""
    requires forall o :: o in others ==> Meanwhile(o)
    ensures var t := Run(s, [Install(id, token)] + others + [Exchanged(api, endpoint, expiresAt)]);
            Matches(t) <==> Resolve(LastStored(Some(token), others), s.deployed) == Some(token)
  {
    HeldStays(Apply(s, Install(id, token)), others);
    RunAround(s, Install(id, token), others, Exchanged(api, endpoint, expiresAt));
  }

  /** A refused swap puts back what it replaced, over whatever was stored meanwhile: a login or
      logout during it survives exactly when it stored what was there before the swap. */
  lemma RefusedSwapKeepsLoginExactly(s: State, id: int, token: string, others: seq<Step>)
    requires s.lock.None? && token != ""
    requires forall o :: o in others ==> Meanwhile(o)
    ensures var t := Run(s, [Install(id, token)] + others + [Refused]);
            t == s && (t.store == LastStored(s.store, others) <==>
                         (forall o :: o in others ==> !o.Replace?) || LastLogin(others) == s.store)
  {
    HeldStays(Apply(s, Install(id, token)), others);
    RunAround(s, Install(id, token), others, Refused);
    LastLoginStays(s.store, others);
  }

  /** The value of the last login or logout, if there is one. */
  function LastLogin(steps: seq<Step>): Option<string> {
    if steps == [] then None
    else if steps[|steps| - 1].Replace? then steps[|steps| - 1].stored
    else LastLogin(steps[..|steps| - 1])
  }

  lemma {:induction false} LastStoredSnoc(store: Option<string>, steps: seq<Step>, step: Step)
    ensures LastStored(store, steps + [step]) == if step.Replace? then step.stored else LastStored(store, steps)
    decreases |steps|
  {
    if steps == [] {
      assert [] + [step] == [step] && [step][1..] == [];
    } else {
      assert (steps + [step])[1..] == steps[1..] + [step];
      LastStoredSnoc(if steps[0].Replace? then steps[0].stored else store, steps[1..], step);
    }
  }

  lemma {:induction false} LastLoginStays(store: Option<string>, steps: seq<Step>)
    ensures LastStored(store, steps) == if exists o :: o in steps && o.Replace? then LastLogin(steps) else store
    decreases |steps|
  {
    if steps != [] {
      var (front, last) := (steps[..|steps| - 1], steps[|steps| - 1]);
      assert steps == front + [last];
      LastLoginStays(store, front);
      LastStoredSnoc(store, front, last);
    }
  }

  /** A refused renewal, on the other hand, leaves the last login or logout standing. */
  lemma RefusedRenewalKeepsLogin(s: State, id: int, now: int, others: seq<Step>)
    requires s.lock.None? && Apply(s, Get(id, now)).lock.Some?
    requires forall o :: o in others ==> Meanwhile(o)
    ensures var t := Run(s, [Get(id, now)] + others + [Refused]);
            t.store == LastStored(s.store, others) && t.lock.None?
  {
    HeldStays(Apply(s, Get(id, now)), others);
    RunAround(s, Get(id, now), others, Refused);
  }

  lemma {:induction false} RunSnoc(s: State, steps: seq<Step>, last: Step)
    ensures Run(s, steps + [last]) == Apply(Run(s, steps), last)
    decreases |steps|
  {
    if steps == [] {
      assert [] + [last] == [last] && [last][1..] == [];
    } else {
      assert (steps + [last])[1..] == steps[1..] + [last];
      RunSnoc(Apply(s, steps[0]), steps[1..], last);
    }
  }

  lemma RunAround(s: State, first: Step, others: seq<Step>, last: Step)
    ensures Run(s, [first] + others + [last]) == Apply(Run(Apply(s, first), others), last)
  {
    RunSnoc(s, [first] + others, last);
    assert ([first] + others)[1..] == others;
  }

  /** So a login with another token while a renewal awaits its exchange leaves the cache with an
      API token of the old one. */
  lemma LoginDuringRenewal(s: State, id: int, now: int, token: string, api: string, endpoint: string, expiresAt: int)
    requires s.lock.None? && Current(s).Some? && !Usable(s.cache, now) && token != "" && Current(s) != Some(token)
    ensures !Matches(Run(s, [Get(id, now)] + [Replace(Some(token))] + [Exchanged(api, endpoint, expiresAt)]))
  {
    RenewalMatchesExactly(s, id, now, [Replace(Some(token))], api, endpoint, expiresAt);
    assert [Replace(Some(token))][1..] == [];
  }

  // ---- a swap that fails ----

  /** Steps that leave the awaited exchange awaited. */
  predicate Waits(step: Step) { step.Get? || step.Install? }

  /** However many requests come in meanwhile, a swap or a renewal whose exchange raises leaves
      the store and the cache exactly as they were when it took the lock. */
  lemma FailureChangesNothing(s: State, step: Step, others: seq<Step>)
    requires s.lock.None? && Waits(step) && Apply(s, step).lock.Some?
    requires forall o :: o in others ==> Waits(o)
    ensures Apply(Run(Apply(s, step), others), Refused) == s
  {
    HeldStays(Apply(s, step), others);
  }

  /** And one whose exchange returns leaves the new token stored and its API token cached. */
  lemma SwapInstalls(s: State, id: int, token: string, others: seq<Step>, api: string, endpoint: string, expiresAt: int)
    requires s.lock.None? && token != ""
    requires forall o :: o in others ==> Waits(o)
    ensures Apply(Run(Apply(s, Install(id, token)), others), Exchanged(api, endpoint, expiresAt)) ==
            State(Some(token), s.deployed, Some(Api(api, endpoint, expiresAt, token)), None)
  {
    HeldStays(Apply(s, Install(id, token)), others);
  }

  /** A cancelled swap, however, is not undone: the token it did not get to prove stays stored. */
  lemma CancelledSwapStays(s: State, id: int, token: string)
    requires s.lock.None? && token != "" && Current(s) != Some(token)
    ensures var t := Run(s, [Install(id, token), Cancelled]);
            t.lock.None? && Current(t) == Some(token) && t.cache.None?
  {
    assert [Install(id, token), Cancelled][1..] == [Cancelled] && [Cancelled][1..] == [];
    assert Run(s, [Install(id, token), Cancelled]) == Run(Apply(s, Install(id, token)), [Cancelled]);
  }

  // ---- when a token is renewed ----

  /** A request starts an exchange, with the stored token or else the deployed one, exactly when no
      exchange is under way, the cached token has no more than five minutes left, and there is a
      token that is not empty to start it with. */
  lemma RenewsExactly(s: State, id: int, now: int)
    ensures var t := Apply(s, Get(id, now));
            var lasting := s.cache.Some? && s.cache.value.expiresAt > now + 5 * 60;
            var stored, deployed := s.store.Some? && |s.store.value| > 0, s.deployed.Some? && |s.deployed.value| > 0;
            && (s.lock.None? && !lasting && (stored || deployed) ==>
                  t == s.(lock := Some(Renewing(id, if stored then s.store.value else s.deployed.value))))
            && (s.lock.Some? || lasting || !(stored || deployed) ==> t == s)
  {
  }
}
