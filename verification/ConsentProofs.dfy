/** The gateway audits a key exactly when its tenant says so: what every request keeps, and
    exactly which failures break it. */
module ConsentProofs {
  import opened Wrappers
  import opened KeyLimits
  import opened ConsentSpec

  function TenantOf(s: Plane, key: string): string
    requires key in s.keys && s.keys[key].project in s.projects
  {
    s.projects[s.keys[key].project]
  }

  /** The gateway's entry of a key is its row's limits and its tenant's audit flag. */
  predicate RowAgrees(s: Plane, key: string)
    requires key in s.keys
  {
    var row := s.keys[key];
    && row.project in s.projects && s.projects[row.project] in s.tenants
    && Get(s.limits, key) == Entry(row.tpm, Tier(row.tier), row.period, s.tenants[TenantOf(s, key)].audit)
  }

  predicate Agree(s: Plane) { forall k :: k in s.keys ==> RowAgrees(s, k) }

  /** Nothing but drawn ids; every row has its subscription and its secret; every project its
      tenant; the map is sound. */
  ghost predicate Tidy(s: Plane) {
    && s.keys.Keys <= s.live <= s.drawn && s.keys.Keys <= s.secrets
    && s.limits.Keys <= s.drawn
    && (forall p :: p in s.projects ==> s.projects[p] in s.tenants)
    && Sound(s.limits)
  }

  lemma PushSound(m: Limits, op: Op, fate: Fate)
    requires Sound(m)
    ensures Sound(Push(m, op, fate).limits)
  {
    NoEmptyKept(m, op);
    if op.Remove? { RemovalShrinks(m, op.sub); }
  }

  lemma PushedEntry(m: Limits, op: Op, fate: Fate, sub: string)
    requires Push(m, op, fate).returned
    ensures Stored(Push(m, op, fate).limits, sub) == ChangedEntry(Stored(m, sub), sub, op)
  {
    ChangedKeyByKey(m, sub, op);
  }

  /** A change of key `key` alone leaves the others' entries as they were. */
  lemma PushedElsewhere(m: Limits, op: Op, fate: Fate, sub: string, key: string)
    requires op == SetLimits(key, if op.SetLimits? then op.tpm else None, if op.SetLimits? then op.tier else None,
                             if op.SetLimits? then op.period else None) || (op.SetAudit? && op.subs == [key])
    requires sub != key
    ensures Stored(Push(m, op, fate).limits, sub) == Stored(m, sub)
  {
    ChangedKeyByKey(m, sub, op);
  }

  lemma PublishElsewhere(m: Limits, r: Request, audited: bool, sub: string)
    requires r.CreateKey? && sub != r.key
    ensures Stored(Publish(m, r, audited).limits, sub) == Stored(m, sub)
  {
    var op := SetLimits(r.key, r.row.tpm, r.row.tier, r.row.period);
    PushedElsewhere(m, op, r.limit, sub, r.key);
    PushedElsewhere(Push(m, op, r.limit).limits, SetAudit([r.key], true), r.flag, sub, r.key);
  }

  lemma PublishOwn(m: Limits, r: Request, audited: bool)
    requires r.CreateKey? && r.key !in m && Publish(m, r, audited).returned
    ensures Get(Publish(m, r, audited).limits, r.key) == Entry(r.row.tpm, Tier(r.row.tier), r.row.period, audited)
  {
    var op := SetLimits(r.key, r.row.tpm, r.row.tier, r.row.period);
    var limited := Push(m, op, r.limit);
    PushedEntry(m, op, r.limit, r.key);
    assert Get(m, r.key) == NOTHING;
    assert Get(limited.limits, r.key) == Said(Stored(limited.limits, r.key)) == Entry(r.row.tpm, Tier(r.row.tier), r.row.period, false);
    if audited {
      PushedEntry(limited.limits, SetAudit([r.key], true), r.flag, r.key);
      var n := Publish(m, r, audited).limits;
      assert Get(n, r.key) == Said(Stored(n, r.key));
    }
  }

  lemma PublishSound(m: Limits, r: Request, audited: bool)
    requires r.CreateKey? && Sound(m)
    ensures Sound(Publish(m, r, audited).limits)
  {
    var op := SetLimits(r.key, r.row.tpm, r.row.tier, r.row.period);
    PushSound(m, op, r.limit);
    PushSound(Push(m, op, r.limit).limits, SetAudit([r.key], true), r.flag);
  }

  lemma IssueFrame(s: Plane, r: Request, pushed: Pushed)
    requires r.CreateKey?
    ensures var t := Issued(s, r, pushed);
            && t.tenants == s.tenants && t.projects == s.projects
            && (t.limits == s.limits || t.limits == pushed.limits)
            && (t.keys == s.keys || (pushed.returned && t.limits == pushed.limits && t.keys == s.keys[r.key := r.row]))
  {
  }

  lemma IssueTidy(s: Plane, r: Request, audited: bool)
    requires Tidy(s) && r.CreateKey? && r.key !in s.drawn
    ensures Tidy(Issued(s, r, Publish(s.limits, r, audited)))
  {
    var pushed := Publish(s.limits, r, audited);
    PublishSound(s.limits, r, audited);
    forall k | k in pushed.limits ensures k in s.drawn + {r.key} {
      if k != r.key {
        PublishElsewhere(s.limits, r, audited, k);
        assert Stored(pushed.limits, k) == Stored(s.limits, k);
      }
    }
    IssueTidyWith(s, r, pushed);
  }

  lemma IssueTidyWith(s: Plane, r: Request, pushed: Pushed)
    requires Tidy(s) && r.CreateKey? && r.key !in s.drawn
    requires Sound(pushed.limits) && pushed.limits.Keys <= s.drawn + {r.key}
    ensures Tidy(Issued(s, r, pushed))
  {
    IssueFrame(s, r, pushed);
  }

  /** A row that was there before keeps its entry. */
  lemma IssueElsewhere(s: Plane, r: Request, audited: bool, t: Plane, k: string)
    requires r.CreateKey? && k in s.keys && k != r.key && RowAgrees(s, k)
    requires t.tenants == s.tenants && t.projects == s.projects && k in t.keys && t.keys[k] == s.keys[k]
    requires t.limits == s.limits || t.limits == Publish(s.limits, r, audited).limits
    ensures RowAgrees(t, k)
  {
    PublishElsewhere(s.limits, r, audited, k);
    assert Get(t.limits, k) == Said(Stored(t.limits, k)) == Said(Stored(s.limits, k)) == Get(s.limits, k);
  }

  lemma IssueKeeps(s: Plane, r: Request, audited: bool)
    requires Tidy(s) && Agree(s) && r.CreateKey? && r.key !in s.drawn
    requires r.row.project in s.projects && s.projects[r.row.project] in s.tenants
    requires audited == s.tenants[s.projects[r.row.project]].audit
    ensures Tidy(Issued(s, r, Publish(s.limits, r, audited))) && Agree(Issued(s, r, Publish(s.limits, r, audited)))
  {
    var t := Issued(s, r, Publish(s.limits, r, audited));
    IssueTidy(s, r, audited);
    IssueFrame(s, r, Publish(s.limits, r, audited));
    forall k | k in t.keys ensures RowAgrees(t, k) {
      if k in s.keys {
        IssueElsewhere(s, r, audited, t, k);
      } else {
        PublishOwn(s.limits, r, audited);
      }
    }
  }

  lemma DeleteKeeps(s: Plane, r: Request)
    requires Tidy(s) && Agree(s) && r.DeleteKey?
    ensures Tidy(Deleted(s, r)) && Agree(Deleted(s, r))
  {
    if r.key in s.keys {
      var t := Deleted(s, r);
      NoEmptyKept(s.limits, Remove(r.key));
      RemovalShrinks(s.limits, r.key);
      forall k | k in t.keys ensures RowAgrees(t, k) {
        assert RowAgrees(s, k);
      }
    }
  }

  /** A toggle that reaches the gateway and then raises, with a key to change. */
  ghost predicate Torn(s: Plane, r: Request) {
    && r.UpdateTenant? && Lists(s, r.tenant, r.order) && r.tenant in s.tenants
    && s.tenants[r.tenant].audit != r.audit && r.order != []
    && r.flag.Late? && Merge(s.limits, SetAudit(r.order, r.audit)).Ok?
  }

  lemma ToggleTidy(s: Plane, r: Request)
    requires Tidy(s) && r.UpdateTenant? && Lists(s, r.tenant, r.order)
    ensures Tidy(Updated(s, r))
  {
    var op := SetAudit(r.order, r.audit);
    PushSound(s.limits, op, r.flag);
    var t := Updated(s, r);
    forall k | k in t.limits ensures k in t.drawn {
      ChangedKeyByKey(s.limits, k, op);
      if k in r.order {
        assert IsKeyOf(s, k, r.tenant);
      }
    }
  }

  lemma ToggleKeeps(s: Plane, r: Request)
    requires Tidy(s) && Agree(s) && r.UpdateTenant? && Lists(s, r.tenant, r.order) && !Torn(s, r)
    ensures Agree(Updated(s, r))
  {
    var pushed := if r.order == [] then Pushed(s.limits, true) else Push(s.limits, SetAudit(r.order, r.audit), r.flag);
    forall k | k in s.keys ensures RowAgrees(Updated(s, r), k) {
      assert RowAgrees(s, k);
      assert k in r.order <==> IsKeyOf(s, k, r.tenant);
      if pushed.returned {
        ToggledEntry(s.limits, r, pushed, k);
      }
    }
  }

  /** What a toggle that returned made of one key's entry. */
  lemma ToggledEntry(m: Limits, r: Request, pushed: Pushed, k: string)
    requires r.UpdateTenant? && pushed.returned
    requires pushed == if r.order == [] then Pushed(m, true) else Push(m, SetAudit(r.order, r.audit), r.flag)
    ensures Get(pushed.limits, k) == if k in r.order then Get(m, k).(a := r.audit) else Get(m, k)
  {
    var op := SetAudit(r.order, r.audit);
    ChangedKeyByKey(m, k, op);
    assert Get(pushed.limits, k) == Said(Stored(pushed.limits, k)) && Get(m, k) == Said(Stored(m, k));
  }

  lemma TornBreaks(s: Plane, r: Request)
    requires Tidy(s) && Agree(s) && Torn(s, r)
    ensures !Agree(Updated(s, r))
  {
    var t := Updated(s, r);
    var k := r.order[0];
    assert k in r.order && IsKeyOf(s, k, r.tenant) && RowAgrees(s, k);
    ChangedKeyByKey(s.limits, k, SetAudit(r.order, r.audit));
    assert Get(t.limits, k) == Said(Stored(t.limits, k)) && Get(s.limits, k) == Said(Stored(s.limits, k));
    assert !RowAgrees(t, k);
  }

  lemma TenantDeletionKeeps(s: Plane, tenant: string)
    requires Tidy(s) && Agree(s)
    ensures Tidy(TenantDeleted(s, tenant)) && Agree(TenantDeleted(s, tenant))
  {
    var t := TenantDeleted(s, tenant);
    forall k | k in t.keys ensures RowAgrees(t, k) {
      assert RowAgrees(s, k);
      if t != s {
        assert !IsKeyOf(s, k, tenant);
      }
    }
  }

  lemma SmallStepsKeep(s: Plane, r: Request)
    requires Tidy(s) && Agree(s) && (r.CreateTenant? || r.CreateProject?)
    ensures Tidy(Apply(s, r)) && Agree(Apply(s, r))
  {
    forall k | k in s.keys ensures RowAgrees(Apply(s, r), k) {
      assert RowAgrees(s, k);
    }
  }

  /** Every request leaves every key's gateway entry in agreement with its row and its tenant,
      except exactly a toggle whose gateway write takes effect and then raises. */
  lemma RequestKeeps(s: Plane, r: Request)
    requires Tidy(s) && Agree(s)
    ensures Tidy(Apply(s, r))
    ensures Agree(Apply(s, r)) <==> !Torn(s, r)
  {
    match r {
      case CreateKey(_, _, _, _, _, _, _, _) =>
        if r.key !in s.drawn && r.row.project in s.projects {
          IssueKeeps(s, r, s.tenants[s.projects[r.row.project]].audit);
        }
      case DeleteKey(_, _, _, _) => DeleteKeeps(s, r);
      case UpdateTenant(_, _, _, _) =>
        if Lists(s, r.tenant, r.order) {
          ToggleTidy(s, r);
          if Torn(s, r) { TornBreaks(s, r); } else { ToggleKeeps(s, r); }
        }
      case DeleteTenant(t) => TenantDeletionKeeps(s, t);
      case _ => SmallStepsKeep(s, r);
    }
  }

  /** No toggle in the run is told by the gateway that it failed when it did not. */
  predicate Honest(rs: seq<Request>) { forall r :: r in rs ==> r.UpdateTenant? ==> !r.flag.Late? }

  lemma {:induction false} RunKeeps(s: Plane, rs: seq<Request>)
    requires Tidy(s) && Agree(s) && Honest(rs)
    ensures Tidy(Run(s, rs)) && Agree(Run(s, rs))
    decreases |rs|
  {
    if rs != [] {
      assert rs[0] in rs;
      RequestKeeps(s, rs[0]);
      RunKeeps(Apply(s, rs[0]), rs[1..]);
    }
  }

  /** Consent: after any requests, with any other external call failing in any way, each key is
      audited at the gateway exactly when its tenant is, and limited as its row says. */
  lemma ConsentAgrees(rs: seq<Request>, key: string)
    requires Honest(rs) && key in Run(FRESH, rs).keys
    ensures var s := Run(FRESH, rs);
            && RowAgrees(s, key)
            && Audited(s.limits, key) == s.tenants[TenantOf(s, key)].audit
            && key in s.live && key in s.secrets
  {
    EmptyIsSound();
    RunKeeps(FRESH, rs);
  }

  // ---- subscriptions without a row ----

  ghost predicate NoOrphans(s: Plane) { s.live == s.keys.Keys }

  /** Requests that leave a live subscription without a row: the secret cannot be stored, a
      rollback cannot cancel the subscription, or a deletion cannot; or creating it raises
      although it was created. */
  ghost predicate LeavesOrphan(s: Plane, r: Request) {
    match r
    case CreateKey(k, row, subscribe, store, _, _, unsubscribe, _) =>
      && k !in s.drawn && row.project in s.projects && s.projects[row.project] in s.tenants
      && s.tenants[s.projects[row.project]].product
      && (|| subscribe.Late?
          || (subscribe.Fine? && !store.Fine?)
          || (subscribe.Fine? && store.Fine? && unsubscribe.Lost?
              && !Publish(s.limits, r, s.tenants[s.projects[row.project]].audit).returned))
    case DeleteKey(k, unsubscribe, _, _) => k in s.keys && unsubscribe.Lost?
    case _ => false
  }

  lemma OrphansExactly(s: Plane, r: Request)
    requires Tidy(s) && NoOrphans(s)
    ensures NoOrphans(Apply(s, r)) <==> !LeavesOrphan(s, r)
  {
    match r {
      case CreateKey(k, row, _, _, _, _, _, _) =>
        if k !in s.drawn && row.project in s.projects && s.projects[row.project] in s.tenants &&
           s.tenants[s.projects[row.project]].product {
          IssueOrphans(s, r, Publish(s.limits, r, s.tenants[s.projects[row.project]].audit));
        }
      case DeleteKey(k, _, _, _) =>
        if k in s.keys {
          assert k in s.live;
          assert Apply(s, r).keys.Keys == s.keys.Keys - {k};
        }
      case _ =>
    }
  }

  lemma IssueOrphans(s: Plane, r: Request, pushed: Pushed)
    requires NoOrphans(s) && r.CreateKey? && r.key !in s.live
    ensures NoOrphans(Issued(s, r, pushed)) <==>
            !(|| r.subscribe.Late?
              || (r.subscribe.Fine? && !r.store.Fine?)
              || (r.subscribe.Fine? && r.store.Fine? && r.unsubscribe.Lost? && !pushed.returned))
  {
    var t := Issued(s, r, pushed);
    if r.subscribe.Lost? {
      assert t.live == s.live;
    } else if r.subscribe.Late? || !r.store.Fine? {
      assert r.key in t.live && r.key !in t.keys;
    } else if pushed.returned {
      assert t.keys.Keys == s.keys.Keys + {r.key};
    } else if r.unsubscribe.Lost? {
      assert r.key in t.live && r.key !in t.keys;
    } else {
      assert t.live == s.live;
    }
  }

  ghost predicate NoStraySecrets(s: Plane) { s.secrets == s.keys.Keys }

  /** Requests that leave a secret without a row. */
  ghost predicate LeavesSecret(s: Plane, r: Request) {
    match r
    case CreateKey(k, row, subscribe, store, _, _, _, unstore) =>
      && k !in s.drawn && row.project in s.projects && s.projects[row.project] in s.tenants
      && s.tenants[s.projects[row.project]].product && subscribe.Fine?
      && (|| store.Late?
          || (store.Fine? && unstore.Lost? && !Publish(s.limits, r, s.tenants[s.projects[row.project]].audit).returned))
    case DeleteKey(k, _, _, unstore) => k in s.keys && unstore.Lost?
    case _ => false
  }

  /** A secret outlives its key exactly when the vault fails at the wrong moment. */
  lemma SecretsExactly(s: Plane, r: Request)
    requires Tidy(s) && NoStraySecrets(s)
    ensures NoStraySecrets(Apply(s, r)) <==> !LeavesSecret(s, r)
  {
    match r {
      case CreateKey(k, row, _, _, _, _, _, _) =>
        if k !in s.drawn && row.project in s.projects && s.projects[row.project] in s.tenants &&
           s.tenants[s.projects[row.project]].product {
          IssueSecrets(s, r, Publish(s.limits, r, s.tenants[s.projects[row.project]].audit));
        }
      case DeleteKey(k, _, _, _) =>
        if k in s.keys {
          assert k in s.secrets;
          assert Apply(s, r).keys.Keys == s.keys.Keys - {k};
        }
      case _ =>
    }
  }

  lemma IssueSecrets(s: Plane, r: Request, pushed: Pushed)
    requires NoStraySecrets(s) && r.CreateKey? && r.key !in s.secrets
    ensures NoStraySecrets(Issued(s, r, pushed)) <==>
            !(r.subscribe.Fine? && (r.store.Late? || (r.store.Fine? && r.unstore.Lost? && !pushed.returned)))
  {
    var t := Issued(s, r, pushed);
    if !r.subscribe.Fine? || r.store.Lost? {
      assert t.secrets == s.secrets && t.keys == s.keys;
    } else if r.store.Fine? && pushed.returned {
      assert t.keys.Keys == s.keys.Keys + {r.key};
    } else if r.store.Late? || r.unstore.Lost? {
      assert r.key in t.secrets && r.key !in t.keys;
    } else {
      assert t.secrets == s.secrets;
    }
  }

  // ---- subscriptions audited without a row ----

  /** A live subscription without a row that the gateway audits. */
  predicate Stray(s: Plane, key: string) { key in s.live && key !in s.keys && Audited(s.limits, key) }

  ghost predicate NoStrays(s: Plane) { forall k :: !Stray(s, k) }

  /** The flag of a new key reaches the gateway, and the call raises all the same. */
  ghost predicate FlagLands(s: Plane, r: Request)
    requires r.CreateKey?
  {
    var limited := Push(s.limits, SetLimits(r.key, r.row.tpm, r.row.tier, r.row.period), r.limit);
    limited.returned && r.flag.Late? && Merge(limited.limits, SetAudit([r.key], true)).Ok?
  }

  /** Requests that leave one behind: an audited key is deleted while neither its subscription nor
      its entry can be removed; or a key is issued for an audited tenant, its flag lands though
      the call raises, and the subscription cannot be cancelled. */
  ghost predicate LeavesStray(s: Plane, r: Request) {
    match r
    case DeleteKey(k, unsubscribe, unlimit, _) => k in s.keys && Audited(s.limits, k) && unsubscribe.Lost? && unlimit.Lost?
    case CreateKey(k, row, subscribe, store, _, _, unsubscribe, _) =>
      && k !in s.drawn && row.project in s.projects && s.projects[row.project] in s.tenants
      && s.tenants[s.projects[row.project]].product && s.tenants[s.projects[row.project]].audit
      && subscribe.Fine? && store.Fine? && unsubscribe.Lost? && FlagLands(s, r)
    case _ => false
  }

  lemma DeletionStrays(s: Plane, r: Request)
    requires Tidy(s) && NoStrays(s) && r.DeleteKey?
    ensures NoStrays(Deleted(s, r)) <==> !LeavesStray(s, r)
  {
    if r.key in s.keys {
      var t := Deleted(s, r);
      forall k | k != r.key ensures !Stray(t, k) {
        assert !Stray(s, k);
      }
      assert Stray(t, r.key) <==> LeavesStray(s, r);
    }
  }

  lemma PushIs(m: Limits, op: Op, fate: Fate)
    ensures Push(m, op, fate).limits == m || Push(m, op, fate).limits == Changed(m, op)
  {
  }

  lemma ToggleFrame(s: Plane, r: Request)
    requires r.UpdateTenant?
    ensures var t := Updated(s, r);
            && t.keys == s.keys && t.live == s.live
            && (t.limits == s.limits || t.limits == Changed(s.limits, SetAudit(r.order, r.audit)))
  {
    PushIs(s.limits, SetAudit(r.order, r.audit), r.flag);
  }

  lemma ToggleStrays(s: Plane, r: Request)
    requires NoStrays(s) && r.UpdateTenant? && Lists(s, r.tenant, r.order)
    ensures NoStrays(Updated(s, r))
  {
    var t := Updated(s, r);
    ToggleFrame(s, r);
    forall k ensures !Stray(t, k) {
      assert !Stray(s, k);
      FieldsSet(s.limits, SetAudit(r.order, r.audit), k);
      assert k in r.order <==> IsKeyOf(s, k, r.tenant);
    }
  }

  /** Whether the new key is audited once its map updates are through, or have failed. */
  lemma PublishedFlag(s: Plane, r: Request, audited: bool)
    requires r.CreateKey? && r.key !in s.limits
    ensures var pushed := Publish(s.limits, r, audited);
            !pushed.returned ==> (Audited(pushed.limits, r.key) <==> audited && FlagLands(s, r))
  {
    var op := SetLimits(r.key, r.row.tpm, r.row.tier, r.row.period);
    var limited := Push(s.limits, op, r.limit);
    FieldsSet(s.limits, op, r.key);
    FieldsSet(limited.limits, SetAudit([r.key], true), r.key);
    assert !Audited(s.limits, r.key) && !Audited(limited.limits, r.key);
  }

  lemma IssueStrays(s: Plane, r: Request, audited: bool)
    requires Tidy(s) && NoStrays(s) && r.CreateKey? && r.key !in s.drawn
    ensures NoStrays(Issued(s, r, Publish(s.limits, r, audited))) <==>
            !(audited && r.subscribe.Fine? && r.store.Fine? && r.unsubscribe.Lost? && FlagLands(s, r))
  {
    var pushed := Publish(s.limits, r, audited);
    var t := Issued(s, r, pushed);
    PublishedFlag(s, r, audited);
    if FlagLands(s, r) && audited {
      NotReturnedWhenFlagLands(s, r);
    }
    forall k | k != r.key ensures !Stray(t, k) {
      assert !Stray(s, k);
      PublishElsewhere(s.limits, r, audited, k);
      assert Get(pushed.limits, k) == Said(Stored(pushed.limits, k)) && Get(s.limits, k) == Said(Stored(s.limits, k));
      IssueKeepsOther(s, r, pushed, k);
    }
    IssuedKeyStrays(s, r, pushed);
  }

  lemma IssueKeepsOther(s: Plane, r: Request, pushed: Pushed, k: string)
    requires r.CreateKey? && k != r.key
    ensures var t := Issued(s, r, pushed);
            && (k in t.live <==> k in s.live) && (k in t.keys <==> k in s.keys)
            && (t.limits == s.limits || t.limits == pushed.limits)
  {
  }

  lemma IssuedKeyStrays(s: Plane, r: Request, pushed: Pushed)
    requires r.CreateKey? && r.key !in s.live && r.key !in s.keys && r.key !in s.limits
    ensures Stray(Issued(s, r, pushed), r.key) <==>
            r.subscribe.Fine? && r.store.Fine? && !pushed.returned && r.unsubscribe.Lost? && Audited(pushed.limits, r.key)
  {
  }

  lemma NotReturnedWhenFlagLands(s: Plane, r: Request)
    requires r.CreateKey? && FlagLands(s, r)
    ensures !Publish(s.limits, r, true).returned
  {
  }

  /** Every request leaves every audited live subscription with a row, except exactly those
      failures. */
  lemma StraysExactly(s: Plane, r: Request)
    requires Tidy(s) && NoStrays(s)
    ensures NoStrays(Apply(s, r)) <==> !LeavesStray(s, r)
  {
    match r {
      case CreateKey(k, row, _, _, _, _, _, _) =>
        if k !in s.drawn && row.project in s.projects && s.projects[row.project] in s.tenants &&
           s.tenants[s.projects[row.project]].product {
          IssueStrays(s, r, s.tenants[s.projects[row.project]].audit);
        }
      case DeleteKey(_, _, _, _) => DeletionStrays(s, r);
      case UpdateTenant(_, _, _, _) => if Lists(s, r.tenant, r.order) { ToggleStrays(s, r); }
      case _ =>
        forall k ensures Stray(Apply(s, r), k) <==> Stray(s, k) {
        }
    }
  }

  ghost predicate LeavesNoStray(s: Plane, rs: seq<Request>)
    decreases |rs|
  {
    rs == [] || (!LeavesStray(s, rs[0]) && LeavesNoStray(Apply(s, rs[0]), rs[1..]))
  }

  lemma {:induction false} RunLeavesNoStray(s: Plane, rs: seq<Request>)
    requires Tidy(s) && Agree(s) && NoStrays(s) && Honest(rs) && LeavesNoStray(s, rs)
    ensures NoStrays(Run(s, rs))
    decreases |rs|
  {
    if rs != [] {
      assert rs[0] in rs;
      RequestKeeps(s, rs[0]);
      StraysExactly(s, rs[0]);
      RunLeavesNoStray(Apply(s, rs[0]), rs[1..]);
    }
  }

  /** Whatever else fails: as long as no request is one of those and no toggle is torn, the gateway
      audits a live subscription only for a tenant that consents now. */
  lemma AuditedMeansConsented(rs: seq<Request>, key: string)
    requires Honest(rs) && LeavesNoStray(FRESH, rs)
    ensures var s := Run(FRESH, rs);
            key in s.live && Audited(s.limits, key) ==>
              key in s.keys && RowAgrees(s, key) && s.tenants[TenantOf(s, key)].audit
  {
    EmptyIsSound();
    RunKeeps(FRESH, rs);
    RunLeavesNoStray(FRESH, rs);
    assert !Stray(Run(FRESH, rs), key);
  }

  /** A key deleted while the gateway cannot be reached: its row is gone, its entry stays. */
  lemma UnreachableDelete(s: Plane, key: string, order: seq<string>) returns (t: Plane)
    requires Tidy(s) && Agree(s) && key in s.keys
    requires forall k :: k in order <==> k != key && IsKeyOf(s, k, TenantOf(s, key))
    ensures t == Apply(s, DeleteKey(key, Lost, Lost, Fine)) && Tidy(t) && Agree(t)
    ensures t.limits == s.limits && t.tenants == s.tenants && key in t.live && Lists(t, TenantOf(s, key), order)
  {
    t := Apply(s, DeleteKey(key, Lost, Lost, Fine));
    RequestKeeps(s, DeleteKey(key, Lost, Lost, Fine));
  }

  /** Consent withdrawn for a tenant: a key not among its rows is not touched. */
  lemma WithdrawalPasses(s: Plane, tenant: string, key: string, order: seq<string>) returns (t: Plane)
    requires Tidy(s) && Agree(s) && Lists(s, tenant, order) && key !in order
    requires tenant in s.tenants && s.tenants[tenant].audit
    ensures t == Apply(s, UpdateTenant(tenant, false, order, Fine)) && Agree(t)
    ensures tenant in t.tenants && !t.tenants[tenant].audit && t.live == s.live
    ensures Audited(t.limits, key) == Audited(s.limits, key)
  {
    var r := UpdateTenant(tenant, false, order, Fine);
    t := Apply(s, r);
    RequestKeeps(s, r);
    WithdrawalIs(s, tenant, order);
    FieldsSet(s.limits, SetAudit(order, false), key);
  }

  lemma WithdrawalIs(s: Plane, tenant: string, order: seq<string>)
    requires Sound(s.limits) && tenant in s.tenants && s.tenants[tenant].audit
    ensures Updated(s, UpdateTenant(tenant, false, order, Fine)) ==
            s.(limits := Changed(s.limits, SetAudit(order, false)),
               tenants := s.tenants[tenant := s.tenants[tenant].(audit := false)])
  {
    AuditOffShrinks(s.limits, order);
    if order == [] {
      assert Changed(s.limits, SetAudit(order, false)) == s.limits;
    }
  }

  /** What such an orphan costs: delete a key of an audited tenant while the gateway cannot be
      reached, then withdraw the tenant's consent. The withdrawal succeeds, and the deleted key's
      subscription is still live and still audited. */
  lemma OrphanOutlivesConsent(s: Plane, key: string, order: seq<string>)
    requires Tidy(s) && Agree(s) && key in s.keys && s.tenants[TenantOf(s, key)].audit
    requires forall k :: k in order <==> k != key && IsKeyOf(s, k, TenantOf(s, key))
    ensures var t := Run(s, [DeleteKey(key, Lost, Lost, Fine), UpdateTenant(TenantOf(s, key), false, order, Fine)]);
            && TenantOf(s, key) in t.tenants && !t.tenants[TenantOf(s, key)].audit && Agree(t)
            && key in t.live && Audited(t.limits, key)
  {
    assert RowAgrees(s, key);
    var s1 := UnreachableDelete(s, key, order);
    var s2 := WithdrawalPasses(s1, TenantOf(s, key), key, order);
    TwoRequests(s, DeleteKey(key, Lost, Lost, Fine), UpdateTenant(TenantOf(s, key), false, order, Fine));
  }

  lemma TwoRequests(s: Plane, x: Request, y: Request)
    ensures Run(s, [x, y]) == Apply(Apply(s, x), y)
  {
    assert [x, y][1..] == [y] && [y][1..] == [];
    assert Run(s, [x, y]) == Run(Apply(s, x), [y]) == Run(Apply(Apply(s, x), y), []);
  }
}
