/** What the requests are for: consent is given by a toggle and by nothing else, keys are issued for
    tenants that have a product, and deleting a key undoes its issue. */
module ConsentMeaning {
  import opened Wrappers
  import opened KeyLimits
  import opened ConsentSpec
  import opened ConsentProofs

  // ---- consent ----

  /** The gateway took the change, or there was no key to change. */
  ghost predicate GatewayTook(s: Plane, r: Request)
    requires r.UpdateTenant?
  {
    r.order == [] || (r.flag.Fine? && Merge(s.limits, SetAudit(r.order, r.audit)).Ok?)
  }

  /** A tenant's consent is what the last toggle that got through asked for; a new tenant has given
      none, and no other request touches it. */
  lemma ConsentChanges(s: Plane, r: Request, tenant: string)
    requires tenant in Apply(s, r).tenants
    ensures var t := Apply(s, r);
            if tenant !in s.tenants then r.CreateTenant? && r.tenant == tenant && !t.tenants[tenant].audit
            else
              && t.tenants[tenant].product == s.tenants[tenant].product
              && t.tenants[tenant].audit ==
                   if r.UpdateTenant? && r.tenant == tenant && Lists(s, tenant, r.order) && GatewayTook(s, r) then r.audit
                   else s.tenants[tenant].audit
  {
    match r {
      case UpdateTenant(_, _, _, _) =>
        if Lists(s, r.tenant, r.order) { ToggleConsents(s, r, tenant); }
      case CreateKey(_, _, _, _, _, _, _, _) => KeysLeaveTenants(s, r);
      case DeleteKey(_, _, _, _) => KeysLeaveTenants(s, r);
      case _ =>
    }
  }

  lemma KeysLeaveTenants(s: Plane, r: Request)
    requires r.CreateKey? || r.DeleteKey?
    ensures Apply(s, r).tenants == s.tenants && Apply(s, r).projects == s.projects
  {
    if r.CreateKey? && r.row.project in s.projects && s.projects[r.row.project] in s.tenants {
      IssueFrame(s, r, Publish(s.limits, r, s.tenants[s.projects[r.row.project]].audit));
    }
  }

  lemma ToggleConsents(s: Plane, r: Request, tenant: string)
    requires r.UpdateTenant? && tenant in Updated(s, r).tenants
    ensures tenant in s.tenants && Updated(s, r).tenants[tenant].product == s.tenants[tenant].product
    ensures Updated(s, r).tenants[tenant].audit == if r.tenant == tenant && GatewayTook(s, r) then r.audit else s.tenants[tenant].audit
  {
    PushReturns(s.limits, SetAudit(r.order, r.audit), r.flag);
  }

  lemma PushReturns(m: Limits, op: Op, fate: Fate)
    ensures Push(m, op, fate).returned <==> fate.Fine? && Merge(m, op).Ok?
  {
  }

  /** No tenant is audited for whom nobody has asked for it. */
  lemma {:induction false} NobodyAskedNobodyAudited(s: Plane, rs: seq<Request>, tenant: string)
    requires tenant in s.tenants ==> !s.tenants[tenant].audit
    requires forall r :: r in rs && r.UpdateTenant? && r.tenant == tenant ==> !r.audit
    ensures var t := Run(s, rs); tenant in t.tenants ==> !t.tenants[tenant].audit
    decreases |rs|
  {
    if rs != [] {
      assert rs[0] in rs;
      if tenant in Apply(s, rs[0]).tenants {
        ConsentChanges(s, rs[0], tenant);
      }
      NobodyAskedNobodyAudited(Apply(s, rs[0]), rs[1..], tenant);
    }
  }

  // ---- keys ----

  /** Every key is a project's, and the project a tenant's that has a product. */
  predicate Provisioned(s: Plane) {
    && (forall k :: k in s.keys ==> s.keys[k].project in s.projects)
    && (forall k :: k in s.keys ==> s.projects[s.keys[k].project] in s.tenants)
    && (forall k :: k in s.keys ==> s.tenants[s.projects[s.keys[k].project]].product)
  }

  lemma IssueStaysProvisioned(s: Plane, r: Request)
    requires Provisioned(s) && r.CreateKey?
    ensures Provisioned(Created(s, r))
  {
    if r.row.project in s.projects && s.projects[r.row.project] in s.tenants {
      IssueFrame(s, r, Publish(s.limits, r, s.tenants[s.projects[r.row.project]].audit));
    }
  }

  lemma RequestStaysProvisioned(s: Plane, r: Request)
    requires Provisioned(s)
    ensures Provisioned(Apply(s, r))
  {
    match r {
      case CreateKey(_, _, _, _, _, _, _, _) => IssueStaysProvisioned(s, r);
      case DeleteTenant(t) =>
        forall k | k in s.keys && t in s.tenants ensures IsKeyOf(s, k, t) ==> Apply(s, r) == s {
        }
      case _ =>
    }
  }

  lemma {:induction false} KeysAreProvisioned(rs: seq<Request>)
    ensures Provisioned(Run(FRESH, rs))
    decreases |rs|
  {
    if rs != [] {
      var front, last := rs[..|rs| - 1], rs[|rs| - 1];
      assert rs == front + [last];
      KeysAreProvisioned(front);
      RunSnoc(FRESH, front, last);
      RequestStaysProvisioned(Run(FRESH, front), last);
    }
  }

  lemma {:induction false} RunSnoc(s: Plane, rs: seq<Request>, r: Request)
    ensures Run(s, rs + [r]) == Apply(Run(s, rs), r)
    decreases |rs|
  {
    if rs == [] {
      assert [] + [r] == [r] && [r][1..] == [];
    } else {
      assert (rs + [r])[1..] == rs[1..] + [r];
      RunSnoc(Apply(s, rs[0]), rs[1..], r);
    }
  }

  /** A new key of a tenant with a product, every call working. */
  ghost predicate Accepted(s: Plane, r: Request) {
    && r.CreateKey? && r.key !in s.drawn
    && r.row.project in s.projects && s.projects[r.row.project] in s.tenants && s.tenants[s.projects[r.row.project]].product
    && r.subscribe.Fine? && r.store.Fine? && Publish(s.limits, r, s.tenants[s.projects[r.row.project]].audit).returned
  }

  /** Issued: the row, the subscription, the secret, and at the gateway the row's limits and the
      tenant's flag; all other keys are as they were. */
  lemma IssueGivesAll(s: Plane, r: Request)
    requires Tidy(s) && Accepted(s, r)
    ensures var t := Apply(s, r);
            && t.keys == s.keys[r.key := r.row] && t.live == s.live + {r.key} && t.secrets == s.secrets + {r.key}
            && Get(t.limits, r.key) == Entry(r.row.tpm, if r.row.tier == Some("none") then None else r.row.tier, r.row.period,
                                             s.tenants[s.projects[r.row.project]].audit)
            && forall k :: k != r.key ==> Stored(t.limits, k) == Stored(s.limits, k)
  {
    var audited := s.tenants[s.projects[r.row.project]].audit;
    assert r.key !in s.limits;
    PublishOwn(s.limits, r, audited);
    forall k | k != r.key ensures Stored(Publish(s.limits, r, audited).limits, k) == Stored(s.limits, k) {
      PublishElsewhere(s.limits, r, audited, k);
    }
  }

  /** Deleting a key that was issued, every call working, leaves everything as it was before, except
      that its id is spent. */
  lemma DeletionUndoesIssue(s: Plane, r: Request)
    requires Tidy(s) && Accepted(s, r) && r.key !in s.live && r.key !in s.secrets
    ensures Apply(Apply(s, r), DeleteKey(r.key, Fine, Fine, Fine)) == s.(drawn := s.drawn + {r.key})
  {
    IssueGivesAll(s, r);
    KeysLeaveTenants(s, r);
    SpentId(s, r);
    DeletionTakesAll(s, Apply(s, r), r.key, r.row);
  }

  /** A deletion with every call working takes away exactly what an issue gave. */
  lemma DeletionTakesAll(s: Plane, t: Plane, key: string, row: KeyRow)
    requires key !in s.limits && key !in s.keys && key !in s.live && key !in s.secrets
    requires t.tenants == s.tenants && t.projects == s.projects && t.keys == s.keys[key := row]
    requires t.live == s.live + {key} && t.secrets == s.secrets + {key}
    requires forall k :: k != key ==> Stored(t.limits, k) == Stored(s.limits, k)
    ensures Apply(t, DeleteKey(key, Fine, Fine, Fine)) == s.(drawn := t.drawn)
  {
    EntryGone(s.limits, t.limits, key);
    assert t.keys - {key} == s.keys && t.live - {key} == s.live && t.secrets - {key} == s.secrets;
  }

  lemma SpentId(s: Plane, r: Request)
    requires Accepted(s, r)
    ensures Apply(s, r).drawn == s.drawn + {r.key}
  {
  }

  lemma EntryGone(m: Limits, n: Limits, key: string)
    requires key !in m && forall k :: k != key ==> Stored(n, k) == Stored(m, k)
    ensures RemoveKeyLimit(n, key) == m
  {
    var rest := RemoveKeyLimit(n, key);
    forall k ensures Stored(rest, k) == Stored(m, k) {
      assert k != key ==> Stored(rest, k) == Stored(n, k);
    }
    SameMap(rest, m);
  }
}
