/** What a toggle that the gateway carried out and then reported as failed leaves behind, and
    exactly which toggle puts it right. */
module ConsentRepair {
  import opened KeyLimits
  import opened ConsentSpec
  import opened ConsentProofs

  /** The gateway has the limits of the key's row, whatever its flag. */
  predicate LimitsAgree(s: Plane, key: string)
    requires key in s.keys
  {
    var row := s.keys[key];
    && row.project in s.projects && s.projects[row.project] in s.tenants
    && LimitsOf(s.limits, key) == Entry(row.tpm, Tier(row.tier), row.period, false)
  }

  lemma AgreesIs(s: Plane, key: string)
    requires key in s.keys && LimitsAgree(s, key)
    ensures RowAgrees(s, key) <==> Audited(s.limits, key) == s.tenants[TenantOf(s, key)].audit
  {
    var e := Get(s.limits, key);
    assert e == LimitsOf(s.limits, key).(a := e.a);
  }

  /** Some key of the tenant has the wrong flag at the gateway, and nothing else is wrong. */
  ghost predicate Astray(s: Plane, tenant: string) {
    && (forall k :: k in s.keys ==> LimitsAgree(s, k) && (!IsKeyOf(s, k, tenant) ==> RowAgrees(s, k)))
    && exists k :: IsKeyOf(s, k, tenant) && !RowAgrees(s, k)
  }

  /** Toggling changes flags of the tenant's keys, or nothing. */
  lemma ToggleIs(s: Plane, q: Request, k: string)
    requires q.UpdateTenant? && Lists(s, q.tenant, q.order) && k in s.keys && LimitsAgree(s, k)
    ensures var t := Updated(s, q);
            && t.keys == s.keys && t.projects == s.projects && LimitsAgree(t, k)
            && (Audited(t.limits, k) == Audited(s.limits, k) || (IsKeyOf(s, k, q.tenant) && Audited(t.limits, k) == q.audit))
  {
    ToggleFrame(s, q);
    assert k in q.order <==> IsKeyOf(s, k, q.tenant);
    FieldsSet(s.limits, SetAudit(q.order, q.audit), k);
  }

  /** Whether a toggle gets through. */
  ghost predicate Passes(s: Plane, q: Request)
    requires q.UpdateTenant? && q.tenant in s.tenants
  {
    q.audit != s.tenants[q.tenant].audit && q.flag.Fine? && Merge(s.limits, SetAudit(q.order, q.audit)).Ok?
  }

  lemma PassingRepairs(s: Plane, q: Request)
    requires q.UpdateTenant? && Lists(s, q.tenant, q.order) && Astray(s, q.tenant)
    requires q.tenant in s.tenants && Passes(s, q)
    ensures Agree(Updated(s, q))
  {
    var t := Updated(s, q);
    forall k | k in t.keys ensures RowAgrees(t, k) {
      ToggleIs(s, q, k);
      assert k in q.order <==> IsKeyOf(s, k, q.tenant);
      FieldsSet(s.limits, SetAudit(q.order, q.audit), k);
      AgreesIs(t, k);
      AgreesIs(s, k);
    }
  }

  lemma FailingDoesNot(s: Plane, q: Request)
    requires q.UpdateTenant? && Lists(s, q.tenant, q.order) && Astray(s, q.tenant)
    requires q.tenant in s.tenants && !Passes(s, q)
    ensures !Agree(Updated(s, q))
  {
    var t := Updated(s, q);
    var k :| IsKeyOf(s, k, q.tenant) && !RowAgrees(s, k);
    assert k in q.order && LimitsAgree(s, k);
    assert t.tenants == s.tenants;
    ToggleIs(s, q, k);
    AgreesIs(s, k);
    AgreesIs(t, k);
    FieldsSet(s.limits, SetAudit(q.order, q.audit), k);
    assert !RowAgrees(t, k);
  }

  /** A toggle of the tenant puts everything right if and only if it asks for what the table does
      not say, the gateway returns, and the map fits. */
  lemma RepairsExactly(s: Plane, q: Request)
    requires q.UpdateTenant? && Lists(s, q.tenant, q.order) && Astray(s, q.tenant)
    ensures q.tenant in s.tenants
    ensures Agree(Apply(s, q)) <==> Passes(s, q)
  {
    var k :| IsKeyOf(s, k, q.tenant) && !RowAgrees(s, k);
    assert LimitsAgree(s, k);
    if Passes(s, q) { PassingRepairs(s, q); } else { FailingDoesNot(s, q); }
  }

  /** A torn toggle leaves its tenant astray: the table says what it said, every key of the tenant
      has the flag that was asked for. */
  lemma TornLeavesAstray(s: Plane, r: Request)
    requires Tidy(s) && Agree(s) && Torn(s, r)
    ensures var t := Apply(s, r);
            && Tidy(t) && Astray(t, r.tenant) && t.tenants == s.tenants && t.keys == s.keys && t.live == s.live
            && t.projects == s.projects && forall k :: IsKeyOf(s, k, r.tenant) ==> Audited(t.limits, k) == r.audit
  {
    var t := Apply(s, r);
    ToggleTidy(s, r);
    forall k | k in s.keys
      ensures LimitsAgree(t, k) && (if IsKeyOf(s, k, r.tenant) then Audited(t.limits, k) == r.audit else RowAgrees(t, k))
    {
      assert RowAgrees(s, k);
      ToggleIs(s, r, k);
      assert k in r.order <==> IsKeyOf(s, k, r.tenant);
      FieldsSet(s.limits, SetAudit(r.order, r.audit), k);
      AgreesIs(t, k);
    }
    var k := r.order[0];
    assert k in r.order && IsKeyOf(s, k, r.tenant);
    AgreesIs(t, k);
    assert IsKeyOf(t, k, r.tenant) && !RowAgrees(t, k);
  }

  /** What it costs: after a torn switching-on, asking for auditing to be off succeeds at once and
      changes nothing, while the gateway goes on auditing every key of the tenant. */
  lemma TornOnCannotBeSwitchedOff(s: Plane, r: Request, order: seq<string>, flag: Fate)
    requires Tidy(s) && Agree(s) && Torn(s, r) && r.audit
    ensures var t := Apply(s, r);
            && Apply(t, UpdateTenant(r.tenant, false, order, flag)) == t
            && r.tenant in t.tenants && !t.tenants[r.tenant].audit
            && r.order != [] && forall k :: k in r.order ==> k in t.keys && k in t.live && Audited(t.limits, k)
  {
    TornLeavesAstray(s, r);
    forall k | k in r.order ensures IsKeyOf(s, k, r.tenant) {
    }
  }

  /** Right after a torn toggle, a toggle of its tenant puts everything right if and only if it
      asks for the same again and the gateway returns; it always fits. */
  lemma OnlyRepeatingRepairs(s: Plane, r: Request, q: Request)
    requires Tidy(s) && Agree(s) && Torn(s, r)
    requires q.UpdateTenant? && q.tenant == r.tenant && Lists(Apply(s, r), q.tenant, q.order)
    ensures Agree(Apply(Apply(s, r), q)) <==> q.audit == r.audit && q.flag.Fine?
  {
    var t := Apply(s, r);
    TornLeavesAstray(s, r);
    RepairsExactly(t, q);
    if q.audit == r.audit {
      var op := SetAudit(q.order, q.audit);
      forall k ensures Stored(Changed(t.limits, op), k) == Stored(t.limits, k) {
        ChangedKeyByKey(t.limits, k, op);
        if k in q.order {
          assert IsKeyOf(t, k, q.tenant) && Audited(t.limits, k) == q.audit;
        }
      }
      SameMap(Changed(t.limits, op), t.limits);
    }
  }
}
