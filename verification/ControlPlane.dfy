/** The request handlers that issue and delete keys and switch a tenant's auditing. */
module ControlPlane {
  import opened Wrappers
  import opened KeyLimits
  import opened ConsentSpec

  datatype Reply = Done | NotFound | Refused | BadGateway | Crashed

  class Portal {
    var tenants: map<string, Tenant>
    var projects: map<string, string>
    var keys: map<string, KeyRow>
    var limits: Limits
    var live: set<string>
    var secrets: set<string>
    var drawn: set<string>

    ghost function View(): Plane
      reads this
    {
      Plane(tenants, projects, keys, limits, live, secrets, drawn)
    }

    constructor ()
      ensures View() == FRESH
    {
      tenants, projects, keys, limits, live, secrets, drawn := map[], map[], map[], map[], {}, {}, {};
    }

    /** `upsert_key_limits` or `set_audit_flag` with no other writer about. */
    method PushToGateway(op: Op, fate: Fate) returns (returned: bool)
      requires !op.Remove?
      modifies this`limits
      ensures Pushed(limits, returned) == Push(old(limits), op, fate)
    {
      var r: Result<Limits, Problem>;
      match op {
        case SetLimits(sub, tpm, tier, period) => r := MergeKeyLimit(limits, sub, tpm, tier, period);
        case SetAudit(subs, enabled) => r := MergeAuditFlag(limits, subs, enabled);
      }
      if r.Err? { return false; }
      if fate != Lost { limits := r.value; }
      return fate == Fine;
    }

    /** The limits, then the flag if the tenant is audited. */
    method PublishLimits(r: Request, audited: bool) returns (published: bool)
      requires r.CreateKey?
      modifies this`limits
      ensures Pushed(limits, published) == Publish(old(limits), r, audited)
    {
      published := PushToGateway(SetLimits(r.key, r.row.tpm, r.row.tier, r.row.period), r.limit);
      if published && audited {
        published := PushToGateway(SetAudit([r.key], true), r.flag);
      }
    }

    /** The part of `create_key` after its checks: subscription, secret, limits, flag, row; if
        limits or flag fail, the subscription and the secret are taken back as well as can be. */
    method Issue(r: Request, audited: bool) returns (reply: Reply)
      requires r.CreateKey?
      modifies this
      ensures View() == Issued(old(View()), r, Publish(old(limits), r, audited))
      ensures reply == Done ==> r.key in keys
      ensures reply != Done ==> keys == old(keys)
      ensures reply == if r.subscribe != Fine || r.store != Fine then Crashed
                       else if Publish(old(limits), r, audited).returned then Done else BadGateway
    {
      drawn := drawn + {r.key};
      if r.subscribe != Lost { live := live + {r.key}; }
      if r.subscribe != Fine { return Crashed; }
      if r.store != Lost { secrets := secrets + {r.key}; }
      if r.store != Fine { return Crashed; }
      var published := PublishLimits(r, audited);
      ghost var pushed := Pushed(limits, published);
      if !published {
        if r.unsubscribe != Lost { live := live - {r.key}; }
        if r.unstore != Lost { secrets := secrets - {r.key}; }
        assert View() == Issued(old(View()), r, pushed);
        return BadGateway;
      }
      keys := keys[r.key := r.row];
      assert View() == Issued(old(View()), r, pushed);
      return Done;
    }

    method CreateKey(r: Request) returns (reply: Reply)
      requires r.CreateKey? && r.key !in drawn
      modifies this
      ensures View() == Apply(old(View()), r)
      ensures reply == Done ==> r.key in keys
      ensures reply != Done ==> keys == old(keys)
      ensures reply == NotFound <==> r.row.project !in old(projects)
      ensures reply == Refused <==> r.row.project in old(projects) &&
                                    var t := old(projects)[r.row.project]; t !in old(tenants) || !old(tenants)[t].product
      ensures reply == Crashed ==> r.subscribe != Fine || r.store != Fine
      ensures reply == BadGateway ==>
                r.row.project in old(projects) && old(projects)[r.row.project] in old(tenants) &&
                !Publish(old(limits), r, old(tenants)[old(projects)[r.row.project]].audit).returned
    {
      if r.row.project !in projects { return NotFound; }
      var tenant := projects[r.row.project];
      if tenant !in tenants || !tenants[tenant].product { return Refused; }
      reply := Issue(r, tenants[tenant].audit);
    }

    /** `delete_key`: the row goes whatever the gateway and the vault say. */
    method DeleteKey(r: Request) returns (reply: Reply)
      requires r.DeleteKey?
      modifies this
      ensures View() == Apply(old(View()), r)
      ensures reply == (if r.key in old(keys) then Done else NotFound)
    {
      if r.key !in keys { return NotFound; }
      if r.unsubscribe != Lost { live := live - {r.key}; }
      if r.unlimit != Lost { limits := RemoveKeyLimit(limits, r.key); }
      if r.unstore != Lost { secrets := secrets - {r.key}; }
      keys := keys - {r.key};
      return Done;
    }

    /** `update_tenant` with `_apply_audit_flag`: gateway first, row second. */
    method UpdateTenant(r: Request) returns (reply: Reply)
      requires r.UpdateTenant? && Lists(View(), r.tenant, r.order)
      modifies this
      ensures View() == Apply(old(View()), r)
      ensures reply == Done ==> r.tenant in tenants && tenants[r.tenant].audit == r.audit
      ensures reply != Done ==> tenants == old(tenants)
      ensures reply == NotFound <==> r.tenant !in old(tenants)
      ensures reply == BadGateway <==>
                && r.tenant in old(tenants) && old(tenants)[r.tenant].audit != r.audit && r.order != []
                && !Push(old(limits), SetAudit(r.order, r.audit), r.flag).returned
    {
      if r.tenant !in tenants { return NotFound; }
      if r.audit != tenants[r.tenant].audit {
        if r.order != [] {
          var returned := PushToGateway(SetAudit(r.order, r.audit), r.flag);
          if !returned { return BadGateway; }
        }
        tenants := tenants[r.tenant := tenants[r.tenant].(audit := r.audit)];
      }
      return Done;
    }
  }
}
