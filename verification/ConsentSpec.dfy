/**
  Virtual keys, tenants and the gateway's map of limits and audit flags, one request at a time:
  what each request does to the database rows, the gateway and the vault, whatever external call
  fails.
 */
module ConsentSpec {
  import opened Wrappers
  import opened KeyLimits

  datatype Tenant = Tenant(audit: bool, product: bool)

  datatype KeyRow = KeyRow(project: string, tpm: Option<int>, tier: Option<string>, period: Option<string>)

  /** The database rows; the gateway's map and live subscriptions; the vault's secrets; and every
      key id ever drawn. */
  datatype Plane = Plane(tenants: map<string, Tenant>, projects: map<string, string>, keys: map<string, KeyRow>,
                         limits: Limits, live: set<string>, secrets: set<string>, drawn: set<string>)

  /** How an external call goes: it works, it raises without effect, or it raises although it
      took effect. */
  datatype Fate = Fine | Lost | Late

  datatype Request =
    | CreateTenant(tenant: string, product: bool)
    | CreateProject(project: string, tenant: string)
    | CreateKey(key: string, row: KeyRow, subscribe: Fate, store: Fate, limit: Fate, flag: Fate, unsubscribe: Fate, unstore: Fate)
    | DeleteKey(key: string, unsubscribe: Fate, unlimit: Fate, unstore: Fate)
    | UpdateTenant(tenant: string, audit: bool, order: seq<string>, flag: Fate)
    | DeleteTenant(tenant: string)

  const FRESH := Plane(map[], map[], map[], map[], {}, {}, {})

  predicate TookEffect(f: Fate) { f != Lost }

  /** A change of the gateway's map: the new map, and whether the call returned. */
  datatype Pushed = Pushed(limits: Limits, returned: bool)

  ghost function Push(m: Limits, op: Op, fate: Fate): Pushed {
    match Merge(m, op)
    case Err(_) => Pushed(m, false)
    case Ok(n) => Pushed(if TookEffect(fate) then n else m, fate.Fine?)
  }

  predicate IsKeyOf(s: Plane, key: string, tenant: string) {
    key in s.keys && s.keys[key].project in s.projects && s.projects[s.keys[key].project] == tenant
  }

  /** Limits first, then the flag if the tenant is audited. */
  ghost function Publish(m: Limits, r: Request, audited: bool): Pushed
    requires r.CreateKey?
  {
    var limited := Push(m, SetLimits(r.key, r.row.tpm, r.row.tier, r.row.period), r.limit);
    if limited.returned && audited then Push(limited.limits, SetAudit([r.key], true), r.flag) else limited
  }

  ghost function Created(s: Plane, r: Request): Plane
    requires r.CreateKey?
  {
    if r.row.project !in s.projects then s
    else
      var tenant := s.projects[r.row.project];
      if tenant !in s.tenants || !s.tenants[tenant].product then s
      else Issued(s, r, Publish(s.limits, r, s.tenants[tenant].audit))
  }

  /** The last part: the row is added, or the subscription and the secret are taken back. */
  function Concluded(s: Plane, r: Request, pushed: Pushed): Plane
    requires r.CreateKey?
  {
    if pushed.returned then s.(limits := pushed.limits, keys := s.keys[r.key := r.row])
    else s.(limits := pushed.limits,
            live := if TookEffect(r.unsubscribe) then s.live - {r.key} else s.live,
            secrets := if TookEffect(r.unstore) then s.secrets - {r.key} else s.secrets)
  }

  function SecretStored(s: Plane, r: Request): Plane
    requires r.CreateKey?
  {
    if TookEffect(r.store) then s.(secrets := s.secrets + {r.key}) else s
  }

  function Subscribed(s: Plane, r: Request): Plane
    requires r.CreateKey?
  {
    var s0 := s.(drawn := s.drawn + {r.key});
    if TookEffect(r.subscribe) then s0.(live := s0.live + {r.key}) else s0
  }

  /** Subscription, secret, gateway map, row; `pushed` is what the map updates come to. */
  function Issued(s: Plane, r: Request, pushed: Pushed): Plane
    requires r.CreateKey?
  {
    var s1 := Subscribed(s, r);
    if !r.subscribe.Fine? then s1
    else
      var s2 := SecretStored(s1, r);
      if !r.store.Fine? then s2 else Concluded(s2, r, pushed)
  }

  ghost function Deleted(s: Plane, r: Request): Plane
    requires r.DeleteKey?
  {
    if r.key !in s.keys then s
    else s.(live := if TookEffect(r.unsubscribe) then s.live - {r.key} else s.live,
            limits := if TookEffect(r.unlimit) then RemoveKeyLimit(s.limits, r.key) else s.limits,
            secrets := if TookEffect(r.unstore) then s.secrets - {r.key} else s.secrets,
            keys := s.keys - {r.key})
  }

  /** The rows the database answers with, in its order. */
  ghost predicate Lists(s: Plane, tenant: string, order: seq<string>) {
    forall k :: k in order <==> IsKeyOf(s, k, tenant)
  }

  ghost function Updated(s: Plane, r: Request): Plane
    requires r.UpdateTenant?
  {
    if r.tenant !in s.tenants || s.tenants[r.tenant].audit == r.audit then s
    else
      var pushed := if r.order == [] then Pushed(s.limits, true) else Push(s.limits, SetAudit(r.order, r.audit), r.flag);
      var s1 := s.(limits := pushed.limits);
      if pushed.returned then s1.(tenants := s1.tenants[r.tenant := s1.tenants[r.tenant].(audit := r.audit)]) else s1
  }

  function TenantDeleted(s: Plane, tenant: string): Plane {
    if tenant !in s.tenants || (exists k :: k in s.keys && IsKeyOf(s, k, tenant)) then s
    else s.(tenants := s.tenants - {tenant}, projects := map p | p in s.projects && s.projects[p] != tenant :: s.projects[p])
  }

  /** Ids are drawn at random: one drawn before is not drawn again. */
  ghost function Apply(s: Plane, r: Request): Plane {
    match r
    case CreateTenant(t, product) => if t in s.tenants then s else s.(tenants := s.tenants[t := Tenant(false, product)])
    case CreateProject(p, t) => if p in s.projects || t !in s.tenants then s else s.(projects := s.projects[p := t])
    case CreateKey(k, _, _, _, _, _, _, _) => if k in s.drawn then s else Created(s, r)
    case DeleteKey(_, _, _, _) => Deleted(s, r)
    case UpdateTenant(t, _, order, _) => if Lists(s, t, order) then Updated(s, r) else s
    case DeleteTenant(t) => TenantDeleted(s, t)
  }

  ghost function Run(s: Plane, rs: seq<Request>): Plane
    decreases |rs|
  {
    if rs == [] then s else Run(Apply(s, rs[0]), rs[1..])
  }
}
