/**
 * The admin console's organization list: the status and tier badges and
 * the counts computed from a fetched page of tenants. The server's reply is
 * a parameter.
 */
module OrgList {
  import opened Wrappers
  import Format

  /** A tenant as the list shows it (dates and owner fields are not modelled). */
  datatype Tenant = Tenant(id: string, slug: string, name: string, subscriptionTier: string, isActive: bool)

  datatype Badge = Badge(variant: Format.BadgeVariant, text: string)

  /** "Suspended" in the warning colour for an inactive tenant, "Active" in the success colour otherwise. */
  function StatusBadge(t: Tenant): (r: Badge)
    ensures r.text == "Suspended" <==> !t.isActive
    ensures r.text == "Active" <==> t.isActive
    ensures r.variant == Format.Warning <==> !t.isActive
    ensures r.variant == Format.Success <==> t.isActive
  {
    if !t.isActive then Badge(Format.Warning, "Suspended") else Badge(Format.Success, "Active")
  }

  const TierVariants: map<string, Format.BadgeVariant> :=
    map["free" := Format.Outline, "pro" := Format.Secondary, "enterprise" := Format.Default]

  /** The tier badge's colour: from the tier table, outline for any other tier. */
  function TierBadgeVariant(tier: string): (r: Format.BadgeVariant)
    ensures tier in TierVariants ==> r == TierVariants[tier]
    ensures tier !in TierVariants ==> r == Format.Outline
  {
    if tier in TierVariants then TierVariants[tier] else Format.Outline
  }

  /** Only enterprise is shown in the default colour and only pro in the secondary one. */
  lemma TierBadgeDistinguishesPaidTiers(tier: string)
    ensures TierBadgeVariant(tier) == Format.Default <==> tier == "enterprise"
    ensures TierBadgeVariant(tier) == Format.Secondary <==> tier == "pro"
    ensures TierBadgeVariant(tier) == Format.Outline <==> tier != "enterprise" && tier != "pro"
  {
  }

  /** `items.filter(t => t.is_active === active)`. */
  function WithActivity(items: seq<Tenant>, active: bool): (r: seq<Tenant>)
    ensures |r| <= |items|
    ensures forall t :: t in r <==> t in items && t.isActive == active
  {
    if items == [] then []
    else if items[0].isActive == active then [items[0]] + WithActivity(items[1..], active)
    else WithActivity(items[1..], active)
  }

  /** Every tenant of a page is counted once, as active or as suspended. */
  lemma {:induction false} ActivePlusSuspended(items: seq<Tenant>)
    ensures |WithActivity(items, true)| + |WithActivity(items, false)| == |items|
  {
    if items != [] {
      ActivePlusSuspended(items[1..]);
    }
  }

  datatype Stats = Stats(total: int, active: nat, suspended: nat)

  /** A page of tenants with the server's total, or a failure with or without an Error message. */
  datatype TenantReply = TenantsOk(items: seq<Tenant>, total: int) | TenantsFailed(message: Option<string>)

  const LoadFailedMessage := "Failed to load tenants"

  /** The stats of a fetched page: the total as the server reports it, the counts from the page. */
  function PageStats(items: seq<Tenant>, total: int): (r: Stats)
    ensures r.total == total
    ensures r.active + r.suspended == |items|
    ensures r.active == |WithActivity(items, true)|
  {
    ActivePlusSuspended(items);
    Stats(total, |WithActivity(items, true)|, |WithActivity(items, false)|)
  }

  class OrganizationsPage {
    var tenants: seq<Tenant>
    var loading: bool
    var error: Option<string>
    var stats: Stats

    constructor ()
      ensures tenants == [] && loading && error == None && stats == Stats(0, 0, 0)
    {
      tenants, loading, error := [], true, None;
      stats := Stats(0, 0, 0);
    }

    /**
     * `fetchTenants`: the error is cleared first; a page replaces the list
     * and the stats, a failure records its message; loading ends either way.
     */
    method FetchTenants(reply: TenantReply)
      modifies this
      ensures reply.TenantsOk? ==>
                tenants == reply.items && stats == PageStats(reply.items, reply.total) && error == None
      ensures reply.TenantsFailed? ==>
                tenants == old(tenants) && stats == old(stats)
                && error == Some(reply.message.GetOr(LoadFailedMessage))
      ensures !loading
    {
      loading := true;
      error := None;
      match reply {
        case TenantsOk(items, total) =>
          tenants := items;
          stats := PageStats(items, total);
        case TenantsFailed(message) =>
          error := Some(message.GetOr(LoadFailedMessage));
      }
      loading := false;
    }
  }
}
