/** The plan catalogue and the lookup of a plan by its provider price id. */
module Plans {
  import opened Wrappers

  /** A catalogue entry; `isStripe` tells a paid plan (billed by the provider) from the free one. */
  datatype Plan = Plan(
    id: string,
    name: string,
    price: int,       // in cents
    interval: string,
    productId: string,
    priceId: string,
    isStripe: bool)

  /**
   * The three catalogue views the subscription router reads: every plan, the paid plans,
   * and the free plan. Their contents are configuration, so they are a parameter here.
   */
  datatype Catalogue = Catalogue(all: seq<Plan>, stripe: seq<Plan>, free: Plan)

  /** Index of the first plan whose price id is `priceId`. */
  function FindIndex(plans: seq<Plan>, priceId: string): (r: Option<nat>)
    ensures r.Some? ==> r.value < |plans| && plans[r.value].priceId == priceId
    ensures r.Some? ==> forall j :: 0 <= j < r.value ==> plans[j].priceId != priceId
    ensures r.None? ==> forall j :: 0 <= j < |plans| ==> plans[j].priceId != priceId
  {
    if plans == [] then None
    else if plans[0].priceId == priceId then Some(0)
    else
      match FindIndex(plans[1..], priceId)
      case None => None
      case Some(i) => Some(i + 1)
  }

  /** `plans.find((plan) => plan.priceId === priceId)`: the first plan with that price id, if any. */
  function FindByPriceId(plans: seq<Plan>, priceId: string): (r: Option<Plan>)
    ensures r.Some? ==> r.value in plans && r.value.priceId == priceId
    ensures r.Some? ==> exists i :: 0 <= i < |plans| && r.value == plans[i] &&
                                   forall j :: 0 <= j < i ==> plans[j].priceId != priceId
    ensures r.None? <==> forall p :: p in plans ==> p.priceId != priceId
  {
    match FindIndex(plans, priceId)
    case None => None
    case Some(i) => Some(plans[i])
  }

  /**
   * The plan `getCurrentSubscription` reports for a stored row: the paid plan whose price id
   * is the stored one, and otherwise the free plan, whatever the stored plan name says.
   */
  function ResolvePlan(c: Catalogue, storedPriceId: Option<string>, storedPlanName: string): (p: Plan)
    ensures p == c.free || (p in c.stripe && Truthy(storedPriceId) && p.priceId == storedPriceId.value)
    ensures Truthy(storedPriceId) && FindByPriceId(c.stripe, storedPriceId.value).Some? ==>
              p == FindByPriceId(c.stripe, storedPriceId.value).value
    ensures !Truthy(storedPriceId) ==> p == c.free
  {
    var found := if Truthy(storedPriceId) then FindByPriceId(c.stripe, storedPriceId.value) else None;
    var planInfo := if found.None? && storedPlanName == c.free.name then Some(c.free) else found;
    if planInfo.Some? then planInfo.value else c.free
  }

  /** The stored plan name never changes which plan is reported. */
  lemma ResolvePlanIgnoresName(c: Catalogue, storedPriceId: Option<string>, n1: string, n2: string)
    ensures ResolvePlan(c, storedPriceId, n1) == ResolvePlan(c, storedPriceId, n2)
  {
  }

  /** In a catalogue whose price ids are distinct, each plan's price id finds that plan. */
  lemma FindByPriceIdUnique(plans: seq<Plan>, i: nat)
    requires forall j, k :: 0 <= j < k < |plans| ==> plans[j].priceId != plans[k].priceId
    requires i < |plans|
    ensures FindByPriceId(plans, plans[i].priceId) == Some(plans[i])
  {
    var k := FindIndex(plans, plans[i].priceId);
    assert k.Some? && k.value <= i;
  }
}
