/** Inventory items, and the hard constraints a buyer's profile puts on them. */
module RecommendationDomain {
  import opened Prelude
  import opened LeadDomain
  import opened Store

  type PropertyId = nat

  /** An inventory item as it is mirrored locally. */
  datatype Property = Property(
    id: PropertyId,
    org: OrgId,
    externalId: string,
    price: real,
    zone: string,
    propertyType: PropertyType,
    features: seq<string>,
    description: string,
    updatedAt: Time)

  /** Budget, zone and type as hard constraints; an absent one constrains nothing. */
  predicate MatchesHardFilters(p: Property, profile: BuyerProfile) {
    && (profile.budget.Some? ==> profile.budget.value.minimum <= p.price <= profile.budget.value.maximum)
    && (profile.locations != [] ==> p.zone in profile.locations)
    && (profile.propertyType.Some? ==> p.propertyType == profile.propertyType.value)
  }

  predicate DistinctProperties(properties: seq<Property>) {
    forall i, j :: 0 <= i < j < |properties| ==> properties[i].id != properties[j].id
  }
}
