/**
 Result classification: a resolved query result carries no tag saying which
 query produced it, so the hook probes its `data` for a marker key, first
 match wins, in the order channels, collections, categories, productTypes,
 attributes.
 */
module ResultClassifier {
  import opened FilterTypes

  predicate IsChannelQuery(data: QueryData) { data.channels.Some? }

  predicate IsCollectionQuery(data: QueryData) { data.collections.Some? }

  predicate IsCategoryQuery(data: QueryData) { data.categories.Some? }

  predicate IsProductTypeQuery(data: QueryData) { data.productTypes.Some? }

  predicate IsAttributeQuery(data: QueryData) { data.attributes.Some? }

  /** Whether `data` carries the marker key of dimension `d`. */
  predicate HasMarker(data: QueryData, d: Dimension) {
    match d
    case Channel => IsChannelQuery(data)
    case Collection => IsCollectionQuery(data)
    case Category => IsCategoryQuery(data)
    case ProductType => IsProductTypeQuery(data)
    case Attribute => IsAttributeQuery(data)
  }

  /** The dimension a result is taken for, or `None` when it carries no
      marker at all: the first dimension, in rank order, whose marker is
      present. */
  function Classify(data: QueryData): (r: Option<Dimension>)
    ensures r.None? <==> forall d :: !HasMarker(data, d)
    ensures r.Some? ==> HasMarker(data, r.value)
    ensures r.Some? ==> forall e :: Rank(e) < Rank(r.value) ==> !HasMarker(data, e)
  {
    if IsChannelQuery(data) then assert HasMarker(data, Channel); Some(Channel)
    else if IsCollectionQuery(data) then assert HasMarker(data, Collection); Some(Collection)
    else if IsCategoryQuery(data) then assert HasMarker(data, Category); Some(Category)
    else if IsProductTypeQuery(data) then assert HasMarker(data, ProductType); Some(ProductType)
    else if IsAttributeQuery(data) then assert HasMarker(data, Attribute); Some(Attribute)
    else
      assert forall d :: !HasMarker(data, d);
      None
  }
}
