/**
 Query planning of the initial-filter-state hook: from the requested
 dimensions, the ordered list of GraphQL operations it sends, at most one per
 dimension and only for the requested ones.
 */
module QueryPlan {
  import opened FilterTypes

  /** The attribute slugs, in key order (`Object.keys`). */
  function Keys(entries: seq<AttributeRequest>): (r: seq<string>)
    ensures |r| == |entries|
    ensures forall i :: 0 <= i < |entries| ==> r[i] == entries[i].slug
  {
    if entries == [] then [] else [entries[0].slug] + Keys(entries[1..])
  }

  /** All requested choice ids, the choice lists of the attribute keys
      concatenated in key order (`Object.values(...).flat()`). */
  function Flatten(entries: seq<AttributeRequest>): (r: seq<string>)
  {
    if entries == [] then [] else entries[0].choices + Flatten(entries[1..])
  }

  /** Flattening distributes over concatenation of attribute entries, so
      the choice ids keep their key order and their order within a key. */
  lemma {:induction false} FlattenAppend(a: seq<AttributeRequest>, b: seq<AttributeRequest>)
    ensures Flatten(a + b) == Flatten(a) + Flatten(b)
  {
    if a == [] {
      assert a + b == b;
    } else {
      assert (a + b)[1..] == a[1..] + b;
      FlattenAppend(a[1..], b);
    }
  }

  /** A choice id is passed to the attribute query iff some attribute key
      lists it. */
  lemma {:induction false} FlattenMembers(entries: seq<AttributeRequest>, c: string)
    ensures c in Flatten(entries) <==> exists i :: 0 <= i < |entries| && c in entries[i].choices
  {
    if entries != [] {
      FlattenMembers(entries[1..], c);
      if c in Flatten(entries[1..]) {
        var i :| 0 <= i < |entries[1..]| && c in entries[1..][i].choices;
        assert c in entries[i + 1].choices;
      }
      if exists i :: 0 <= i < |entries| && c in entries[i].choices {
        var i :| 0 <= i < |entries| && c in entries[i].choices;
        if i > 0 {
          assert c in entries[1..][i - 1].choices;
        }
      }
    }
  }

  /** The operation sent for a requested dimension, with its variables. */
  function QueryFor(props: Props, d: Dimension): (q: Query)
    requires Defined(props, d)
    ensures QueryDimension(q) == d
  {
    match d
    case Channel => GetChannelOperands
    case Collection => SearchCollectionsOperands(props.collection.value, |props.collection.value|)
    case Category => SearchCategoriesOperands(props.category.value, |props.category.value|)
    case ProductType => SearchProductTypesOperands(props.producttype.value, |props.producttype.value|)
    case Attribute =>
      var a := props.attribute.value;
      SearchAttributeOperands(Keys(a), Flatten(a), |a|)
  }

  /** The part of the plan for dimension `d`: its query if requested. */
  function PlanPart(props: Props, d: Dimension): (qs: seq<Query>)
    requires Defined(props, d)
  {
    if Requested(props, d) then [QueryFor(props, d)] else []
  }

  /** Reference definition of planning: walk the dimensions in the given
      order and plan one query for each requested one. */
  function PlanOver(dims: seq<Dimension>, props: Props): (qs: seq<Query>)
    requires forall i :: 0 <= i < |dims| ==> Defined(props, dims[i])
    ensures |qs| <= |dims|
  {
    if dims == [] then []
    else
      PlanOver(dims[..|dims| - 1], props) + PlanPart(props, dims[|dims| - 1])
  }

  /** The queries planned when every prop is defined. */
  function Planned(props: Props): (qs: seq<Query>)
    requires AllDefined(props)
  {
    PlanOver(AllDimensions, props)
  }

  /** The first prop, in checking order, that is undefined, if any; the
      hook fails with a TypeError there. */
  function FirstUndefined(props: Props): (r: Option<Dimension>)
    ensures r.None? <==> AllDefined(props)
    ensures r.Some? ==> !Defined(props, r.value) && forall e :: Rank(e) < Rank(r.value) ==> Defined(props, e)
  {
    if props.channel.None? then Some(Channel)
    else if props.collection.None? then Some(Collection)
    else if props.category.None? then Some(Category)
    else if props.producttype.None? then Some(ProductType)
    else if props.attribute.None? then Some(Attribute)
    else None
  }

  /** The dimensions checked before planning stops at `failure`. */
  function CheckedBefore(failure: Option<Dimension>): (dims: seq<Dimension>)
    ensures dims == if failure.None? then AllDimensions else AllDimensions[..Rank(failure.value)]
  {
    match failure
    case None => AllDimensions
    case Some(d) => AllDimensions[..Rank(d)]
  }

  /**
   The planning block of the hook. Dimensions are checked in the order
   channel, collection, category, producttype, attribute; a requested one
   appends its query. Reading the length of an undefined prop throws: the
   queries appended before that point have already been sent, and the
   failing dimension is reported in `failure`.
   */
  method PlanQueries(props: Props) returns (issued: seq<Query>, failure: Option<Dimension>)
    ensures failure == FirstUndefined(props)
    ensures issued == PlanOver(CheckedBefore(failure), props)
  {
    issued := [];
    if props.channel.None? {
      return issued, Some(Channel);
    }
    if |props.channel.value| > 0 {
      issued := issued + [GetChannelOperands];
    }
    assert issued == PlanOver([Channel], props);
    if props.collection.None? {
      assert AllDimensions[..1] == [Channel];
      return issued, Some(Collection);
    }
    var collection := props.collection.value;
    if |collection| > 0 {
      issued := issued + [SearchCollectionsOperands(collection, |collection|)];
    }
    assert [Channel, Collection][..1] == [Channel];
    assert issued == PlanOver([Channel, Collection], props);
    if props.category.None? {
      assert AllDimensions[..2] == [Channel, Collection];
      return issued, Some(Category);
    }
    var category := props.category.value;
    if |category| > 0 {
      issued := issued + [SearchCategoriesOperands(category, |category|)];
    }
    assert [Channel, Collection, Category][..2] == [Channel, Collection];
    assert issued == PlanOver([Channel, Collection, Category], props);
    if props.producttype.None? {
      assert AllDimensions[..3] == [Channel, Collection, Category];
      return issued, Some(ProductType);
    }
    var producttype := props.producttype.value;
    if |producttype| > 0 {
      issued := issued + [SearchProductTypesOperands(producttype, |producttype|)];
    }
    assert [Channel, Collection, Category, ProductType][..3] == [Channel, Collection, Category];
    assert issued == PlanOver([Channel, Collection, Category, ProductType], props);
    if props.attribute.None? {
      assert AllDimensions[..4] == [Channel, Collection, Category, ProductType];
      return issued, Some(Attribute);
    }
    var attribute := props.attribute.value;
    if |attribute| > 0 {
      issued := issued + [SearchAttributeOperands(Keys(attribute), Flatten(attribute), |attribute|)];
    }
    assert AllDimensions[..4] == [Channel, Collection, Category, ProductType];
    failure := None;
  }

  // ---------------------------------------------------------------------
  // Properties of the plan

  /** Every query planned over `dims` is the query for one of its requested
      dimensions. */
  lemma {:induction false} PlanOverSound(dims: seq<Dimension>, props: Props, i: nat)
    requires forall k :: 0 <= k < |dims| ==> Defined(props, dims[k])
    requires i < |PlanOver(dims, props)|
    ensures exists k :: 0 <= k < |dims| && dims[k] == QueryDimension(PlanOver(dims, props)[i])
    ensures Requested(props, QueryDimension(PlanOver(dims, props)[i]))
    ensures PlanOver(dims, props)[i] == QueryFor(props, QueryDimension(PlanOver(dims, props)[i]))
  {
    var init := dims[..|dims| - 1];
    var last := dims[|dims| - 1];
    if i < |PlanOver(init, props)| {
      PlanOverSound(init, props, i);
      var k :| 0 <= k < |init| && init[k] == QueryDimension(PlanOver(init, props)[i]);
      assert dims[k] == init[k];
    } else {
      assert dims[|dims| - 1] == last;
    }
  }

  /** A requested dimension of `dims` gets a query. */
  lemma {:induction false} PlanOverComplete(dims: seq<Dimension>, props: Props, k: nat)
    requires forall j :: 0 <= j < |dims| ==> Defined(props, dims[j])
    requires k < |dims| && Requested(props, dims[k])
    ensures exists i :: 0 <= i < |PlanOver(dims, props)| && QueryDimension(PlanOver(dims, props)[i]) == dims[k]
  {
    var init := dims[..|dims| - 1];
    var qs := PlanOver(dims, props);
    if k < |dims| - 1 {
      assert init[k] == dims[k];
      PlanOverComplete(init, props, k);
      var i :| 0 <= i < |PlanOver(init, props)| && QueryDimension(PlanOver(init, props)[i]) == dims[k];
      assert qs[i] == PlanOver(init, props)[i];
    } else {
      assert qs[|qs| - 1] == QueryFor(props, dims[k]);
    }
  }

  /** When `dims` is ordered by rank, so is the plan over it. */
  lemma {:induction false} PlanOverOrdered(dims: seq<Dimension>, props: Props)
    requires forall k :: 0 <= k < |dims| ==> Defined(props, dims[k])
    requires forall j, k :: 0 <= j < k < |dims| ==> Rank(dims[j]) < Rank(dims[k])
    ensures var qs := PlanOver(dims, props);
      forall i, j :: 0 <= i < j < |qs| ==> Rank(QueryDimension(qs[i])) < Rank(QueryDimension(qs[j]))
  {
    if dims != [] {
      var init := dims[..|dims| - 1];
      var last := dims[|dims| - 1];
      PlanOverOrdered(init, props);
      var qs := PlanOver(dims, props);
      var pre := PlanOver(init, props);
      forall i | 0 <= i < |pre|
        ensures Rank(QueryDimension(qs[i])) < Rank(last)
      {
        PlanOverSound(init, props, i);
        var k :| 0 <= k < |init| && init[k] == QueryDimension(pre[i]);
        assert qs[i] == pre[i];
      }
    }
  }

  /** A query is planned for dimension `d` iff `d` was requested. */
  lemma PlannedIff(props: Props, d: Dimension)
    requires AllDefined(props)
    ensures (exists i :: 0 <= i < |Planned(props)| && QueryDimension(Planned(props)[i]) == d) <==> Requested(props, d)
  {
    var qs := Planned(props);
    if exists i :: 0 <= i < |qs| && QueryDimension(qs[i]) == d {
      var i :| 0 <= i < |qs| && QueryDimension(qs[i]) == d;
      PlanOverSound(AllDimensions, props, i);
    }
    if Requested(props, d) {
      AllDimensionsByRank(d);
      PlanOverComplete(AllDimensions, props, Rank(d));
    }
  }

  /** The plan lists its dimensions in the fixed order channel, collection,
      category, producttype, attribute, each at most once, so it has at
      most five queries; an all-empty request plans none. */
  lemma PlannedShape(props: Props)
    requires AllDefined(props)
    ensures var qs := Planned(props);
      && |qs| <= 5
      && (forall i, j :: 0 <= i < j < |qs| ==> Rank(QueryDimension(qs[i])) < Rank(QueryDimension(qs[j])))
      && ((forall e :: !Requested(props, e)) ==> qs == [])
  {
    var qs := Planned(props);
    PlanOverOrdered(AllDimensions, props);
    if qs != [] {
      PlanOverSound(AllDimensions, props, 0);
    }
  }

  /** The plan is the concatenation of the five parts, in the fixed order. */
  lemma PlannedParts(props: Props)
    requires AllDefined(props)
    ensures Planned(props) == PlanPart(props, Channel) + PlanPart(props, Collection) + PlanPart(props, Category)
                              + PlanPart(props, ProductType) + PlanPart(props, Attribute)
  {
    assert [Channel][..0] == [];
    assert PlanOver([Channel], props) == PlanPart(props, Channel);
    assert [Channel, Collection][..1] == [Channel];
    assert PlanOver([Channel, Collection], props) == PlanOver([Channel], props) + PlanPart(props, Collection);
    assert [Channel, Collection, Category][..2] == [Channel, Collection];
    assert PlanOver([Channel, Collection, Category], props)
        == PlanOver([Channel, Collection], props) + PlanPart(props, Category);
    assert [Channel, Collection, Category, ProductType][..3] == [Channel, Collection, Category];
    assert PlanOver([Channel, Collection, Category, ProductType], props)
        == PlanOver([Channel, Collection, Category], props) + PlanPart(props, ProductType);
    assert AllDimensions[..4] == [Channel, Collection, Category, ProductType];
    assert Planned(props) == PlanOver([Channel, Collection, Category, ProductType], props) + PlanPart(props, Attribute);
  }

  /** With exactly one dimension requested, exactly its query is planned. */
  lemma SingleRequestedDimension(props: Props, d: Dimension)
    requires AllDefined(props)
    requires Requested(props, d)
    requires forall e :: e != d ==> !Requested(props, e)
    ensures Planned(props) == [QueryFor(props, d)]
  {
    PlannedParts(props);
    assert forall e :: e != d ==> PlanPart(props, e) == [];
  }

  /** Each planned query carries the variables of its dimension: the channel
      query none; a search the requested slug list and `first` equal to its
      length; the attribute query the attribute keys, every requested
      choice id, and `first` equal to the number of keys. */
  lemma PlannedVariables(props: Props, i: nat)
    requires AllDefined(props)
    requires i < |Planned(props)|
    ensures var q := Planned(props)[i];
      match q
      case GetChannelOperands => Requested(props, Channel)
      case SearchCollectionsOperands(slugs, first) =>
        slugs == props.collection.value && first == |slugs| > 0
      case SearchCategoriesOperands(slugs, first) =>
        slugs == props.category.value && first == |slugs| > 0
      case SearchProductTypesOperands(slugs, first) =>
        slugs == props.producttype.value && first == |slugs| > 0
      case SearchAttributeOperands(slugs, choices, first) =>
        var a := props.attribute.value;
        && |slugs| == first == |a| > 0
        && (forall k :: 0 <= k < |a| ==> slugs[k] == a[k].slug)
        && (forall c :: c in choices <==> exists k :: 0 <= k < |a| && c in a[k].choices)
  {
    PlanOverSound(AllDimensions, props, i);
    var q := Planned(props)[i];
    if q.SearchAttributeOperands? {
      forall c
        ensures c in q.choicesIds <==> exists k :: 0 <= k < |props.attribute.value| && c in props.attribute.value[k].choices
      {
        FlattenMembers(props.attribute.value, c);
      }
    }
  }
}
