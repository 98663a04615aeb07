/**
 The response of the initial-filter-state hook: the folded record handed to
 the `InitialStateResponse` constructor, and how planning and aggregation fit
 together when each result answers the query planned at its position.
 */
module InitialAPIState {
  import opened FilterTypes
  import opened QueryPlan
  import opened ResultClassifier
  import opened StateAggregator

  /** The state object handed to the filter UI. A field is `None` when the
      folded record had no such key, so the constructor received `undefined`. */
  datatype InitialStateResponse = InitialStateResponse(
    category: Option<seq<ItemOption>>,
    attribute: Option<map<string, AttributeEntry>>,
    collection: Option<seq<ItemOption>>,
    producttype: Option<seq<ItemOption>>,
    channel: Option<seq<ItemOption>>)

  /** Reading a property of an `undefined` fold result throws a TypeError. */
  datatype Failure = ReadOfUndefined

  datatype Result<+T> = Ok(value: T) | Err(failure: Failure)

  /** The all-empty response. */
  const EmptyResponse: InitialStateResponse :=
    InitialStateResponse(Some([]), Some(map[]), Some([]), Some([]), Some([]))

  /** Field `d` of the response, in the same terms as a record's fields. */
  function ResponseField(resp: InitialStateResponse, d: Dimension): Option<FieldValue> {
    match d
    case Channel => if resp.channel.Some? then Some(Options(resp.channel.value)) else None
    case Collection => if resp.collection.Some? then Some(Options(resp.collection.value)) else None
    case Category => if resp.category.Some? then Some(Options(resp.category.value)) else None
    case ProductType => if resp.producttype.Some? then Some(Options(resp.producttype.value)) else None
    case Attribute => if resp.attribute.Some? then Some(Attributes(resp.attribute.value)) else None
  }

  /**
   The `data` the hook returns for the results it holds (none while loading).
   It is the all-empty response before any result is in; it fails iff the
   last result carries no marker; otherwise each field of the response is
   the same-named field of the folded record; and when every result carries
   a marker, every field of the response is defined.
   */
  function ResponseData(data: seq<QueryData>, channel: seq<string>, createOptions: Normalizer)
    : (r: Result<InitialStateResponse>)
    ensures data == [] ==> r == Ok(EmptyResponse)
    ensures r.Err? <==> |data| > 0 && Classify(data[|data| - 1]).None?
    ensures r.Ok? ==>
      && CreateInitalStateResponseFromAPI(data, channel, createOptions).Some?
      && forall d :: ResponseField(r.value, d) == Field(CreateInitalStateResponseFromAPI(data, channel, createOptions).value, d)
    ensures (forall i :: 0 <= i < |data| ==> Classify(data[i]).Some?) ==>
      && r.Ok?
      && r.value.category.Some? && r.value.attribute.Some? && r.value.collection.Some?
      && r.value.producttype.Some? && r.value.channel.Some?
  {
    var response := CreateInitalStateResponseFromAPI(data, channel, createOptions);
    if response.None? then Err(ReadOfUndefined)
    else
      var rec := response.value;
      assert Complete(rec) ==> Field(rec, Category).Some? && Field(rec, Attribute).Some? && Field(rec, Collection).Some?
                               && Field(rec, ProductType).Some? && Field(rec, Channel).Some?;
      Ok(InitialStateResponse(rec.category, rec.attribute, rec.collection, rec.producttype, rec.channel))
  }

  /**
   Planning and aggregation together. When every prop is defined and result
   `i` answers the `i`-th planned query (the join keeps the order of the
   queries), the fold succeeds; every dimension that was not requested keeps
   its empty default, and every requested one holds the contribution of the
   one result that answers its query.
   */
  lemma PlannedQueriesAggregate(props: Props, data: seq<QueryData>, createOptions: Normalizer)
    requires AllDefined(props)
    requires |data| == |Planned(props)|
    requires forall i :: 0 <= i < |data| ==> Classify(data[i]) == Some(QueryDimension(Planned(props)[i]))
    ensures ResponseData(data, props.channel.value, createOptions).Ok?
    ensures var resp := ResponseData(data, props.channel.value, createOptions).value;
      && (forall d :: !Requested(props, d) ==> ResponseField(resp, d) == Field(Default, d))
      && (forall d :: Requested(props, d) ==>
            exists i :: 0 <= i < |data| && QueryDimension(Planned(props)[i]) == d
                        && ResponseField(resp, d) == Some(Contribution(data[i], d, props.channel.value, createOptions)))
  {
    var qs := Planned(props);
    var channel := props.channel.value;
    var rec := CreateInitalStateResponseFromAPI(data, channel, createOptions).value;
    PlannedShape(props);
    forall d
      ensures !Requested(props, d) ==> Field(rec, d) == Field(Default, d)
      ensures Requested(props, d) ==>
        exists i :: 0 <= i < |data| && QueryDimension(qs[i]) == d
                    && Field(rec, d) == Some(Contribution(data[i], d, channel, createOptions))
    {
      LastResultWins(data, channel, createOptions, d);
      PlannedIff(props, d);
      if Requested(props, d) {
        var i :| 0 <= i < |qs| && QueryDimension(qs[i]) == d;
        forall j | i < j < |data| ensures Classify(data[j]) != Some(d) {
          assert Rank(QueryDimension(qs[i])) < Rank(QueryDimension(qs[j]));
        }
      }
    }
  }
}
