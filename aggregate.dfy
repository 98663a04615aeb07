/**
 Result aggregation: a left fold over the resolved query results that starts
 from the all-empty record and, for each result, replaces the one field of
 the accumulator that the result's marker key selects.
 */
module StateAggregator {
  import opened FilterTypes
  import opened ResultClassifier

  // ---------------------------------------------------------------------
  // Channels: filter by the requested slugs, then map to options

  /** `{label: name, value: id, slug}` of one channel. */
  function ChannelOption(n: Node): ItemOption {
    ItemOption(n.name, n.id, n.slug)
  }

  /** The server's channels whose slug was requested, in server order,
      each turned into its option. */
  function ChannelOptions(nodes: seq<Node>, channel: seq<string>): (r: seq<ItemOption>)
    ensures |r| <= |nodes|
    ensures forall o :: o in r ==> o.slug in channel
  {
    if nodes == [] then []
    else
      (if nodes[0].slug in channel then [ChannelOption(nodes[0])] else [])
      + ChannelOptions(nodes[1..], channel)
  }

  /** An option is produced iff it is the option of a server channel whose
      slug was requested. */
  lemma {:induction false} ChannelOptionsMembers(nodes: seq<Node>, channel: seq<string>, o: ItemOption)
    ensures o in ChannelOptions(nodes, channel) <==>
            exists n :: n in nodes && n.slug in channel && o == ChannelOption(n)
  {
    if nodes != [] {
      ChannelOptionsMembers(nodes[1..], channel, o);
      if exists n :: n in nodes && n.slug in channel && o == ChannelOption(n) {
        var n :| n in nodes && n.slug in channel && o == ChannelOption(n);
        if n != nodes[0] {
          assert n in nodes[1..];
        }
      }
    }
  }

  /** Filtering and mapping keep the server's order: the options of a
      concatenation are the concatenation of the options. */
  lemma {:induction false} ChannelOptionsAppend(a: seq<Node>, b: seq<Node>, channel: seq<string>)
    ensures ChannelOptions(a + b, channel) == ChannelOptions(a, channel) + ChannelOptions(b, channel)
  {
    if a == [] {
      assert a + b == b;
    } else {
      var head := if a[0].slug in channel then [ChannelOption(a[0])] else [];
      assert (a + b)[0] == a[0];
      assert (a + b)[1..] == a[1..] + b;
      ChannelOptionsAppend(a[1..], b, channel);
      calc {
        ChannelOptions(a + b, channel);
        head + ChannelOptions(a[1..] + b, channel);
        head + (ChannelOptions(a[1..], channel) + ChannelOptions(b, channel));
        (head + ChannelOptions(a[1..], channel)) + ChannelOptions(b, channel);
      }
    }
  }

  // ---------------------------------------------------------------------
  // Attributes: a slug-keyed map built by a left fold over the edges

  /** The map entry of one attribute node. */
  function AttributeEntryOf(node: AttributeNode, createOptions: Normalizer): AttributeEntry {
    AttributeEntry(createOptions(node.choices), node.slug, node.id, node.name, node.inputType)
  }

  /** The slugs of the attribute nodes. */
  function SlugSet(edges: seq<AttributeEdge>): set<string> {
    set i | 0 <= i < |edges| :: edges[i].node.slug
  }

  /** The inner `reduce`: each edge writes its entry under its node's slug. */
  function AttributeFold(acc: map<string, AttributeEntry>, edges: seq<AttributeEdge>, createOptions: Normalizer)
    : (m: map<string, AttributeEntry>)
    ensures m.Keys == acc.Keys + SlugSet(edges)
    decreases edges
  {
    if edges == [] then acc
    else
      var node := edges[0].node;
      assert SlugSet(edges) == {node.slug} + SlugSet(edges[1..]) by {
        forall s | s in SlugSet(edges) ensures s in {node.slug} + SlugSet(edges[1..]) {
          var i :| 0 <= i < |edges| && edges[i].node.slug == s;
          if i > 0 {
            assert edges[1..][i - 1].node.slug == s;
          }
        }
        forall s | s in SlugSet(edges[1..]) ensures s in SlugSet(edges) {
          var i :| 0 <= i < |edges[1..]| && edges[1..][i].node.slug == s;
          assert edges[i + 1].node.slug == s;
        }
      }
      AttributeFold(acc[node.slug := AttributeEntryOf(node, createOptions)], edges[1..], createOptions)
  }

  /** The attribute field: the fold started from the empty map. */
  function AttributeMap(edges: seq<AttributeEdge>, createOptions: Normalizer): (m: map<string, AttributeEntry>)
    ensures m.Keys == SlugSet(edges)
  {
    AttributeFold(map[], edges, createOptions)
  }

  /** A key that no edge writes keeps the value it had in the accumulator. */
  lemma {:induction false} AttributeFoldKeeps(acc: map<string, AttributeEntry>, edges: seq<AttributeEdge>,
                                              createOptions: Normalizer, k: string)
    requires k in acc
    requires forall j :: 0 <= j < |edges| ==> edges[j].node.slug != k
    ensures AttributeFold(acc, edges, createOptions)[k] == acc[k]
    decreases edges
  {
    if edges != [] {
      var node := edges[0].node;
      AttributeFoldKeeps(acc[node.slug := AttributeEntryOf(node, createOptions)], edges[1..], createOptions, k);
    }
  }

  /** Last write wins: the entry under a slug is the one built from the last
      edge carrying that slug. */
  lemma {:induction false} AttributeFoldLastWins(acc: map<string, AttributeEntry>, edges: seq<AttributeEdge>,
                                                 createOptions: Normalizer, i: nat)
    requires i < |edges|
    requires forall j :: i < j < |edges| ==> edges[j].node.slug != edges[i].node.slug
    ensures AttributeFold(acc, edges, createOptions)[edges[i].node.slug] == AttributeEntryOf(edges[i].node, createOptions)
    decreases edges
  {
    var node := edges[0].node;
    var acc' := acc[node.slug := AttributeEntryOf(node, createOptions)];
    if i == 0 {
      AttributeFoldKeeps(acc', edges[1..], createOptions, node.slug);
    } else {
      AttributeFoldLastWins(acc', edges[1..], createOptions, i - 1);
    }
  }

  /** The attribute map holds, for every slug of the result, the entry of the
      last edge with that slug: `value` its id, `label` its name, its slug
      and input type, and its choices normalized. */
  lemma AttributeMapEntries(edges: seq<AttributeEdge>, createOptions: Normalizer, i: nat)
    requires i < |edges|
    requires forall j :: i < j < |edges| ==> edges[j].node.slug != edges[i].node.slug
    ensures var node := edges[i].node;
      && node.slug in AttributeMap(edges, createOptions)
      && AttributeMap(edges, createOptions)[node.slug]
         == AttributeEntry(createOptions(node.choices), node.slug, node.id, node.name, node.inputType)
  {
    AttributeFoldLastWins(map[], edges, createOptions, i);
  }

  // ---------------------------------------------------------------------
  // The outer fold

  /** The record a step spreads: the accumulator, or no keys at all when
      the accumulator is `undefined`. */
  function Spread(acc: Option<Record>): Record {
    if acc.Some? then acc.value else NoKeys
  }

  /** The value a result contributes to the field of dimension `d`. */
  function Contribution(data: QueryData, d: Dimension, channel: seq<string>, createOptions: Normalizer): FieldValue
    requires HasMarker(data, d)
  {
    match d
    case Channel => Options(ChannelOptions(data.channels.value, channel))
    case Collection => Options(createOptions(data.collections.value))
    case Category => Options(createOptions(data.categories.value))
    case ProductType => Options(createOptions(data.productTypes.value))
    case Attribute => Attributes(AttributeMap(data.attributes.value, createOptions))
  }

  /** One step of the reducer. A result with a marker replaces exactly the
      field of its dimension and leaves the other four as they were; a
      result with none makes the step return `undefined`. */
  function Step(acc: Option<Record>, data: QueryData, channel: seq<string>, createOptions: Normalizer)
    : (r: Option<Record>)
    ensures r.None? <==> Classify(data).None?
    ensures r.Some? ==> Field(r.value, Classify(data).value) == Some(Contribution(data, Classify(data).value, channel, createOptions))
    ensures r.Some? ==> forall e :: e != Classify(data).value ==> Field(r.value, e) == Field(Spread(acc), e)
  {
    var base := Spread(acc);
    match Classify(data)
    case None => None
    case Some(Channel) => Some(base.(channel := Some(ChannelOptions(data.channels.value, channel))))
    case Some(Collection) => Some(base.(collection := Some(createOptions(data.collections.value))))
    case Some(Category) => Some(base.(category := Some(createOptions(data.categories.value))))
    case Some(ProductType) => Some(base.(producttype := Some(createOptions(data.productTypes.value))))
    case Some(Attribute) => Some(base.(attribute := Some(AttributeMap(data.attributes.value, createOptions))))
  }

  /** `data.reduce(step, acc)`. The result is `undefined` iff the last
      result carries no marker; a complete accumulator stays complete while
      every result carries one. */
  function ReduceFrom(acc: Option<Record>, data: seq<QueryData>, channel: seq<string>, createOptions: Normalizer)
    : (r: Option<Record>)
    ensures r.None? <==> if data == [] then acc.None? else Classify(data[|data| - 1]).None?
    ensures acc.Some? && Complete(acc.value) && (forall i :: 0 <= i < |data| ==> Classify(data[i]).Some?)
            ==> r.Some? && Complete(r.value)
    decreases data
  {
    if data == [] then acc
    else
      var next := Step(acc, data[0], channel, createOptions);
      assert next.Some? && acc.Some? && Complete(acc.value) ==> Complete(next.value) by {
        if next.Some? && acc.Some? && Complete(acc.value) {
          forall e ensures Field(next.value, e).Some? {
            assert Field(acc.value, e).Some?;
          }
        }
      }
      ReduceFrom(next, data[1..], channel, createOptions)
  }

  /** The fold over all resolved results, from the all-empty record. */
  function CreateInitalStateResponseFromAPI(data: seq<QueryData>, channel: seq<string>, createOptions: Normalizer)
    : (r: Option<Record>)
    ensures data == [] ==> r == Some(Default)
    ensures r.None? <==> |data| > 0 && Classify(data[|data| - 1]).None?
    ensures (forall i :: 0 <= i < |data| ==> Classify(data[i]).Some?) ==> r.Some? && Complete(r.value)
  {
    assert Complete(Default) by {
      forall e ensures Field(Default, e).Some? {
        DefaultFields(e);
      }
    }
    ReduceFrom(Some(Default), data, channel, createOptions)
  }

  /** Folding one more result is one more step. */
  lemma {:induction false} ReduceFromSnoc(acc: Option<Record>, data: seq<QueryData>, q: QueryData,
                                          channel: seq<string>, createOptions: Normalizer)
    ensures ReduceFrom(acc, data + [q], channel, createOptions)
            == Step(ReduceFrom(acc, data, channel, createOptions), q, channel, createOptions)
    decreases data
  {
    if data == [] {
      assert data + [q] == [q];
    } else {
      assert (data + [q])[1..] == data[1..] + [q];
      ReduceFromSnoc(Step(acc, data[0], channel, createOptions), data[1..], q, channel, createOptions);
    }
  }

  /** Result `i` writes field `d`: it is classified as `d`, or it carries no
      marker and so wipes every field. */
  predicate Writes(data: seq<QueryData>, i: int, d: Dimension)
    requires 0 <= i < |data|
  {
    Classify(data[i]) == Some(d) || Classify(data[i]).None?
  }

  /** Result `i` is the last one that writes field `d`. */
  predicate LastWriter(data: seq<QueryData>, i: int, d: Dimension)
  {
    && 0 <= i < |data|
    && Writes(data, i, d)
    && forall j :: i < j < |data| ==> !Writes(data, j, d)
  }

  /** The record the hook reads after folding `data`. */
  function Final(data: seq<QueryData>, channel: seq<string>, createOptions: Normalizer): Record {
    Spread(CreateInitalStateResponseFromAPI(data, channel, createOptions))
  }

  /** Field `d` after one more result: that result's contribution, nothing
      if it carries no marker, and otherwise what it was before. */
  lemma FinalSnoc(pre: seq<QueryData>, q: QueryData, channel: seq<string>, createOptions: Normalizer, d: Dimension)
    ensures Field(Final(pre + [q], channel, createOptions), d) ==
      if Classify(q) == Some(d) then Some(Contribution(q, d, channel, createOptions))
      else if Classify(q).None? then None
      else Field(Final(pre, channel, createOptions), d)
  {
    ReduceFromSnoc(Some(Default), pre, q, channel, createOptions);
  }

  /** With no writer, field `d` keeps its default. */
  lemma {:induction false} FieldUnwritten(data: seq<QueryData>, channel: seq<string>, createOptions: Normalizer,
                                          d: Dimension)
    requires forall j :: 0 <= j < |data| ==> !Writes(data, j, d)
    ensures Field(Final(data, channel, createOptions), d) == Field(Default, d)
  {
    if data != [] {
      var n := |data| - 1;
      var pre := data[..n];
      assert data == pre + [data[n]];
      assert !Writes(data, n, d);
      forall j | 0 <= j < |pre| ensures !Writes(pre, j, d) {
        assert pre[j] == data[j] && !Writes(data, j, d);
      }
      FieldUnwritten(pre, channel, createOptions, d);
      FinalSnoc(pre, data[n], channel, createOptions, d);
    }
  }

  /** Field `d` is what its last writer left there: the writer's contribution
      when it is classified as `d`, nothing when it carries no marker. */
  lemma {:induction false} FieldOfLastWriter(data: seq<QueryData>, channel: seq<string>, createOptions: Normalizer,
                                             d: Dimension, i: int)
    requires LastWriter(data, i, d)
    ensures Field(Final(data, channel, createOptions), d) ==
      if Classify(data[i]) == Some(d) then Some(Contribution(data[i], d, channel, createOptions)) else None
  {
    var n := |data| - 1;
    var pre := data[..n];
    assert data == pre + [data[n]];
    FinalSnoc(pre, data[n], channel, createOptions, d);
    if i < n {
      assert !Writes(data, n, d);
      assert pre[i] == data[i];
      forall j | i < j < |pre| ensures !Writes(pre, j, d) {
        assert pre[j] == data[j] && !Writes(data, j, d);
      }
      FieldOfLastWriter(pre, channel, createOptions, d, i);
    }
  }

  /** When every result carries a marker, field `d` ends as the contribution
      of the last result classified as `d`, or as its default when there is
      none: later results for a dimension overwrite earlier ones. */
  lemma LastResultWins(data: seq<QueryData>, channel: seq<string>, createOptions: Normalizer, d: Dimension)
    requires forall i :: 0 <= i < |data| ==> Classify(data[i]).Some?
    ensures CreateInitalStateResponseFromAPI(data, channel, createOptions).Some?
    ensures var r := CreateInitalStateResponseFromAPI(data, channel, createOptions).value;
      && ((forall j :: 0 <= j < |data| ==> Classify(data[j]) != Some(d)) ==> Field(r, d) == Field(Default, d))
      && (forall i :: 0 <= i < |data| && Classify(data[i]) == Some(d)
                       && (forall j :: i < j < |data| ==> Classify(data[j]) != Some(d)) ==>
            Field(r, d) == Some(Contribution(data[i], d, channel, createOptions)))
  {
    if forall j :: 0 <= j < |data| ==> Classify(data[j]) != Some(d) {
      FieldUnwritten(data, channel, createOptions, d);
    }
    forall i | 0 <= i < |data| && Classify(data[i]) == Some(d)
                 && (forall j :: i < j < |data| ==> Classify(data[j]) != Some(d))
      ensures Field(Final(data, channel, createOptions), d) == Some(Contribution(data[i], d, channel, createOptions))
    {
      FieldOfLastWriter(data, channel, createOptions, d, i);
    }
  }
}
