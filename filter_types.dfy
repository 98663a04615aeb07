/**
 The values exchanged by the initial-filter-state hook of the conditional
 filter: the caller's requested filter dimensions, the query descriptors it
 plans, the shapes of the results the GraphQL client hands back, and the
 normalized options the filter UI consumes.
 */
module FilterTypes {

  datatype Option<+T> = None | Some(value: T)

  /** The five filter dimensions, in the order in which the hook plans its
      queries and in which it probes a result for its marker key. */
  datatype Dimension = Channel | Collection | Category | ProductType | Attribute

  /** Position of a dimension in that fixed order. */
  function Rank(d: Dimension): (r: nat)
    ensures r < 5
  {
    match d
    case Channel => 0
    case Collection => 1
    case Category => 2
    case ProductType => 3
    case Attribute => 4
  }

  const AllDimensions: seq<Dimension> := [Channel, Collection, Category, ProductType, Attribute]

  lemma AllDimensionsByRank(d: Dimension)
    ensures AllDimensions[Rank(d)] == d
  {
  }

  // ---------------------------------------------------------------------
  // The request

  /** One key of the `attribute` object: an attribute slug and the ids of
      the choices requested for it. */
  datatype AttributeRequest = AttributeRequest(slug: string, choices: seq<string>)

  /** The hook's props. Each dimension may be left undefined by the caller;
      the attribute object is given by its entries in the order in which
      `Object.keys` and `Object.values` enumerate them. */
  datatype Props = Props(
    category: Option<seq<string>>,
    collection: Option<seq<string>>,
    channel: Option<seq<string>>,
    producttype: Option<seq<string>>,
    attribute: Option<seq<AttributeRequest>>)

  /** Whether the prop for dimension `d` was given at all. */
  predicate Defined(props: Props, d: Dimension) {
    match d
    case Channel => props.channel.Some?
    case Collection => props.collection.Some?
    case Category => props.category.Some?
    case ProductType => props.producttype.Some?
    case Attribute => props.attribute.Some?
  }

  /** Every prop was given. */
  predicate AllDefined(props: Props) {
    && props.channel.Some?
    && props.collection.Some?
    && props.category.Some?
    && props.producttype.Some?
    && props.attribute.Some?
  }

  /** Whether dimension `d` was requested: its slug list, or the key set of
      the attribute object, is defined and non-empty. */
  predicate Requested(props: Props, d: Dimension) {
    match d
    case Channel => props.channel.Some? && |props.channel.value| > 0
    case Collection => props.collection.Some? && |props.collection.value| > 0
    case Category => props.category.Some? && |props.category.value| > 0
    case ProductType => props.producttype.Some? && |props.producttype.value| > 0
    case Attribute => props.attribute.Some? && |props.attribute.value| > 0
  }

  // ---------------------------------------------------------------------
  // The planned queries

  /** One GraphQL operation with the variables the hook passes to it. */
  datatype Query =
    | GetChannelOperands
    | SearchCollectionsOperands(collectionsSlugs: seq<string>, first: nat)
    | SearchCategoriesOperands(categoriesSlugs: seq<string>, first: nat)
    | SearchProductTypesOperands(productTypesSlugs: seq<string>, first: nat)
    | SearchAttributeOperands(attributesSlugs: seq<string>, choicesIds: seq<string>, first: nat)

  /** The dimension a query resolves. */
  function QueryDimension(q: Query): Dimension {
    match q
    case GetChannelOperands => Channel
    case SearchCollectionsOperands(_, _) => Collection
    case SearchCategoriesOperands(_, _) => Category
    case SearchProductTypesOperands(_, _) => ProductType
    case SearchAttributeOperands(_, _, _) => Attribute
  }

  // ---------------------------------------------------------------------
  // The results

  /** A node of a paginated connection (also a channel, which the channel
      query returns as a plain list). */
  datatype Node = Node(id: string, name: string, slug: string)

  datatype Edge = Edge(node: Node)

  datatype AttributeNode = AttributeNode(id: string, name: string, slug: string, inputType: string, choices: seq<Edge>)

  datatype AttributeEdge = AttributeEdge(node: AttributeNode)

  /** The `data` of one resolved query. A field is `Some` exactly when its
      marker key is present; for the four searches it holds the edges of
      the connection stored under that key. */
  datatype QueryData = QueryData(
    channels: Option<seq<Node>>,
    collections: Option<seq<Edge>>,
    categories: Option<seq<Edge>>,
    productTypes: Option<seq<Edge>>,
    attributes: Option<seq<AttributeEdge>>)

  // ---------------------------------------------------------------------
  // The aggregated state

  /** A selectable unit of a filter control; `caption` is its `label`
      (a reserved word here). */
  datatype ItemOption = ItemOption(caption: string, value: string, slug: string)

  /** The external option builder applied to every connection; its
      behaviour is not part of this model, so every operation that needs it
      takes it as a parameter. */
  type Normalizer = seq<Edge> -> seq<ItemOption>

  /** One entry of the attribute map; `caption` is its `label`. */
  datatype AttributeEntry = AttributeEntry(
    choices: seq<ItemOption>,
    slug: string,
    value: string,
    caption: string,
    inputType: string)

  /** The reducer's accumulator object. A field is `None` when the object
      lacks that key (reading it yields `undefined`). */
  datatype Record = Record(
    channel: Option<seq<ItemOption>>,
    collection: Option<seq<ItemOption>>,
    category: Option<seq<ItemOption>>,
    producttype: Option<seq<ItemOption>>,
    attribute: Option<map<string, AttributeEntry>>)

  /** The value held by one field of a record, whatever its dimension. */
  datatype FieldValue = Options(options: seq<ItemOption>) | Attributes(entries: map<string, AttributeEntry>)

  /** Field `d` of `rec`, or `None` when that key is missing. */
  function Field(rec: Record, d: Dimension): Option<FieldValue> {
    match d
    case Channel => if rec.channel.Some? then Some(Options(rec.channel.value)) else None
    case Collection => if rec.collection.Some? then Some(Options(rec.collection.value)) else None
    case Category => if rec.category.Some? then Some(Options(rec.category.value)) else None
    case ProductType => if rec.producttype.Some? then Some(Options(rec.producttype.value)) else None
    case Attribute => if rec.attribute.Some? then Some(Attributes(rec.attribute.value)) else None
  }

  /** The reducer's initial value: every list empty, the attribute map empty. */
  const Default: Record := Record(Some([]), Some([]), Some([]), Some([]), Some(map[]))

  /** The object with no keys, which is what spreading `undefined` yields. */
  const NoKeys: Record := Record(None, None, None, None, None)

  /** Every key of the record is present. */
  predicate Complete(rec: Record) {
    forall d :: Field(rec, d).Some?
  }

  lemma DefaultFields(d: Dimension)
    ensures Field(Default, d) == Some(if d == Attribute then Attributes(map[]) else Options([]))
  {
  }
}
