# Initial filter state of the conditional filter

This project models the hook that builds the initial state of the dashboard's
conditional filter (`useInitialAPIState` and `createInitalStateResponseFromAPI`
in `src/components/ConditionalFilter/API/getInitialAPIState.tsx`). The hook does
two things.

- **Query planning.** It looks at the requested slugs for `channel`,
  `collection`, `category` and `producttype`, and at the `attribute` object
  (attribute slug to choice ids). It plans at most one GraphQL operation per
  dimension, always in that order, and only for a dimension whose list or key
  set is non-empty.
- **Result aggregation.** Once every query has resolved, a left fold runs over
  the results, starting from an all-empty record. Each result is classified
  by the first marker key its `data` carries (`channels`, `collections`,
  `categories`, `productTypes`, `attributes`). The step then replaces the one
  field of the accumulator that the marker selects:
  - channels are filtered by the requested slugs and mapped to
    `{label, value, slug}`;
  - searches go through the option builder;
  - attributes become a slug-keyed map.

Files, one module each:

- `filter_types.dfy` (`FilterTypes`): props, query descriptors, result shapes, options, the accumulator record.
- `query_plan.dfy` (`QueryPlan`): the planning block as a method, proved against a reference function, with its properties.
- `classify.dfy` (`ResultClassifier`): the five marker tests and the first-match classification.
- `aggregate.dfy` (`StateAggregator`): channel filtering, the attribute map, the reducer step, the fold and last-write-wins.
- `initial_state.dfy` (`InitialAPIState`): the response object and the lemma that joins planning to aggregation.

Modelling choices:

- **Props.** Every prop is optional in the TypeScript interface, but the code
  reads `.length` without a guard. The model keeps each prop as an `Option`:
  - An undefined prop makes planning stop with a TypeError at that dimension.
  - Queries pushed before that point have already been sent.
  - The attribute object is the sequence of its entries, in the order
    `Object.keys` and `Object.values` enumerate them.
- **Result data.** A result's `data` has one optional field per marker key.
  `Some` means the key is present. For a search, the field holds the
  connection's `edges`.
- **The option builder.** `createOptionsFromAPI` lives in a file that is not
  part of this model. Every operation that uses it takes it as a function
  parameter (`Normalizer`), so each property holds whatever that function does.
- **A result without a marker.** The reducer then falls off its `if` chain and
  returns `undefined`. The next step spreads `undefined`, which yields an
  object with no keys. The model therefore gives the accumulator and each of
  its fields an `Option`. Reading a property of an `undefined` final
  accumulator is the TypeError `ResponseData` reports.

Two facts about the code shape the model:

- Classification takes the first marker present, and nothing makes the
  markers exclusive.
- A result with no marker makes the step return `undefined`, and the next
  step spreads that into an object with no keys, so every field built so far
  is lost.

## Model

| member | source | states |
|---|---|---|
| `QueryPlan.PlanQueries` | src/components/ConditionalFilter/API/getInitialAPIState.tsx:57-136 | the pushes under the `if` chain yield exactly the reference plan over the dimensions checked before the first undefined prop, and that undefined prop is the reported failure |
| `QueryPlan.FirstUndefined` | src/components/ConditionalFilter/API/getInitialAPIState.tsx:66-122 | planning fails iff some prop is undefined; the failing dimension is undefined and every earlier dimension in checking order is defined |
| `QueryPlan.QueryFor` | src/components/ConditionalFilter/API/getInitialAPIState.tsx:67-135 | the operation planned for a dimension resolves that dimension |
| `QueryPlan.Keys` | src/components/ConditionalFilter/API/getInitialAPIState.tsx:130 | `attributesSlugs` has one slug per attribute key, the k-th key's slug at position k |
| `QueryPlan.FlattenMembers` | src/components/ConditionalFilter/API/getInitialAPIState.tsx:131 | a choice id is in `choicesIds` iff some attribute key lists it |
| `QueryPlan.FlattenAppend` | src/components/ConditionalFilter/API/getInitialAPIState.tsx:131 | flattening distributes over concatenation of entries: the choice ids keep key order and per-key order |
| `QueryPlan.PlanOver` | src/components/ConditionalFilter/API/getInitialAPIState.tsx:58-136 | planning over a list of dimensions yields no more queries than there are listed dimensions |
| `QueryPlan.PlanOverSound` | src/components/ConditionalFilter/API/getInitialAPIState.tsx:66-136 | every planned query is the query of a listed, requested dimension |
| `QueryPlan.PlanOverComplete` | src/components/ConditionalFilter/API/getInitialAPIState.tsx:66-136 | every listed requested dimension gets a query |
| `QueryPlan.PlanOverOrdered` | src/components/ConditionalFilter/API/getInitialAPIState.tsx:66-136 | the plan keeps the order of the dimension list |
| `QueryPlan.PlannedIff` | src/components/ConditionalFilter/API/getInitialAPIState.tsx:66-122 | a query is planned for a dimension iff its slug list, or the attribute key set, is non-empty |
| `QueryPlan.PlannedShape` | src/components/ConditionalFilter/API/getInitialAPIState.tsx:58-136 | at most five queries, strictly in the order channel, collection, category, producttype, attribute; an all-empty request plans none |
| `QueryPlan.PlannedParts` | src/components/ConditionalFilter/API/getInitialAPIState.tsx:66-136 | the plan is the concatenation of the five per-dimension parts in the fixed order |
| `QueryPlan.SingleRequestedDimension` | src/components/ConditionalFilter/API/getInitialAPIState.tsx:66-136 | with exactly one dimension requested, exactly its query is planned |
| `QueryPlan.PlannedVariables` | src/components/ConditionalFilter/API/getInitialAPIState.tsx:68-133 | channel query without variables; each search passes the requested slugs with `first` equal to their count; the attribute query passes the keys, every requested choice id and `first` equal to the number of keys |
| `ResultClassifier.Classify` | src/components/ConditionalFilter/API/getInitialAPIState.tsx:141-169 | no dimension iff no marker key is present; otherwise a dimension whose marker is present and no earlier dimension's marker is (first match) |
| `StateAggregator.ChannelOptions` | src/components/ConditionalFilter/API/getInitialAPIState.tsx:176-178 | no more options than server channels, and every option's slug was requested |
| `StateAggregator.ChannelOptionsMembers` | src/components/ConditionalFilter/API/getInitialAPIState.tsx:176-178 | an option is produced iff it is `{label: name, value: id, slug}` of a server channel whose slug was requested |
| `StateAggregator.ChannelOptionsAppend` | src/components/ConditionalFilter/API/getInitialAPIState.tsx:282-284 | filter-then-map distributes over concatenation, so the server's order is kept |
| `StateAggregator.AttributeFold` | src/components/ConditionalFilter/API/getInitialAPIState.tsx:206-218 | the inner fold's keys are the accumulator's keys plus every node slug |
| `StateAggregator.AttributeMap` | src/components/ConditionalFilter/API/getInitialAPIState.tsx:312-324 | the attribute map's keys are exactly the node slugs of the result |
| `StateAggregator.AttributeFoldKeeps` | src/components/ConditionalFilter/API/getInitialAPIState.tsx:207-216 | a key that no edge writes keeps its accumulator value |
| `StateAggregator.AttributeFoldLastWins` | src/components/ConditionalFilter/API/getInitialAPIState.tsx:207-216 | on duplicate slugs the entry of the last edge wins |
| `StateAggregator.AttributeMapEntries` | src/components/ConditionalFilter/API/getInitialAPIState.tsx:209-215 | the entry under a slug has the normalized choices, the slug, `value` = id, `label` = name and the input type of the last edge with that slug |
| `StateAggregator.Step` | src/components/ConditionalFilter/API/getInitialAPIState.tsx:172-221 | a step is `undefined` iff the result has no marker; otherwise it sets the classified field to the result's contribution and leaves the other four as they were |
| `StateAggregator.ReduceFrom` | src/components/ConditionalFilter/API/getInitialAPIState.tsx:171-229 | the fold is `undefined` iff the last result has no marker; a complete accumulator stays complete while every result has one |
| `StateAggregator.CreateInitalStateResponseFromAPI` | src/components/ConditionalFilter/API/getInitialAPIState.tsx:273-335 | no results give the all-empty defaults; `undefined` iff the last result lacks a marker; all fields defined when every result has one |
| `StateAggregator.ReduceFromSnoc` | src/components/ConditionalFilter/API/getInitialAPIState.tsx:277-327 | folding one more result is one more step, as for `Array.prototype.reduce` |
| `StateAggregator.FinalSnoc` | src/components/ConditionalFilter/API/getInitialAPIState.tsx:278-326 | one more result sets its own field, wipes every field when it has no marker, and leaves any other field as it was |
| `StateAggregator.FieldUnwritten` | src/components/ConditionalFilter/API/getInitialAPIState.tsx:222-228 | a field that no result writes keeps its empty default |
| `StateAggregator.FieldOfLastWriter` | src/components/ConditionalFilter/API/getInitialAPIState.tsx:171-221 | a field ends as its last writer left it: that result's contribution, or missing when the writer had no marker |
| `StateAggregator.LastResultWins` | src/components/ConditionalFilter/API/getInitialAPIState.tsx:174-219 | when every result has a marker, each field is the contribution of the last result of its dimension, or its default if there is none |
| `InitialAPIState.ResponseData` | src/components/ConditionalFilter/API/getInitialAPIState.tsx:231-240 | all-empty response before any result; TypeError iff the last result has no marker; otherwise each response field is the same-named field of the folded record, and every field is defined when every result has a marker |
| `InitialAPIState.PlannedQueriesAggregate` | src/components/ConditionalFilter/API/getInitialAPIState.tsx:57-229 | when result i answers planned query i, the hook's response is defined, its unrequested dimensions stay empty and each requested one holds the contribution of the result answering its query |

## Left out

- React lifecycle (`useState`, `useEffect` with empty dependencies, `setData`, the `loading` flag): UI state, not domain logic. Planning runs once on mount and reads the props only then; the model plans from one value of the props. The fold runs on every render and its channel filter reads that render's `channel` prop; the model takes it as the fold's separate `channel` parameter.
- A `channel` prop that becomes undefined after mount while a channel result is held makes `channel.includes` throw; this is not modelled, since the fold's `channel` parameter is always a list.
- The Apollo `client.query` calls and the `Promise.all` join: network I/O and concurrency. Results are a parameter, in the order of the planned queries. A rejected query leaves `loading` true and `data` empty forever; this is not modelled.
- `createOptionsFromAPI` (`./Handler`) is not part of this model; it is a function parameter with no assumed behaviour.
- `InitialStateResponse` (`./InitialStateResponse`) is not part of this model; it is treated as a plain record constructor taking category, attribute, collection, producttype and channel.
- Null payloads: a marker key whose value is `null`, a `data` that is `undefined`, or an attribute node whose `choices` is `null` would throw when read. The model's payloads are never null.
- JavaScript key order: integer-like keys of the `attribute` object are enumerated first, in ascending order. The model takes the entries already in enumeration order. It does not require their slugs to be distinct, which a real object guarantees.
- `__proto__` and other special property names as attribute slugs are not modelled; the attribute map is a plain map.
- `StateAggregator.AttributeMap`: the resulting `attribute` object enumerates its keys in first-insertion order, while the Dafny `map` has no order. Nothing in the hook iterates that object.
- `first` is an unbounded natural; the 32-bit limit of a GraphQL `Int` is not modelled.
- src/products/components/ProductVariants/ProductVariants.tsx, src/products/components/ProductVariantMedia/ProductVariantMedia.tsx and src/components/Date/Date.tsx are not part of this model: grid wiring, rendering and a date-formatting wrapper with no logic of their own.
