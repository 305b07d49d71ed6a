# Process-instance queries of a mock Kogito GraphQL server

The server answers dashboard queries about process instances from constant
fixture data. Two query resolvers exist, and this project models both:

- `AllProcessInstances` returns a literal array of six process instances.
- `ProcessInstances(filter)` writes out the same six instances again. It then
  keeps, in order, those whose `parentProcessInstanceId` is loosely equal (`==`)
  to `filter.parentProcessInstanceId`.

The model is pure. There are datatypes for the GraphQL types and two constants
for the two array literals, copied field by field: ids, names, roles, states,
the opaque `variables` payloads, and the nodes with their enter and exit times.
There are also functions for the resolvers and for the filter callback.
JavaScript's `==` on string, `null` and `undefined` values follows the Abstract
Equality Comparison of ECMAScript 2020, section 7.2.15. The resolver reads
`args["filter"].parentProcessInstanceId`. When `filter` is absent, that read
throws a TypeError, and the model returns it as an `Err`. It is raised inside
the filter callback, so it only happens when there is an element to test; the
fixture always has one.

Modules: `Wrappers` (Option, Result), `Js` (nullable strings and `==`),
`Schema` (the types), `Fixture` (the two literals), `Resolvers` (the
resolvers, the filter and its general properties), and `FixtureProperties`
(what the resolvers return on this data).

Two consequences of the code as written:

- The schema declares `filter` optional (server.js:63), but the resolver
  reads `args["filter"].parentProcessInstanceId` (server.js:729) without a
  check, so a query without a filter throws; the model keeps the throw.
- The comparison is `==` (server.js:728), not `===`, so a null and an omitted
  `parentProcessInstanceId` both select the roots.

## Model

| member | source | states |
|---|---|---|
| `Js.FromField` | server.js:726-729 | A parent field written as `null` reads as `null`, never `undefined`, and one written as a string reads as that string |
| `Js.LooseEquals` | server.js:728-729 | `x == y` holds exactly when both are null or undefined, or both are strings with the same characters; a string is never equal to null or undefined |
| `Js.LooseEqualsIsEquivalence` | server.js:728-729 | On these values `==` is reflexive, symmetric and transitive, so it partitions the instances by parent |
| `Resolvers.FilterCallback` | server.js:727-729 | The arrow callback throws exactly when `filter` is absent; otherwise it accepts an instance exactly when its parent matches the filter value under the three-way rule (null with null or undefined, string with the equal string) |
| `Resolvers.FilterArray` | server.js:726-730 | `data.filter(callback)` throws exactly when `filter` is absent and the array is non-empty; every kept instance matches, every matching input instance is kept, and the result is no longer than the input |
| `Resolvers.FilterArrayIsSubsequence` | server.js:726-730 | The result is a subsequence of the input: original order, nothing duplicated or invented |
| `Resolvers.FilterArrayCounts` | server.js:726-730 | Each instance occurs in the result as often as in the input if it matches, and never otherwise |
| `Resolvers.FilterArrayDependsOnlyOnParent` | server.js:726-730 | Two filter objects whose `parentProcessInstanceId` values are loosely equal give the same result on any array, whatever their `state`, `id`, `processId`, `limit` and `offset` |
| `Resolvers.ResolverFixturesIdentical` | server.js:435-725 | The array literal built by `ProcessInstances` equals the one returned by `AllProcessInstances` (server.js:141-431) |
| `Resolvers.AllProcessInstances` | server.js:140-433 | Always the same six instances, in the order e1308c27, d7b911f8, 3619de44, f0df27b1, 70a4ead8, 9020cf58 |
| `Resolvers.ProcessInstances` | server.js:434-733 | Without a filter it throws the TypeError. With one, it returns a subsequence of `AllProcessInstances()` holding exactly the instances whose parent matches the filter value |
| `Resolvers.ProcessInstancesDependsOnlyOnParent` | server.js:726-730 | Only `filter.parentProcessInstanceId` affects the result, and null and an omitted value are interchangeable |
| `Resolvers.EveryInstanceSelectedByItsParent` | server.js:726-730 | Every fixture instance is returned when the filter names its own parent: its parent id, or null for a root |
| `FixtureProperties.ChildrenOfCompletedTravel` | server.js:436-472 | Filtering on "3619de44-13be-4225-bd22-725a9a8ccb2a" returns exactly e1308c27 then d7b911f8 |
| `FixtureProperties.ChildrenOfActiveTravel` | server.js:659-695 | Filtering on "f0df27b1-85f9-442b-8720-aa2d6fdb0877" returns exactly 70a4ead8 then 9020cf58 |
| `FixtureProperties.NullishParentSelectsRoots` | server.js:502-587 | A null or omitted filter value returns exactly the two roots 3619de44 then f0df27b1 |
| `FixtureProperties.UnknownParentSelectsNothing` | server.js:726-730 | Any string that is neither root id selects nothing |
| `FixtureProperties.FixtureIdsDistinct` | server.js:141-431 | No two fixture instances share an id |
| `FixtureProperties.FixtureParentsAreRoots` | server.js:141-431 | Every parent id in the fixture is one of the two root ids, and those two instances have no parent |
| `FixtureProperties.FixtureCompletedIffAllNodesExited` | server.js:141-431 | Every fixture state is COMPLETED or ACTIVE. An instance is COMPLETED exactly when all its nodes have an exit time. The only node without an exit time is the "Confirm travel" node ebee96bb of the ACTIVE instance |
| `FixtureProperties.FixtureNodesLackNonNullFields` | server.js:52-60 | No fixture node carries `type`, and none carries `nodeId`, although the schema declares both non-null |

## Left out

- Apollo and Express setup, middleware and port 4000 (server.js:737-743) are not modelled. They are I/O wiring over libraries that are not part of this model.
- The GraphQL schema text and its parsing and execution are not modelled (server.js:5-135). Only the shapes of `ProcessInstance`, `NodeInstance`, `ProcessInstanceState` and `ProcessInstanceFilter` are carried over, as datatypes. Serialising the fixture's state strings to the enum is taken as given, so `state` is stored as the enum value.
- `console.log` of the filter value (server.js:731) is a diagnostic side effect with no bearing on the result. It runs only after the filter has succeeded.
- `ProcessInstanceMeta`, `UserTaskInstance`, `UserTaskInstanceMeta`, `UserTaskInstanceFilter`, the `UserTaskInstances` query and the subscriptions are not modelled. The schema declares them, but there is no resolver or data for them.
- The `variables` payloads and the `enter`/`exit` timestamps are kept as opaque strings. They are not parsed, and no time ordering is claimed.
- The exact TypeError message is not modelled. It differs between an undefined and a null `filter`, and the model uses one error value for both.
