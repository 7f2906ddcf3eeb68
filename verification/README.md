# Tomolink request reconciliation, strict gate and route table in Dafny

Tomolink is an HTTP service that records relationships (typed, optionally
reciprocal edges) between user identifiers. This project models the pure
decision logic that turns client input and configuration into a validated
relationship request:

- `Models` (internal/models/relationship.go): the `Relationship` record, its
  field-by-field `Merge` of two partially filled records with conflict
  detection, the single and multiple direction vocabularies, `Validate`,
  `RelationshipInArray` and `IsValid`. `MergeLaws` proves the merge's
  algebra against a field-wise reference (`Conflicts`, `MergedField`).
- `StrictMode` (internal/config/middleware.go): `keys` and the `StrictMW`
  pass/reject decision.
- `Config` (internal/config/config.go): `MaxRelationships`, the settings-key
  to environment-variable mapping of `getMappings`, and
  `populateRelationships`.
- `ConfigLookup`: the bounded scan over numbered relationship definitions that
  both `populateRelationships` and `Router` perform, with the configuration
  (goconfig's `Cfg.String`) passed in as a lookup function.
- `Tomolink` (internal/app/tomolink/tomolink.go): `Router` as a pure function
  from the strict setting and the lookup to the list of registered routes, or
  to a fatal error.
- `RequestParams` (internal/app/tomolink/middleware.go):
  `normalizeRequestParams` as the projection of path variables into a record,
  the merge with the decoded body record, and an always-continue decision.
- `Http` holds the decision both middlewares make; `Wrappers` holds `Option`
  and `Result`.

Behaviour of the code that the model keeps as written:

- A field that holds the same non-empty value in both records ends up empty
  in the merged record. The comment at relationship.go:112-115 says the
  value should be copied into the merged record, but the copy that follows
  it (relationship.go:116-126) is commented out. So `Merge(r, r)` is the
  empty record, and a relationship name sent both in the path and in the
  body is dropped (`RequestParams.SameNameTwiceIsDropped`).
- Every conflict produces the same error message; it does not say which
  field conflicts (relationship.go:85 and 101).
- The comment at config/middleware.go:29-31 says `StrictMW` checks the
  "relationships.strict" setting. The function never reads that setting: it
  always checks the name against the configured relationships.
- In strict mode, a configuration with no relationships is not an error:
  `Router` registers only its two fixed routes.
- `populateRelationships` reads "relationships.definitions.<i>.name", while
  `Router` reads "relationships.<i>.name", so the two scans read different
  keys.

## Model

| member | source | states |
|---|---|---|
| Models.Merge | internal/models/relationship.go:47-130 | Visits the fields in declaration order, starting from the empty record. Any error it returns is the one fixed conflict message. What it computes field by field is stated by the MergeLaws rows against `Conflicts` and `MergedField`. |
| MergeLaws.MergeSucceedsIffNoConflict | internal/models/relationship.go:59-110 | The merge fails, with the fixed conflict message, exactly when some field holds two different non-empty values. When it succeeds, every field obeys `MergedField`: a value given by one side only is taken, and a value both sides agree on is left empty. |
| MergeLaws.MergeFieldwiseBelow | internal/models/relationship.go:59-94 | If no field before position n conflicts, each of those fields is merged as `MergedField` says, whatever happens later. |
| MergeLaws.MergeStopsAtFirstConflict | internal/models/relationship.go:59-101 | At the first conflicting field the merge returns early. Earlier fields are merged, the conflicting field holds the receiver's value, and every later field is still empty. |
| MergeLaws.MergeCommutesOnSuccess | internal/models/relationship.go:59-110 | Swapping the two records does not change whether the merge fails. A successful merge gives the same record in both orders. |
| MergeLaws.MergeWithSelfIsEmpty | internal/models/relationship.go:48-127 | Merging a record with itself succeeds and gives the all-empty record, because the post-switch copy is commented out. |
| MergeLaws.MergeWithEmptyIsIdentity | internal/models/relationship.go:59-110 | Merging with the empty record on either side succeeds and returns the other record unchanged. |
| MergeLaws.OneSidedValueIsTaken | internal/models/relationship.go:62-94 | If exactly one side gives a field a value and the merge reaches that field, the merged record holds that value, in both argument orders. |
| Models.IsSingleDirection | internal/models/relationship.go:162-173 | True exactly for directions in the one-way set {"", unary, discrete, one, uni, single}. |
| Models.IsMultipleDirection | internal/models/relationship.go:176-184 | True exactly for directions in the reciprocal set {multiple, reciprocal, bi, mutual}. |
| Models.DirectionsExclusive | internal/models/relationship.go:162-184 | No direction is in both sets. |
| Models.Validate | internal/models/relationship.go:35-41 | No error exactly when the direction is in one of the two sets. Otherwise the error names the direction. |
| Models.RelationshipInArray | internal/models/relationship.go:147-159 | True exactly when some element of the list equals the relationship name (case-sensitive). False for an empty list. |
| Models.IsValid | internal/models/relationship.go:187-190 | Accepts no record. |
| StrictMode.Keys | internal/config/middleware.go:63-70 | The result has as many elements as the map has entries, holds each key once, and holds nothing else. |
| StrictMode.StrictMW | internal/config/middleware.go:32-61 | The next handler runs exactly when the relationship name is a configured key, and gets the request unchanged. Otherwise the answer is 400. An empty relationships map rejects every request. |
| ConfigLookup.DecimalStringDenotes | internal/app/tomolink/tomolink.go:51-53 | The index in a "relationships.<i>" key is written in decimal, as `%d` prints it: the digits denote i, with no leading zero. |
| ConfigLookup.ProbeAt | internal/config/config.go:216-236 | One index of the scan. Found when the name and the type are both set. Gap when the name, or the type after a set name, fails with exactly the "Required setting '<key>' not set" message for its own key. Any other error is Abort, and carries that lookup's error. |
| ConfigLookup.ScanFrom | internal/config/config.go:209-237 | The definitions are those found at consecutive indices. The scan ends at the bound, at the first index whose name or kind is "not set" (no error), or at the first other lookup error (reported). |
| ConfigLookup.ScanStep | internal/config/config.go:209-237 | A definition found at index i, followed by a valid scan from i + 1, is a valid scan from i. |
| ConfigLookup.ScanDefinitions | internal/app/tomolink/tomolink.go:49-74 | The same characterisation for the scan from index 0, shared by `Router` and `populateRelationships`. |
| ConfigLookup.ScanReadsOnlyIndexedKeys | internal/config/config.go:211-213 | Two configurations that agree on the name and type keys of every index below the bound give the same scan. No other key is read. |
| Config.EnvVarName | internal/config/config.go:150-160 | "http.port" is overridden from "PORT". Every other key is upper-cased with each "." turned into "_". No name contains "." or a lower-case letter. |
| Config.MappingsOf | internal/config/config.go:145-166 | Each stored value is an input key whose environment name is its map key. Every input key's name is present. When two keys give the same name, the later key wins. |
| Config.MappingsStep | internal/config/config.go:145-161 | Storing the last key under its name, in a mapping correct for the earlier keys, gives a mapping correct for all keys. |
| Config.GetMappings | internal/config/config.go:128-169 | A settings-loading error is passed on. Otherwise each stored value is a loaded key stored under its own environment name, every loaded key's name is present, and when two keys give the same name the later one wins. |
| Config.PortOverridesHttpPort | internal/config/config.go:150-155 | When no other settings key names "PORT", the variable "PORT" maps to "http.port". |
| Config.DefinitionsMap | internal/config/config.go:237 | The keys are exactly the scanned names. A later definition with the same name replaces the earlier kind. |
| Config.DefinitionsMapStep | internal/config/config.go:237 | Storing the last definition's kind under its name, in a map correct for the earlier definitions, gives a map correct for all of them. |
| Config.DefinitionsMapSize | internal/config/config.go:209-237 | The map has no more entries than there are definitions. |
| Config.PopulateRelationships | internal/config/config.go:204-241 | The map starts afresh and has at most MaxRelationships = 10 entries. Its keys are the names the scan found, each name maps to the kind of its last scanned definition, and the error is the scan's error. |
| Tomolink.RelationshipRoutes | internal/app/tomolink/tomolink.go:83-99 | Every scanned relationship gets a retrieve-all route, and gets a single-value route when its kind is "timestamp" or "score". |
| Tomolink.RelationshipRoutesFromDefinitions | internal/app/tomolink/tomolink.go:49-101 | Every per-relationship route belongs to a scanned definition: it is that definition's retrieve-all route, or its single-value route when the kind supports one. |
| Tomolink.RouteTable | internal/app/tomolink/tomolink.go:47-113 | The result is fatal exactly when strict mode is on and the scan hit a lookup error, and the fatal error is the scan's error. Without strict mode only "/users/{UUID}" and "/create2" are registered. Those two fixed routes always come last. In strict mode every scanned relationship has its retrieve-all route and, for "timestamp" or "score", its single-value route. |
| Tomolink.RouteTableFromDefinitions | internal/app/tomolink/tomolink.go:47-113 | Every registered route is one of the two fixed routes or belongs to a scanned definition. |
| Tomolink.Router | internal/app/tomolink/tomolink.go:41-116 | The input is the resolved "relationships.strict" setting, and an absent setting means strict mode. Strict mode is on unless the setting resolves to false, and then only the two fixed routes are registered. The result is fatal exactly when strict mode is on and the scan of "relationships.<i>" keys hit a lookup error other than "not set". |
| Tomolink.RetrieveOneRouteInjective | internal/app/tomolink/tomolink.go:85-89 | Single-value routes of different definitions never coincide. |
| Tomolink.RetrieveAllRouteInjective | internal/app/tomolink/tomolink.go:94-98 | Retrieve-all routes of different names never coincide. |
| Tomolink.RouteFamiliesDistinct | internal/app/tomolink/tomolink.go:83-113 | A single-value route is never a retrieve-all route. Neither is ever one of the two fixed routes. |
| Tomolink.RetrieveOneRegisteredIff | internal/app/tomolink/tomolink.go:83-91 | For any non-fatal strict-mode scan, the single-value route for a definition is registered exactly when the scan found that definition and its kind is "timestamp" or "score". |
| Tomolink.RetrieveAllRegisteredIff | internal/app/tomolink/tomolink.go:93-99 | For any non-fatal strict-mode scan, the retrieve-all route for a name is registered exactly when the scan found a definition with that name. |
| RequestParams.UrlParams | internal/app/tomolink/middleware.go:42-55 | Source, target and relationship come from the path variables "UUIDSource", "UUIDTarget" and "relationship". Direction and delta are always empty. |
| RequestParams.NormalizeRequestParams | internal/app/tomolink/middleware.go:40-87 | The next handler always runs, with the URL record merged as receiver, even after a conflict. A decode error is logged unless it is the empty-body message. A merge error is logged exactly when the path and body disagree on relationship, source or target. The direction always comes from the body. Without a merge error the delta comes from the body and every field follows `MergedField`. |
| RequestParams.UrlMergeErrors | internal/app/tomolink/middleware.go:42-75 | With a receiver that has no direction and no delta, the merge fails exactly when relationship, source or target holds two different non-empty values. On success the delta is the body's and every field follows `MergedField`. |
| RequestParams.UrlMergeDirection | internal/app/tomolink/middleware.go:42-70 | With a receiver that has no direction, the merged direction is the body's, even when a later field conflicts. |
| RequestParams.SameNameTwiceIsDropped | internal/app/tomolink/middleware.go:50-70 | A relationship name sent identically in the path and the body reaches the next handler as "". This holds even when a later field conflicts. |

## Left out

- `AppConfig.Load` and `populateOverrides` (YAML and environment loading through goconfig): the model takes the loaded settings keys and a lookup function as inputs.
- Process bootstrap, listening, signal handling and shutdown (cmd/httpserver.go, cmd/tomolink.go): no decision logic.
- The Firestore client (internal/config/database.go): connection set-up only. There is no store write logic to model.
- internal/app/tomolink/router.go: its per-relationship loop is commented out, and its alternation pattern exists only as a comment.
- internal/app/tomolink/handlers.go and common.go: body echoing, the Content-Type check through an external header parser, and error-writing plumbing.
- `VerboseLogger` and all logging. The model only records which errors `normalizeRequestParams` logs.
- The "Unhandled relationship field" branch of `Merge`: every field is a string or an integer, so it cannot be reached.
- Config.EnvVarName: upper-cases ASCII letters only, where Go's `strings.ToUpper` follows Unicode case mapping.
- Models.Relationship: `delta` is an unbounded integer rather than Go's 64-bit `int`. The merge only compares it, so no wrap-around arises.
- JSON decoding and gorilla mux's path variables are external. The decoded record, the decoder's error and the variable map are inputs.
- The order of Go's map iteration (settings keys, `MapKeys`) is unspecified. It is an input sequence for the mappings, and an unconstrained choice in `Keys`.
- `StrictMW` reads the parameters from the request context with a type assertion. A missing entry would panic; the model passes the record directly.
- Tomolink.Router: takes the "relationships.strict" setting as goconfig's `BoolOr` resolves it (absent, true or false). The source ignores the error `BoolOr` may report. Which bool `BoolOr` returns for a value it cannot parse is up to that library, so the model does not decide it.
- Route registration in the mux, and dispatch to handlers, are not modelled. A route is recorded as its path, verb, name, handler and required Content-Type.
