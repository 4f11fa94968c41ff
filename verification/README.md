# store-my-request in Dafny

This is a model of the core of a small file-backed document store written in
JavaScript (Node.js). Each collection is a JSON file
`{nextIndex, documents}` inside a database folder. Queries are built with
factory functions and builders (`selectFrom(c).where(f)`,
`update(...).in(c).values(v).where(f)`, `deleteFrom(c)`, `insertInto(c, o)`,
`createCollection(n)`). `Database.submit` routes each query to `insert`,
`select`, `update` or `delete`. Each of those reads the collection file,
works on the parsed record, writes the file back where it changes something,
and reports through a Node-style callback `(error, result)`.

The project has six modules:

- `JsValues` (values.dfy) holds the JSON values a document can hold. It also
  holds the two pieces of JavaScript semantics the store relies on:
  - truthiness;
  - how `documents[filter.index]` picks an array element. A non-negative
    integer picks that position. So does a string that is the canonical
    decimal form of one. Any other value picks nothing.
- `Query` (query.js) holds the five query classes as datatypes, with the
  getters as destructors. The three builders are classes whose `where` and
  `in`/`values` update their fields. It also holds the factory functions and
  `QueryException`.
- `Matcher` holds `filterDocument`:
  - a recursive specification, `Matches`;
  - the imperative `for...in` loop, proved equal to that specification for
    every order in which the keys are enumerated.
- `Collections` describes, as functions on a parsed collection record, what
  each operation does in memory: the scan, the direct-position path, the
  insert stamp and the update merge. It also states the invariant that indices
  are unique and increasing.
- `Storage` describes each operation as a transition on the folder, which is
  a map from collection name to record. A transition yields what the callback
  receives (or what is thrown) and the folder afterwards.
- `Db` holds the `Database` class. Its `files` field is the folder.
  `insert`, `select`, `update`, `delete` and `submit` are methods that change
  the record step by step, as the source does. Each is proved to make exactly
  the `Storage` transition.

### Where the code and its documentation disagree

The model follows the code. Each point below is stated and proved in the
model.

- **`insert` creates missing collections.** Its comment says it needs an
  existing collection, but it creates the missing one (`Storage.Insert`).
- **A non-object insert leaves an empty collection behind.** Inserting a
  value that is not an object throws inside the `try` (strict-mode property
  assignment). The callback gets the error and -1, and the auto-created empty
  collection stays (`Storage.FailuresWriteNothing`).
- **Select's fast path checks no other filter key.** The comment says the
  document at `filter.index` is "filtered to make sure it meets other
  criteria", but no filtering happens
  (`Collections.PositionPathIgnoresOtherKeys`,
  `Collections.PositionPathExample`).
- **`{index: 0}` selects nothing.** The value 0 is falsy, so the filter goes
  down the scan, where a falsy field never matches
  (`Collections.PositionZeroSelectsNothing`).
- **`update` never changes a document.** It copies fields from
  `updateQuery.value`, which no query defines (`UpdateQuery` has `values`).
  On the scan path it still rewrites the file and reports the number of
  matches (`Storage.Update`, `Db.UpdateBuilderScenario`).
- **`update`'s fast path reports 1 and writes nothing.** This holds whether
  or not a document exists at that position.
- **The intended merge is modelled for any value map.** The scan method
  `Db.ScanUpdate` is proved for an arbitrary value map, and the merge it
  would perform is proved idempotent and index-preserving
  (`Collections.UpdateIdempotent`, `Collections.UpdateKeepsWellIndexed`).
- **`delete` always reports 0.** Its comment promises the number of deleted
  documents. For a filter without a truthy `index`, that number is proved to
  be the size of the same filter's selection
  (`Storage.DeleteRemovesTheSelection`). Delete has no direct-position path,
  so with a truthy `index` the two differ: `{index: 1}` can select a document
  that delete leaves in place (`Storage.DeleteIgnoresPositionPath`).
- **A missing collection gets no result argument.** Select, update and delete
  pass only the error to the callback, so the result is `undefined`. The
  comments promise -1 or an empty array.
- **Submitting something with no constructor throws.** `submit(null)`,
  `submit(undefined)` or an object without a prototype fail when the
  unknown-type message reads `q.constructor.name`, so a `TypeError` is thrown
  and no callback runs (`Db.Database.Submit`).
- **Submitting a `CreateCollectionQuery` throws.** `submit` calls
  `this.create`, which `Database` does not define, so a `TypeError` is thrown
  and nothing is created (`Storage.Route`, `Db.CreateCollectionScenario`).
- **A missing `filter` makes select and update throw.** Without it, reading
  `filter.index` throws a `TypeError` out of the file-existence callback.
- **A delete builder without a filter deletes everything.** When it is
  submitted before `where`, the filter is `undefined`, so every document
  matches and all of them are deleted (`Storage.DeleteAllFromEmpties`,
  `Db.DeleteBuilderScenario`).
- **`update(...fields)` wraps its field list.** It passes the list as one
  argument of a rest-parameter constructor, so `fieldsToUpdate` is `[fields]`
  (`Query.Update`).
- **An update without `in` targets a collection named "undefined".** If
  `in` was never called, the collection is `undefined`, and the file looked
  up is `undefined.json` (`Storage.CollectionName`).

## Model

| member | source | states |
|---|---|---|
| JsValues.StringPositionIsDecimal | src/db/database.js:110-114 | a string filter index names array position n exactly when it is n's canonical decimal form, i.e. exactly when the number n would name it |
| JsValues.DecimalStringValue | src/db/database.js:111 | the canonical decimal form of n reads back as n |
| JsValues.CanonicalIsDecimal | src/db/database.js:111 | a string accepted as an array position is the canonical decimal form of that position |
| Query.NewQueryException | src/db/query.js:176-184 | the message is "Query Exception: " followed by the given text, nothing else |
| Query.SelectQueryBuilder.constructor | src/db/query.js:115-119 | a new select builder keeps its collection and has no filter yet; building it gives a select with an undefined filter |
| Query.SelectQueryBuilder.Build | src/db/query.js:126-128 | the select query on the builder's current collection and filter (undefined before `where`); reads the builder and changes nothing |
| Query.SelectQueryBuilder.Where | src/db/query.js:121-124 | records the filter and returns the select query on the builder's collection with that filter, the same query build() then gives |
| Query.UpdateQueryBuilder.constructor | src/db/query.js:134-136 | the rest parameter stores the argument list as given; collection, values and filter start undefined |
| Query.UpdateQueryBuilder.In | src/db/query.js:138-141 | sets the collection only and returns the same builder |
| Query.UpdateQueryBuilder.Values | src/db/query.js:143-146 | sets the value map only and returns the same builder |
| Query.UpdateQueryBuilder.Build | src/db/query.js:153-155 | the update query made of the four current fields; reads the builder and changes nothing |
| Query.UpdateQueryBuilder.Where | src/db/query.js:148-151 | records the filter and returns the update query made of the four current fields, the same query build() then gives |
| Query.DeleteQueryBuilder.constructor | src/db/query.js:159-163 | a new delete builder keeps its collection and builds a delete with an undefined filter |
| Query.DeleteQueryBuilder.Build | src/db/query.js:170-172 | the delete query on the builder's current collection and filter (undefined before `where`); reads the builder and changes nothing |
| Query.DeleteQueryBuilder.Where | src/db/query.js:165-168 | records the filter and returns the delete query with it, the same query build() then gives |
| Query.SelectFrom | src/db/query.js:1-3 | returns a fresh builder for that collection with no filter |
| Query.InsertInto | src/db/query.js:5-7 | the insert query's getters give back the collection and the object |
| Query.Update | src/db/query.js:9-11 | the fields arrive wrapped as one argument: fieldsToUpdate is [fields], everything else undefined |
| Query.DeleteAllFrom | src/db/query.js:13-15 | a delete query on that collection with an undefined filter |
| Query.DeleteFrom | src/db/query.js:17-19 | returns a fresh builder whose build() is a delete with an undefined filter |
| Query.CreateCollection | src/db/query.js:21-23 | the query's getter gives back the name |
| Matcher.FilterDocument | src/db/database.js:134-154 | the for...in loop returns true exactly when every filter key is present with a truthy value that equals the filter's (or, both being plain objects, matches it recursively), whatever the key order; an undefined filter matches all |
| Matcher.FalsyNeverMatches | src/db/database.js:142-150 | a filter key whose document value is missing or falsy makes the document fail, even when the filter asks for that very value |
| Matcher.MatchesIsConjunction | src/db/database.js:137-151 | the verdict for a filter is the conjunction of the verdicts for any split of its keys; the empty filter matches every document |
| Matcher.ExtraFieldsIrrelevant | src/db/database.js:137-151 | document fields the filter does not name never change the verdict |
| Matcher.ValueSelfMatch | src/db/database.js:142-147 | a value matches itself exactly when no value inside it, at any depth, is falsy |
| Matcher.SelfMatch | src/db/database.js:134-154 | a document used as its own filter matches itself exactly when none of its values at any depth is "", 0 or false |
| Matcher.NestedFilterExample | src/db/database.js:143-144 | a nested filter matches a document whose nested field agrees and rejects one whose nested field differs |
| Collections.EmptyCollection | src/db/database.js:28-34 | a new collection file has counter 0 and no documents, and satisfies the index invariant |
| Collections.Filtered | src/db/database.js:241 | the kept documents are no more than the stored ones and every one has the wanted verdict |
| Collections.FilteredIsExact | src/db/database.js:123-127 | the scan yields the stored documents at exactly the positions whose verdict is the wanted one, in stored order |
| Collections.FilteredPartition | src/db/database.js:241 | the documents delete keeps and those select returns together make up the collection: counts add up and multisets sum |
| Collections.NothingToKeep | src/db/database.js:123-127 | when no document has the wanted verdict the scan yields nothing |
| Collections.UndefinedFilterKeepsAll | src/db/database.js:241 | an undefined filter matches every document: a scan keeps all and delete removes all |
| Collections.FilteredKeepsWellIndexed | src/db/database.js:241 | removing documents keeps indices unique, increasing and below the unchanged counter |
| Collections.Selected | src/db/database.js:106-127 | with a truthy index, the result is at most the one document at the position that index names; otherwise it is the stored documents read, in order, at exactly the positions whose document matches the filter |
| Collections.PositionPathIgnoresOtherKeys | src/db/database.js:108-119 | with a truthy index naming position p, select returns the document at p (or nothing past the end) whatever the other filter keys say |
| Collections.PositionPathExample | src/db/database.js:110-117 | {index: 1, stringKey: "zzz"} returns the document at position 1 although it does not match the filter |
| Collections.PositionZeroSelectsNothing | src/db/database.js:110-127 | {index: 0} takes the scan and selects no document at all |
| Collections.SelectByValueExample | src/db/database.js:123-127 | {intKey: 12} over two documents returns exactly the matching one |
| Collections.Inserted | src/db/database.js:62-71 | insert stamps the object with the old counter, bumps the counter by one and appends the object after the unchanged documents |
| Collections.InsertKeepsWellIndexed | src/db/database.js:64-71 | insert keeps indices unique and increasing, and the stamped index is above every stored one |
| Collections.IndicesNeverReused | src/db/database.js:64-71 | after any delete, the next insert's index exceeds the index of every document the collection held before |
| Collections.Merged | src/db/database.js:202-204 | copying a value map onto a document gives its keys the new values and leaves all other fields; copying undefined changes nothing |
| Collections.UpdatedDocuments | src/db/database.js:200-208 | the update scan keeps the number of documents; at each position a non-matching document stays as it was and a matching one is replaced by its merge with the value map |
| Collections.UpdateWithUndefinedChangesNothing | src/db/database.js:200-208 | merging the undefined `value` the code reads leaves every document unchanged |
| Collections.UpdateKeepsWellIndexed | src/db/database.js:200-208 | an update whose values do not set _index keeps the index invariant |
| Collections.UpdateIdempotent | src/db/database.js:200-208 | for any filter and value map, updating twice equals updating once |
| Collections.UpdateKeepsMatches | src/db/database.js:200-208 | when the values do not touch the filter's keys, exactly the same positions match before and after the update |
| Storage.NotFound | src/db/database.js:98 | the missing-collection error is a QueryException reading "Query Exception: Collection <name> does not exist." |
| Storage.CollectionName | src/db/database.js:165-169 | an update with no collection looks for the collection named "undefined" |
| Storage.Existing | src/db/database.js:48-52 | insert works on the stored record, or on an empty one when the file is missing |
| Storage.Insert | src/db/database.js:44-82 | insert into a missing collection creates it; an object is appended after the unchanged documents as itself with `_index` set to the counter, the counter goes up by one and the index is reported; a non-object reports TypeError and -1; other collections are untouched |
| Storage.Select | src/db/database.js:92-132 | select writes nothing; a missing collection reports the QueryException with no result; an undefined filter throws; otherwise it reports the selection |
| Storage.Update | src/db/database.js:164-216 | update leaves every collection as it was; it reports the missing collection, throws on an undefined filter, reports 1 on the position path and otherwise the number of matching documents |
| Storage.Delete | src/db/database.js:226-249 | delete keeps exactly the documents the filter does not match, keeps the counter, touches no other collection and reports 0; a missing collection is reported and nothing changes |
| Storage.Route | src/db/database.js:271-296 | each query class goes to its operation; a create query throws and changes nothing; only the named collection can change, none disappears and no counter decreases |
| Storage.RoutePreservesWellIndexed | src/db/database.js:271-296 | every submitted query keeps unique increasing indices below the counter in every collection |
| Storage.FailuresWriteNothing | src/db/database.js:258-297 | a thrown error or a QueryException leaves the folder unchanged; a failed insert leaves only the auto-created empty file |
| Storage.DeleteAllFromEmpties | src/db/database.js:241 | deleteAllFrom empties an existing collection, keeps its counter and reports 0 |
| Storage.DeleteRemovesTheSelection | src/db/database.js:241-246 | for a filter without a truthy `index`, the number of documents delete removes is the size of the same filter's selection, yet it reports 0 |
| Storage.DeleteIgnoresPositionPath | src/db/database.js:241 | delete has no position path: `{index: 1}` deletes nothing from two documents without an `index` field, while select returns the document at position 1 |
| Storage.IndexSequenceExample | src/db/database.js:64-76 | inserting A and B into a missing collection reports 0 and 1; after deleting A, inserting C reports 2, with counter 3 and two documents |
| Db.Finalized | src/db/database.js:259-269 | a builder is replaced by what its build() returns; a query passes unchanged |
| Db.ScanUpdate | src/db/database.js:196-208 | the forEach with its nested for...in yields each matching document merged with the value map and the others unchanged, and counts the matches |
| Db.Database.constructor | src/db/database.js:14-22 | an existing folder is reused with its collections |
| Db.Database.CreateEmptyCollection | src/db/database.js:28-34 | (over)writes the named collection with an empty record and leaves the others |
| Db.Database.Insert | src/db/database.js:44-82 | the step-by-step insert reports and stores exactly the insert transition |
| Db.Database.Select | src/db/database.js:92-132 | the position path and the forEach scan report exactly the select transition, and the folder is not modified |
| Db.Database.Update | src/db/database.js:164-216 | the update as written reports and stores exactly the update transition |
| Db.Database.Delete | src/db/database.js:226-249 | the delete reports and stores exactly the delete transition |
| Db.CreateCollectionScenario | src/main.js:8-24 | the demo's first submit, a create-collection query, throws a TypeError; its callback with the insert never runs and the folder stays empty |
| Db.UpdateBuilderScenario | src/db/database.js:196-213 | `update(["stringKey"]).in("coll").values(...).where({intKey: 12})` (query.js:9-11, 138-151) builds a query with fieldsToUpdate `[["stringKey"]]`; submitting it reports 1 affected document yet leaves the stored document unchanged |
| Db.DeleteBuilderScenario | src/db/database.js:241 | a `deleteFrom(c)` builder submitted without `where` (query.js:17-19, 170-172) has an undefined filter, reports 0 and leaves the collection empty with its counter kept |
| Db.Database.Submit | src/db/database.js:258-297 | builders are built, the query is routed to its operation with exactly the routing transition; any other object gets "Query Exception: Unknown query type: <constructor name>" with a null result and no change; a value with no constructor throws a TypeError and changes nothing |

## Left out

- File I/O (`fs.exists`, `readFileSync`, `writeFileSync`, `mkdirSync`): the folder is the `files` map, and reading a file gives back what was last written to it.
- JSON parsing and serialisation: a stored record is kept as a value. The JSON round trip is assumed to be exact for the values modelled, and a corrupt file's `JSON.parse` error is not modelled.
- `getCollectionFile`: the path is just the collection name, so two names never share a file.
- Asynchrony and interleaving: callbacks are modelled as the value they receive. Operations run one after another, so two queries racing on the same file are not modelled. Neither is a callback that throws: insert's `try` also wraps its success callback, so a throwing callback is called a second time with the error and -1 after the file is already written.
- `queryQueue`, `createDatabase` and `terminateDatabase`: they are not part of the query path (`terminate` is not defined on `Database`).
- Arrays, `null`, floating-point numbers and `NaN` in documents and filters: values are strings, integers, booleans and plain objects.
- Object identity: insert sets `_index` on the caller's own object, which the caller can then see. Values here have no identity, so that aliasing is not modelled.
- Filter or document keys that name inherited properties (`constructor`, `toString`, …): documents are plain maps without a prototype chain.
- `Db.Database.Select`: on the position path, a string index that names some other property of the documents array is treated as naming no document. Examples are the array's own "length" and an `Array.prototype` member such as "push". For "length" on a non-empty collection, the source returns `[documents.length]`, while the model returns `[]`.
- Storage.Update: on the fast path, `affectedDocuments++` acts on a hoisted counter that is still undefined and makes it NaN; the path always reports 1, so that counter is not modelled.
- The demo program in main.js is not part of this model; only its first call (creating a collection through `submit`) is replayed, in `Db.CreateCollectionScenario`.
