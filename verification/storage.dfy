/**
 * The store's operations as transitions on the database folder, which is
 * modelled as a map from collection name to the parsed content of that
 * collection's file. Each operation yields what its callback receives (or the
 * exception it throws) together with the folder afterwards.
 */
module Storage {
  import opened JsValues
  import opened Matcher
  import opened Collections
  import Query

  /** The collection files under the database folder, by collection name. */
  type Files = map<string, Collection>

  datatype Error = QueryError(exception: Query.QueryException) | TypeError

  /** The second argument the callback receives. */
  datatype Payload =
    | NoResult                          // the callback got the error alone: `undefined`
    | NullResult
    | Number(n: int)
    | Documents(docs: seq<Document>)

  datatype Completion =
    | Callback(error: Option<Error>, result: Payload)
    | Uncaught(thrown: Error)           // thrown out of the operation; no callback runs

  /** What an operation reports, and the folder after it. */
  datatype Step = Step(completion: Completion, files: Files)

  /** The error select, update and delete report for a missing collection file. */
  function NotFound(name: string): (e: Error)
    ensures e.QueryError?
    ensures e.exception.message == Query.ExceptionPrefix + "Collection " + name + " does not exist."
  {
    QueryError(Query.NewQueryException("Collection " + name + " does not exist."))
  }

  /** `${collection}` in the file path: an `undefined` name renders as "undefined". */
  function CollectionName(collection: Option<string>): (name: string)
    ensures collection.Some? ==> name == collection.value
    ensures collection.None? ==> name == "undefined"
  {
    match collection
    case Some(s) => s
    case None => "undefined"
  }

  /** Every collection other than `name` is exactly as it was, and none appeared or vanished. */
  ghost predicate OthersUnchanged(before: Files, after: Files, name: string)
  {
    forall n :: n != name ==> (n in after <==> n in before) && (n in before ==> after[n] == before[n])
  }

  /** The record insert reads: the stored one, or a fresh empty one when the file is missing. */
  function Existing(files: Files, name: string): (c: Collection)
    ensures name in files ==> c == files[name]
    ensures name !in files ==> c == EmptyCollection()
  {
    if name in files then files[name] else EmptyCollection()
  }

  /**
   * `insert`: a missing collection is first created empty; a plain object
   * then gets `_index` set to the counter, the counter goes up by one, the
   * object is appended last and its index is the result. Setting `_index` on
   * anything but an object throws inside the `try`, so the callback gets the
   * error and -1, and only the auto-created file remains.
   */
  function Insert(files: Files, q: Query.InsertQuery): (s: Step)
    ensures q.collection in s.files
    ensures OthersUnchanged(files, s.files, q.collection)
    ensures var before, after := Existing(files, q.collection), s.files[q.collection];
      if q.obj.Obj? then
        && s.completion == Callback(None, Number(before.nextIndex))
        && after == Inserted(before, q.obj.fields)
        && after.documents[|before.documents|] == q.obj.fields[IndexField := Int(before.nextIndex)]
      else
        s.completion == Callback(Some(TypeError), Number(-1)) && after == before
  {
    var name := q.collection;
    var before := Existing(files, name);
    match q.obj
    case Obj(fields) =>
      Step(Callback(None, Number(before.nextIndex)), files[name := Inserted(before, fields)])
    case _ =>
      Step(Callback(Some(TypeError), Number(-1)), files[name := before])
  }

  /**
   * `select`: never writes. A missing collection reports `QueryException`;
   * reading `filter.index` of an `undefined` filter throws; otherwise the
   * result is the selection of the stored documents.
   */
  function Select(files: Files, q: Query.SelectQuery): (s: Step)
    ensures s.files == files
    ensures q.collection !in files ==> s.completion == Callback(Some(NotFound(q.collection)), NoResult)
    ensures q.collection in files && q.filter.Undefined? ==> s.completion == Uncaught(TypeError)
    ensures q.collection in files && q.filter.Object? ==>
      s.completion == Callback(None, Documents(Selected(files[q.collection].documents, q.filter.entries)))
  {
    var name := q.collection;
    if name !in files then Step(Callback(Some(NotFound(name)), NoResult), files)
    else match q.filter
      case Undefined => Step(Uncaught(TypeError), files)
      case Object(filter) => Step(Callback(None, Documents(Selected(files[name].documents, filter))), files)
  }

  /**
   * `update`. With a truthy `index` in the filter it reports 1 and writes
   * nothing, whether or not a document sits at that position. Otherwise each
   * matching document is merged with `updateQuery.value` (a property no query
   * has, so `undefined`), the file is rewritten and the matches are counted.
   * As written, then, update never changes any collection.
   */
  function Update(files: Files, q: Query.UpdateQuery): (s: Step)
    ensures s.files == files
    ensures var name := CollectionName(q.collection);
      && (name !in files ==> s.completion == Callback(Some(NotFound(name)), NoResult))
      && (name in files && q.filter.Undefined? ==> s.completion == Uncaught(TypeError))
      && (name in files && q.filter.Object? ==>
            var filter := q.filter.entries;
            if PositionKey in filter && Truthy(filter[PositionKey]) then
              s.completion == Callback(None, Number(1))
            else
              s.completion == Callback(None, Number(|Filtered(files[name].documents, q.filter, true)|)))
  {
    var name := CollectionName(q.collection);
    if name !in files then Step(Callback(Some(NotFound(name)), NoResult), files)
    else match q.filter
      case Undefined => Step(Uncaught(TypeError), files)
      case Object(filter) =>
        if PositionKey in filter && Truthy(filter[PositionKey]) then
          Step(Callback(None, Number(1)), files)
        else
          var c := files[name];
          UpdateWithUndefinedChangesNothing(c.documents, q.filter);
          Step(Callback(None, Number(|Filtered(c.documents, q.filter, true)|)),
               files[name := c.(documents := UpdatedDocuments(c.documents, q.filter, Undefined))])
  }

  /**
   * `delete`: keeps the documents the filter does not match, in order, leaves
   * the counter alone, rewrites the file and reports 0.
   */
  function Delete(files: Files, q: Query.DeleteQuery): (s: Step)
    ensures OthersUnchanged(files, s.files, q.collection)
    ensures q.collection !in files ==>
      s == Step(Callback(Some(NotFound(q.collection)), NoResult), files)
    ensures q.collection in files ==>
      && s.completion == Callback(None, Number(0))
      && q.collection in s.files
      && s.files[q.collection].nextIndex == files[q.collection].nextIndex
      && s.files[q.collection].documents == Filtered(files[q.collection].documents, q.filter, false)
  {
    var name := q.collection;
    if name !in files then Step(Callback(Some(NotFound(name)), NoResult), files)
    else
      var c := files[name];
      Step(Callback(None, Number(0)), files[name := c.(documents := Filtered(c.documents, q.filter, false))])
  }

  /** The collection a query names. */
  function Target(q: Query.AnyQuery): (name: string)
  {
    match q
    case IsCreateCollection(c) => c.collectionName
    case IsInsert(i) => i.collection
    case IsSelect(s) => s.collection
    case IsUpdate(u) => CollectionName(u.collection)
    case IsDelete(d) => d.collection
  }

  /**
   * `submit`'s routing once builders are built: each query class goes to its
   * one operation. A create query calls `this.create`, which `Database` does
   * not define, so it throws a `TypeError` and nothing is created. Whatever
   * the query, only its own collection can change, no collection disappears
   * and no counter goes down.
   */
  function Route(files: Files, q: Query.AnyQuery): (s: Step)
    ensures OthersUnchanged(files, s.files, Target(q))
    ensures forall n :: n in files ==> n in s.files && s.files[n].nextIndex >= files[n].nextIndex
    ensures q.IsCreateCollection? ==> s == Step(Uncaught(TypeError), files)
    ensures q.IsInsert? ==> s == Insert(files, q.insert)
    ensures q.IsSelect? ==> s == Select(files, q.select)
    ensures q.IsUpdate? ==> s == Update(files, q.update)
    ensures q.IsDelete? ==> s == Delete(files, q.delete)
  {
    match q
    case IsCreateCollection(_) => Step(Uncaught(TypeError), files)
    case IsInsert(i) => Insert(files, i)
    case IsSelect(sq) => Select(files, sq)
    case IsUpdate(u) => Update(files, u)
    case IsDelete(d) => Delete(files, d)
  }

  /** Every collection file satisfies the index invariant. */
  predicate AllWellIndexed(files: Files)
  {
    forall n :: n in files ==> WellIndexed(files[n])
  }

  /** No routed query breaks the index invariant of any collection. */
  lemma RoutePreservesWellIndexed(files: Files, q: Query.AnyQuery)
    requires AllWellIndexed(files)
    ensures AllWellIndexed(Route(files, q).files)
  {
    var after := Route(files, q).files;
    match q
    case IsInsert(i) =>
      var before := Existing(files, i.collection);
      if i.obj.Obj? {
        InsertKeepsWellIndexed(before, i.obj.fields);
      }
      assert WellIndexed(after[i.collection]);
    case IsDelete(d) =>
      if d.collection in files {
        FilteredKeepsWellIndexed(files[d.collection], d.filter, false);
        assert WellIndexed(after[d.collection]);
      }
    case _ =>
  }

  /** Any error reported through the callback or thrown leaves the folder as it was, except that insert's auto-created file stays. */
  lemma FailuresWriteNothing(files: Files, q: Query.AnyQuery)
    ensures var s := Route(files, q);
      (s.completion.Uncaught? || (s.completion.error.Some? && s.completion.error.value.QueryError?))
        ==> s.files == files
    ensures var s := Route(files, q);
      q.IsInsert? && s.completion.Callback? && s.completion.error.Some? ==>
        s.files == files[q.insert.collection := Existing(files, q.insert.collection)]
  {
  }

  /**
   * `deleteAllFrom(c)` empties an existing collection and keeps its counter,
   * so the next insert still continues the index sequence.
   */
  lemma DeleteAllFromEmpties(files: Files, name: string)
    requires name in files
    ensures var s := Delete(files, Query.DeleteAllFrom(name));
      && s.files[name] == Collection(files[name].nextIndex, [])
      && s.completion == Callback(None, Number(0))
  {
    UndefinedFilterKeepsAll(files[name].documents);
  }

  /**
   * Delete removes exactly the documents the same filter's scan selects, so
   * the count it should report is the size of that selection, yet it reports 0.
   */
  lemma DeleteRemovesTheSelection(files: Files, name: string, filter: map<string, Value>)
    requires name in files
    requires !(PositionKey in filter && Truthy(filter[PositionKey]))
    ensures var removed := |files[name].documents| - |Delete(files, Query.DeleteQuery(name, Object(filter))).files[name].documents|;
      && removed == |Selected(files[name].documents, filter)|
      && Delete(files, Query.DeleteQuery(name, Object(filter))).completion == Callback(None, Number(0))
  {
    FilteredPartition(files[name].documents, Object(filter));
  }

  /**
   * Delete has no direct-position path: `{index: 1}` over two documents
   * without an `index` field deletes nothing, while select with the same
   * filter returns the document at position 1.
   */
  lemma DeleteIgnoresPositionPath()
    ensures
      var d0 := map["stringKey" := Str("asdf"), IndexField := Int(0)];
      var d1 := map["stringKey" := Str("qwerty"), IndexField := Int(1)];
      var files := map["coll" := Collection(2, [d0, d1])];
      var filter := map[PositionKey := Int(1)];
      && Delete(files, Query.DeleteQuery("coll", Object(filter))).files == files
      && Select(files, Query.SelectQuery("coll", Object(filter))).completion == Callback(None, Documents([d1]))
  {
    var d0 := map["stringKey" := Str("asdf"), IndexField := Int(0)];
    var d1 := map["stringKey" := Str("qwerty"), IndexField := Int(1)];
    var filter := map[PositionKey := Int(1)];
    var docs := [d0, d1];
    assert !KeyMatches(d0, filter, PositionKey);
    assert !KeyMatches(d1, filter, PositionKey);
    assert docs[..1] == [d0] && [d0][..0] == [];
    assert Filtered([d0], Object(filter), false) == [d0];
    assert Filtered(docs, Object(filter), false) == docs;
    assert Selected(docs, filter) == [d1];
  }

  /**
   * Indices are never reused: insert A and B into a missing collection (0 and
   * 1), delete A, insert C: C gets 2, and C is the last document.
   */
  lemma IndexSequenceExample()
    ensures
      var a := map["stringKey" := Str("asdf"), "intKey" := Int(12)];
      var b := map["stringKey" := Str("qwerty"), "intKey" := Int(7)];
      var c := map["stringKey" := Str("zxcv"), "intKey" := Int(3)];
      var s1 := Insert(map[], Query.InsertInto("coll", Obj(a)));
      var s2 := Insert(s1.files, Query.InsertInto("coll", Obj(b)));
      var s3 := Delete(s2.files, Query.DeleteQuery("coll", Object(map["intKey" := Int(12)])));
      var s4 := Insert(s3.files, Query.InsertInto("coll", Obj(c)));
      && s1.completion == Callback(None, Number(0))
      && s2.completion == Callback(None, Number(1))
      && s4.completion == Callback(None, Number(2))
      && s4.files["coll"].nextIndex == 3
      && |s4.files["coll"].documents| == 2
  {
    var a := map["stringKey" := Str("asdf"), "intKey" := Int(12)];
    var b := map["stringKey" := Str("qwerty"), "intKey" := Int(7)];
    var filter := map["intKey" := Int(12)];
    var s1 := Insert(map[], Query.InsertInto("coll", Obj(a)));
    var s2 := Insert(s1.files, Query.InsertInto("coll", Obj(b)));
    var docs := s2.files["coll"].documents;
    assert |docs| == 2;
    assert KeyMatches(docs[0], filter, "intKey");
    assert Matches(docs[0], filter);
    assert !KeyMatches(docs[1], filter, "intKey");
    assert !Matches(docs[1], filter);
    assert docs[..1][..0] == [];
    assert Filtered(docs, Object(filter), false) == [docs[1]];
  }
}
