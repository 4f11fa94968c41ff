/**
 * The `Database` class: the folder of collection files is its state, and
 * each operation reads one collection record, changes it step by step and
 * writes it back, as the source does between `readFileSync` and
 * `writeFileSync`. Every operation is proved to make exactly the transition
 * the matching function of module Storage describes.
 */
module Db {
  import opened JsValues
  import opened Matcher
  import opened Collections
  import opened Storage
  import Query

  /**
   * What `submit` may be handed: a finished query, one of the three builders,
   * any other object (known by its constructor's name), or a value with no
   * constructor at all (`null`, `undefined`, an object without a prototype).
   */
  datatype Submission =
    | Finished(query: Query.AnyQuery)
    | SelectBuilder(selectBuilder: Query.SelectQueryBuilder)
    | UpdateBuilder(updateBuilder: Query.UpdateQueryBuilder)
    | DeleteBuilder(deleteBuilder: Query.DeleteQueryBuilder)
    | Foreign(constructorName: string)
    | NoConstructor
  {
    /** A query or a builder, which `submit` routes to an operation. */
    predicate Routable()
    {
      !Foreign? && !NoConstructor?
    }

    /** The builder object, if any, whose fields building reads. */
    function Builder(): (objects: set<object>)
    {
      match this
      case SelectBuilder(b) => {b}
      case UpdateBuilder(b) => {b}
      case DeleteBuilder(b) => {b}
      case _ => {}
    }
  }

  /** The query `submit` routes: a builder is replaced by what its `build()` returns. */
  function Finalized(s: Submission): (q: Query.AnyQuery)
    requires s.Routable()
    reads s.Builder()
    ensures s.Finished? ==> q == s.query
    ensures s.SelectBuilder? ==> q == Query.IsSelect(s.selectBuilder.Build())
    ensures s.UpdateBuilder? ==> q == Query.IsUpdate(s.updateBuilder.Build())
    ensures s.DeleteBuilder? ==> q == Query.IsDelete(s.deleteBuilder.Build())
  {
    match s
    case Finished(q) => q
    case SelectBuilder(b) => Query.IsSelect(b.Build())
    case UpdateBuilder(b) => Query.IsUpdate(b.Build())
    case DeleteBuilder(b) => Query.IsDelete(b.Build())
  }

  /**
   * The scan path of `update`: a `forEach` over the stored documents that, for
   * each match, assigns every key of `values` onto the document in turn (a
   * `for...in`, in whatever order the keys come) and counts it.
   */
  method ScanUpdate(documents: seq<Document>, filter: ObjectArg, values: ObjectArg)
    returns (updated: seq<Document>, affectedDocuments: nat)
    ensures updated == UpdatedDocuments(documents, filter, values)
    ensures affectedDocuments == |Filtered(documents, filter, true)|
  {
    affectedDocuments := 0;
    updated := documents;
    var i := 0;
    while i < |updated|
      invariant 0 <= i <= |updated| == |documents|
      invariant forall j :: 0 <= j < i ==>
        updated[j] == if FilterMatches(documents[j], filter) then Merged(documents[j], values) else documents[j]
      invariant forall j :: i <= j < |updated| ==> updated[j] == documents[j]
      invariant affectedDocuments == |Filtered(documents[..i], filter, true)|
    {
      var document := updated[i];
      var matches := FilterDocument(document, filter);
      assert documents[..i + 1][..i] == documents[..i];
      if matches {
        var pending: set<string> := if values.Object? then values.entries.Keys else {};
        while pending != {}
          invariant pending != {} ==> values.Object?
          invariant values.Object? ==> pending <= values.entries.Keys
          invariant values.Object? ==> document.Keys == documents[i].Keys + (values.entries.Keys - pending)
          invariant values.Object? ==> forall k :: k in document ==>
            document[k] == if k in values.entries && k !in pending then values.entries[k] else documents[i][k]
          invariant values.Undefined? ==> document == documents[i]
          decreases pending
        {
          var key :| key in pending;
          document := document[key := values.entries[key]];
          pending := pending - {key};
        }
        assert document == Merged(documents[i], values);
        affectedDocuments := affectedDocuments + 1;
      }
      updated := updated[i := document];
      i := i + 1;
    }
    assert documents[..i] == documents;
  }

  class Database {
    const rootFolder: string
    var files: Files

    /**
     * The folder is created only when missing; an existing folder is reused
     * with whatever collection files it already holds.
     */
    constructor (rootFolder: string, existing: Files)
      ensures this.rootFolder == rootFolder && files == existing
    {
      this.rootFolder := rootFolder;
      files := existing;
    }

    /** `createEmptyCollection`: (over)writes the file with `{nextIndex: 0, documents: []}`. */
    method CreateEmptyCollection(name: string)
      modifies this
      ensures files == old(files)[name := EmptyCollection()]
    {
      files := files[name := Collection(0, [])];
    }

    method Insert(q: Query.InsertQuery) returns (done: Completion)
      modifies this
      ensures Step(done, files) == Storage.Insert(old(files), q)
    {
      var name := q.collection;
      if name !in files {
        CreateEmptyCollection(name);
      }
      var record := files[name];
      match q.obj {
        case Obj(fields) =>
          var objectToInsert := fields[IndexField := Int(record.nextIndex)];
          record := record.(nextIndex := record.nextIndex + 1);
          record := record.(documents := record.documents + [objectToInsert]);
          files := files[name := record];
          done := Callback(None, Number(objectToInsert[IndexField].i));
        case _ =>
          // assigning `_index` on a non-object throws inside the `try`
          done := Callback(Some(TypeError), Number(-1));
      }
    }

    /** `select`: the direct-position path, or a `forEach` that pushes every matching document. */
    method Select(q: Query.SelectQuery) returns (done: Completion)
      ensures Step(done, files) == Storage.Select(files, q)
    {
      var name := q.collection;
      if name !in files {
        done := Callback(Some(NotFound(name)), NoResult);
        return;
      }
      var documents := files[name].documents;
      if q.filter.Undefined? {
        // `selectQuery.filter.index` on `undefined`
        done := Uncaught(TypeError);
        return;
      }
      var filter := q.filter.entries;
      var result: seq<Document> := [];
      if PositionKey in filter && Truthy(filter[PositionKey]) {
        var position := ArrayPosition(filter[PositionKey]);
        if position.Some? && position.value < |documents| {
          result := result + [documents[position.value]];
        }
        assert result == Selected(documents, filter);
        done := Callback(None, Documents(result));
        return;
      }
      var i := 0;
      while i < |documents|
        invariant 0 <= i <= |documents|
        invariant result == Filtered(documents[..i], q.filter, true)
      {
        var matches := FilterDocument(documents[i], q.filter);
        assert documents[..i + 1][..i] == documents[..i];
        if matches {
          result := result + [documents[i]];
        }
        i := i + 1;
      }
      assert documents[..i] == documents;
      done := Callback(None, Documents(result));
    }

    /**
     * `update`: on the scan path every matching document gets each key of
     * `updateQuery.value` assigned (a property no query defines, so
     * `undefined` and nothing is assigned) and is counted; the record is then
     * written back.
     */
    method Update(q: Query.UpdateQuery) returns (done: Completion)
      modifies this
      ensures Step(done, files) == Storage.Update(old(files), q)
    {
      var name := CollectionName(q.collection);
      if name !in files {
        done := Callback(Some(NotFound(name)), NoResult);
        return;
      }
      var record := files[name];
      if q.filter.Undefined? {
        done := Uncaught(TypeError);
        return;
      }
      var filter := q.filter.entries;
      if PositionKey in filter && Truthy(filter[PositionKey]) {
        // the copy loop over `updateQuery.value` never runs and nothing is written
        done := Callback(None, Number(1));
        return;
      }
      // `updateQuery.value`: no query class defines it, so it is `undefined`
      var documents, affectedDocuments := ScanUpdate(record.documents, q.filter, Undefined);
      files := files[name := record.(documents := documents)];
      done := Callback(None, Number(affectedDocuments));
    }

    /** `delete`: replaces the documents by those the filter does not match, and reports 0. */
    method Delete(q: Query.DeleteQuery) returns (done: Completion)
      modifies this
      ensures Step(done, files) == Storage.Delete(old(files), q)
    {
      var name := q.collection;
      if name !in files {
        done := Callback(Some(NotFound(name)), NoResult);
        return;
      }
      var record := files[name];
      record := record.(documents := Filtered(record.documents, q.filter, false));
      files := files[name := record];
      done := Callback(None, Number(0));
    }

    /**
     * `submit`: a builder is built first; the query is then handed to the one
     * operation for its class. Any other object is reported as an unknown
     * query type with a `null` result; reading the constructor name of a value
     * that has none throws.
     */
    method Submit(s: Submission) returns (done: Completion)
      modifies this
      ensures s.Foreign? ==> files == old(files)
      ensures s.Foreign? ==> done == Callback(
        Some(QueryError(Query.NewQueryException("Unknown query type: " + s.constructorName))), NullResult)
      ensures s.NoConstructor? ==> files == old(files) && done == Uncaught(TypeError)
      ensures s.Routable() ==> Step(done, files) == Route(old(files), Finalized(s))
    {
      var q: Query.AnyQuery;
      match s {
        case Foreign(constructorName) =>
          done := Callback(Some(QueryError(Query.NewQueryException("Unknown query type: " + constructorName))), NullResult);
          return;
        case NoConstructor =>
          // `q.constructor.name` on a value without a constructor
          done := Uncaught(TypeError);
          return;
        case Finished(query) => q := query;
        case SelectBuilder(b) => q := Query.IsSelect(b.Build());
        case UpdateBuilder(b) => q := Query.IsUpdate(b.Build());
        case DeleteBuilder(b) => q := Query.IsDelete(b.Build());
      }
      match q {
        case IsCreateCollection(_) =>
          // `this.create` is not defined on Database
          done := Uncaught(TypeError);
        case IsInsert(iq) => done := Insert(iq);
        case IsUpdate(uq) => done := Update(uq);
        case IsDelete(dq) => done := Delete(dq);
        case IsSelect(sq) => done := Select(sq);
      }
    }
  }

  /**
   * The demo program's first call: submitting `createCollection` throws
   * before anything is created, so its insert callback never runs and the
   * folder stays empty.
   */
  method CreateCollectionScenario() returns (done: Completion, after: Files)
    ensures done == Uncaught(TypeError)
    ensures after == map[]
  {
    var db := new Database("newDatabase", map[]);
    done := db.Submit(Finished(Query.IsCreateCollection(Query.CreateCollection("newCollection"))));
    after := db.files;
  }

  /**
   * An update built with `update(...).in(c).values(v).where(f)` counts the
   * matching document but leaves it unchanged, because the store reads
   * `value`, not `values`.
   */
  method UpdateBuilderScenario() returns (q: Query.UpdateQuery, updated: Completion, stored: seq<Document>)
    ensures q.fieldsToUpdate == [["stringKey"]] && q.collection == Some("coll")
    ensures q.values == Object(map["stringKey" := Str("qwerty")])
    ensures updated == Callback(None, Number(1))
    ensures stored == [map["stringKey" := Str("asdf"), "intKey" := Int(12), IndexField := Int(0)]]
  {
    var doc := map["stringKey" := Str("asdf"), "intKey" := Int(12), IndexField := Int(0)];
    var db := new Database("newDatabase", map["coll" := Collection(1, [doc])]);
    var filter := map["intKey" := Int(12)];
    var b := Query.Update(["stringKey"]);
    b := b.In("coll");
    b := b.Values(Object(map["stringKey" := Str("qwerty")]));
    q := b.Where(Object(filter));
    assert KeyMatches(doc, filter, "intKey");
    assert [doc][..0] == [];
    assert Filtered([doc], Object(filter), true) == [doc];
    updated := db.Submit(Finished(Query.IsUpdate(q)));
    stored := db.files["coll"].documents;
  }

  /** A delete builder submitted before `where` has an `undefined` filter and empties the collection. */
  method DeleteBuilderScenario() returns (deleted: Completion, after: Collection)
    ensures deleted == Callback(None, Number(0))
    ensures after == Collection(1, [])
  {
    var doc := map["stringKey" := Str("asdf"), IndexField := Int(0)];
    var db := new Database("newDatabase", map["coll" := Collection(1, [doc])]);
    var d := Query.DeleteFrom("coll");
    UndefinedFilterKeepsAll([doc]);
    deleted := db.Submit(DeleteBuilder(d));
    after := db.files["coll"];
  }
}
