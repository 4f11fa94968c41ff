/**
 * The query model: five immutable query values, the three mutable builders
 * whose `where` (or `build`) yields them, the factory functions that start a
 * query, and the exception the store reports.
 */
module Query {
  import opened JsValues

  const ExceptionPrefix: string := "Query Exception: "

  /** `QueryException`: carries only its message. */
  datatype QueryException = QueryException(message: string)

  /** `new QueryException(text)`: the message is the text behind a fixed prefix. */
  function NewQueryException(text: string): (e: QueryException)
    ensures |e.message| == |ExceptionPrefix| + |text|
    ensures e.message[..|ExceptionPrefix|] == ExceptionPrefix
    ensures e.message[|ExceptionPrefix|..] == text
  {
    QueryException(ExceptionPrefix + text)
  }

  /*
   * The query classes. Each exposes only getters returning its constructor
   * arguments, so each is a datatype whose destructors are those getters.
   */
  datatype CreateCollectionQuery = CreateCollectionQuery(collectionName: string)

  /** `obj` is the `object` getter (`object` is a reserved word here). */
  datatype InsertQuery = InsertQuery(collection: string, obj: Value)

  datatype SelectQuery = SelectQuery(collection: string, filter: ObjectArg)

  /** `collection` is `undefined` (None) when the builder's `in` was never called. */
  datatype UpdateQuery = UpdateQuery(
    fieldsToUpdate: seq<seq<string>>,
    collection: Option<string>,
    values: ObjectArg,
    filter: ObjectArg)

  datatype DeleteQuery = DeleteQuery(collection: string, filter: ObjectArg)

  /** A value of one of the five query classes; the discriminators are the `instanceof` tests. */
  datatype AnyQuery =
    | IsCreateCollection(create: CreateCollectionQuery)
    | IsInsert(insert: InsertQuery)
    | IsSelect(select: SelectQuery)
    | IsUpdate(update: UpdateQuery)
    | IsDelete(delete: DeleteQuery)

  class SelectQueryBuilder {
    const collection: string
    var filter: ObjectArg

    /** Until `where` is called the filter is `undefined`. */
    constructor (collection: string)
      ensures this.collection == collection && filter == Undefined
      ensures Build() == SelectQuery(collection, Undefined)
    {
      this.collection := collection;
      filter := Undefined;
    }

    /** `build()`: a query from the builder's current fields; changes nothing. */
    function Build(): (q: SelectQuery)
      reads this
      ensures q.collection == collection && q.filter == filter
    {
      SelectQuery(collection, filter)
    }

    /** `where(f)` records the filter and returns the finished query. */
    method Where(filter: ObjectArg) returns (q: SelectQuery)
      modifies this
      ensures this.filter == filter
      ensures q.collection == collection && q.filter == filter
      ensures Build() == q
    {
      this.filter := filter;
      q := SelectQuery(collection, this.filter);
    }
  }

  class UpdateQueryBuilder {
    const fieldsToUpdate: seq<seq<string>>
    var collection: Option<string>
    var values: ObjectArg
    var filter: ObjectArg

    /**
     * `constructor(...fieldsToUpdate)`: a rest parameter, so `arguments` is
     * the list of the arguments passed, each of them stored as one entry.
     */
    constructor (arguments: seq<seq<string>>)
      ensures fieldsToUpdate == arguments
      ensures collection == None && values == Undefined && filter == Undefined
    {
      fieldsToUpdate := arguments;
      collection := None;
      values := Undefined;
      filter := Undefined;
    }

    /** `build()`: the query from the four current fields; changes nothing. */
    function Build(): (q: UpdateQuery)
      reads this
      ensures q.fieldsToUpdate == fieldsToUpdate && q.collection == collection
      ensures q.values == values && q.filter == filter
    {
      UpdateQuery(fieldsToUpdate, collection, values, filter)
    }

    /** `in(c)`: sets the collection only, and returns the same builder for chaining. */
    method In(collection: string) returns (self: UpdateQueryBuilder)
      modifies this
      ensures self == this
      ensures this.collection == Some(collection)
      ensures values == old(values) && filter == old(filter)
    {
      this.collection := Some(collection);
      self := this;
    }

    /** `values(v)`: sets the new field values only, and returns the same builder. */
    method Values(values: ObjectArg) returns (self: UpdateQueryBuilder)
      modifies this
      ensures self == this
      ensures this.values == values
      ensures collection == old(collection) && filter == old(filter)
    {
      this.values := values;
      self := this;
    }

    /** `where(f)` records the filter and returns the query built from all four fields. */
    method Where(filter: ObjectArg) returns (q: UpdateQuery)
      modifies this
      ensures this.filter == filter
      ensures collection == old(collection) && values == old(values)
      ensures q == UpdateQuery(fieldsToUpdate, old(collection), old(values), filter)
      ensures Build() == q
    {
      this.filter := filter;
      q := UpdateQuery(fieldsToUpdate, collection, values, this.filter);
    }
  }

  class DeleteQueryBuilder {
    const collection: string
    var filter: ObjectArg

    constructor (collection: string)
      ensures this.collection == collection && filter == Undefined
      ensures Build() == DeleteQuery(collection, Undefined)
    {
      this.collection := collection;
      filter := Undefined;
    }

    /** `build()`: the query from the current fields, so `undefined` as filter before `where`. */
    function Build(): (q: DeleteQuery)
      reads this
      ensures q.collection == collection && q.filter == filter
    {
      DeleteQuery(collection, filter)
    }

    method Where(filter: ObjectArg) returns (q: DeleteQuery)
      modifies this
      ensures this.filter == filter
      ensures q.collection == collection && q.filter == filter
      ensures Build() == q
    {
      this.filter := filter;
      q := DeleteQuery(collection, this.filter);
    }
  }

  /** `selectFrom(c)`: a fresh builder for collection `c`, filter not yet given. */
  method SelectFrom(collection: string) returns (b: SelectQueryBuilder)
    ensures fresh(b)
    ensures b.Build() == SelectQuery(collection, Undefined)
  {
    b := new SelectQueryBuilder(collection);
  }

  /** `insertInto(c, o)`: built directly, no builder; the getters give back `c` and `o`. */
  function InsertInto(collection: string, obj: Value): (q: InsertQuery)
    ensures q.collection == collection && q.obj == obj
  {
    InsertQuery(collection, obj)
  }

  /**
   * `update(...fields)`: the field list arrives as ONE argument of the
   * builder's rest-parameter constructor, so it is stored wrapped: `[fields]`.
   */
  method Update(fields: seq<string>) returns (b: UpdateQueryBuilder)
    ensures fresh(b)
    ensures b.fieldsToUpdate == [fields]
    ensures b.Build() == UpdateQuery([fields], None, Undefined, Undefined)
  {
    b := new UpdateQueryBuilder([fields]);
  }

  /** `deleteAllFrom(c)`: a delete query whose filter is `undefined`. */
  function DeleteAllFrom(collection: string): (q: DeleteQuery)
    ensures q.collection == collection && q.filter == Undefined
  {
    DeleteQuery(collection, Undefined)
  }

  method DeleteFrom(collection: string) returns (b: DeleteQueryBuilder)
    ensures fresh(b)
    ensures b.Build() == DeleteQuery(collection, Undefined)
  {
    b := new DeleteQueryBuilder(collection);
  }

  /** `createCollection(name)`: built directly; the getter gives back `name`. */
  function CreateCollection(name: string): (q: CreateCollectionQuery)
    ensures q.collectionName == name
  {
    CreateCollectionQuery(name)
  }
}
