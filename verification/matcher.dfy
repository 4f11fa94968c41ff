/**
 * The filter matcher, `filterDocument`: a document matches a filter when
 * every key of the filter passes. A key passes when the document's value at
 * that key is truthy and either both values are plain objects that match
 * recursively, or the two values are strictly equal (`===`).
 */
module Matcher {
  import opened JsValues

  /** The test one filter entry applies to the document's value under the same key. */
  predicate ValueMatches(dv: Value, fv: Value)
    decreases fv, 2
  {
    Truthy(dv) &&
    if dv.Obj? && fv.Obj? then Matches(dv.fields, fv.fields) else dv == fv
  }

  /** Key `k` of the filter passes: the document has it and its value passes. */
  predicate KeyMatches(doc: map<string, Value>, filter: map<string, Value>, k: string)
    requires k in filter
    decreases Obj(filter), 0
  {
    k in doc && ValueMatches(doc[k], filter[k])
  }

  /** Every key of the filter passes. */
  predicate Matches(doc: map<string, Value>, filter: map<string, Value>)
    decreases Obj(filter), 1
  {
    forall k :: k in filter ==> KeyMatches(doc, filter, k)
  }

  /** The top-level call: an `undefined` filter has no keys, so it matches everything. */
  predicate FilterMatches(doc: map<string, Value>, filter: ObjectArg)
  {
    filter.Undefined? || Matches(doc, filter.entries)
  }

  /** The size measure that recursion on nested filters decreases. */
  function FilterRank(filter: ObjectArg): (rank: Value)
  {
    match filter
    case Undefined => Obj(map[])
    case Object(m) => Obj(m)
  }

  /**
   * `filterDocument(document, filter)`: a `for...in` over the filter keys that
   * keeps a running `result`, returns false at the top of the next iteration
   * once a key has failed, and recurses into nested objects. The keys are
   * taken in an arbitrary order, so the postcondition holds for every
   * enumeration order.
   */
  method FilterDocument(document: map<string, Value>, filter: ObjectArg) returns (result: bool)
    ensures result == FilterMatches(document, filter)
    decreases FilterRank(filter)
  {
    result := true;
    var pending: set<string> := if filter.Object? then filter.entries.Keys else {};
    while pending != {}
      invariant pending != {} ==> filter.Object?
      invariant filter.Undefined? ==> result
      invariant filter.Object? ==> pending <= filter.entries.Keys
      invariant filter.Object? ==>
        result == forall k :: k in filter.entries.Keys - pending ==> KeyMatches(document, filter.entries, k)
      decreases pending
    {
      var key :| key in pending;
      if !result {
        assert !Matches(document, filter.entries);
        return false;
      }
      var entries := filter.entries;
      if key in document && Truthy(document[key]) {
        if document[key].Obj? && entries[key].Obj? {
          assert entries[key] == Obj(entries[key].fields);
          result := FilterDocument(document[key].fields, Object(entries[key].fields));
        } else {
          result := document[key] == entries[key];
        }
      } else {
        result := false;
      }
      assert result == KeyMatches(document, entries, key);
      assert entries.Keys - (pending - {key}) == (entries.Keys - pending) + {key};
      pending := pending - {key};
    }
    assert filter.Object? ==> filter.entries.Keys - pending == filter.entries.Keys;
  }

  /**
   * A key whose document value is missing or falsy never passes, even when
   * the filter asks for exactly that value: `{n: 0}` does not match `{n: 0}`.
   */
  lemma FalsyNeverMatches(doc: map<string, Value>, filter: map<string, Value>, k: string)
    requires k in filter
    requires k !in doc || !Truthy(doc[k])
    ensures !Matches(doc, filter)
  {
    assert !KeyMatches(doc, filter, k);
  }

  /**
   * Matching is the conjunction over the filter's keys: splitting a filter
   * into two key-disjoint parts splits the verdict, and the empty filter
   * matches every document.
   */
  lemma MatchesIsConjunction(doc: map<string, Value>, f1: map<string, Value>, f2: map<string, Value>)
    requires f1.Keys !! f2.Keys
    ensures Matches(doc, f1 + f2) == (Matches(doc, f1) && Matches(doc, f2))
    ensures Matches(doc, map[])
  {
    var f := f1 + f2;
    if Matches(doc, f) {
      forall k | k in f1 ensures KeyMatches(doc, f1, k) {
        assert KeyMatches(doc, f, k);
      }
      forall k | k in f2 ensures KeyMatches(doc, f2, k) {
        assert KeyMatches(doc, f, k);
      }
    }
    if Matches(doc, f1) && Matches(doc, f2) {
      forall k | k in f ensures KeyMatches(doc, f, k) {
        if k in f2 {
          assert KeyMatches(doc, f2, k);
        } else {
          assert KeyMatches(doc, f1, k);
        }
      }
    }
  }

  /** Fields of the document that the filter does not mention never affect the verdict. */
  lemma ExtraFieldsIrrelevant(doc: map<string, Value>, extra: map<string, Value>, filter: map<string, Value>)
    requires extra.Keys !! filter.Keys
    ensures Matches(doc + extra, filter) == Matches(doc, filter)
  {
    forall k | k in filter ensures KeyMatches(doc + extra, filter, k) == KeyMatches(doc, filter, k) {
      assert k !in extra;
    }
  }

  /** Every value, at every depth, is truthy. */
  predicate DeepTruthy(v: Value)
  {
    Truthy(v) && (v.Obj? ==> forall k :: k in v.fields ==> DeepTruthy(v.fields[k]))
  }

  lemma {:induction false} ValueSelfMatch(v: Value)
    ensures ValueMatches(v, v) == DeepTruthy(v)
    decreases v
  {
    if v.Obj? {
      forall k | k in v.fields ensures KeyMatches(v.fields, v.fields, k) == DeepTruthy(v.fields[k]) {
        ValueSelfMatch(v.fields[k]);
      }
    }
  }

  /**
   * A document used as its own filter matches itself exactly when none of
   * its values, at any depth, is "", 0 or false.
   */
  lemma SelfMatch(doc: map<string, Value>)
    ensures Matches(doc, doc) == DeepTruthy(Obj(doc))
  {
    ValueSelfMatch(Obj(doc));
  }

  /** A nested filter matches a nested field by value, and rejects a differing one. */
  lemma NestedFilterExample()
    ensures
      var filter := map["fieldB" := Obj(map["fieldBB" := Bool(true)])];
      var hit := map["fieldA" := Str("x"), "fieldB" := Obj(map["fieldBA" := Int(1), "fieldBB" := Bool(true)])];
      var miss := map["fieldA" := Str("x"), "fieldB" := Obj(map["fieldBA" := Int(1), "fieldBB" := Bool(false)])];
      Matches(hit, filter) && !Matches(miss, filter)
  {
    var inner := map["fieldBB" := Bool(true)];
    var filter := map["fieldB" := Obj(inner)];
    var hitB := map["fieldBA" := Int(1), "fieldBB" := Bool(true)];
    var missB := map["fieldBA" := Int(1), "fieldBB" := Bool(false)];
    var hit := map["fieldA" := Str("x"), "fieldB" := Obj(hitB)];
    var miss := map["fieldA" := Str("x"), "fieldB" := Obj(missB)];
    assert KeyMatches(hitB, inner, "fieldBB");
    assert Matches(hitB, inner);
    assert KeyMatches(hit, filter, "fieldB");
    assert !KeyMatches(missB, inner, "fieldBB");
    assert !KeyMatches(miss, filter, "fieldB");
  }
}
