/**
 * A collection once its file is parsed: the record `{nextIndex, documents}`,
 * and what select, insert, update and delete do to it in memory.
 */
module Collections {
  import opened JsValues
  import opened Matcher

  /** The parsed content of one collection file. */
  datatype Collection = Collection(nextIndex: int, documents: seq<Document>)

  /** The reserved field insert stamps on every document. */
  const IndexField: string := "_index"

  /** The filter key that sends select and update down the direct-position path. */
  const PositionKey: string := "index"

  /** `createEmptyCollection`: the record a new collection file is written with. */
  function EmptyCollection(): (c: Collection)
    ensures c.nextIndex == 0 && c.documents == []
    ensures WellIndexed(c)
  {
    Collection(0, [])
  }

  predicate HasIndex(d: Document)
  {
    IndexField in d && d[IndexField].Int?
  }

  function IndexOf(d: Document): (n: int)
    requires HasIndex(d)
  {
    d[IndexField].i
  }

  /**
   * The invariant insert establishes and no operation breaks: every document
   * carries an integer `_index` below `nextIndex`, and the indices strictly
   * increase in stored order (so they are unique).
   */
  predicate WellIndexed(c: Collection)
  {
    && 0 <= c.nextIndex
    && (forall i :: 0 <= i < |c.documents| ==>
          HasIndex(c.documents[i]) && 0 <= IndexOf(c.documents[i]) < c.nextIndex)
    && (forall i, j :: 0 <= i < j < |c.documents| ==> IndexOf(c.documents[i]) < IndexOf(c.documents[j]))
  }

  /*
   * ---- Scans: select's `forEach`/`push` and delete's `documents.filter(...)` ----
   */

  /** The documents whose verdict under `filter` is `keep`, in stored order. */
  function Filtered(docs: seq<Document>, filter: ObjectArg, keep: bool): (r: seq<Document>)
    ensures |r| <= |docs|
    ensures forall i :: 0 <= i < |r| ==> FilterMatches(r[i], filter) == keep
  {
    if docs == [] then []
    else
      var rest := Filtered(docs[..|docs| - 1], filter, keep);
      var last := docs[|docs| - 1];
      if FilterMatches(last, filter) == keep then rest + [last] else rest
  }

  /** The positions, in increasing order, of the documents whose verdict is `keep`. */
  function Positions(docs: seq<Document>, filter: ObjectArg, keep: bool): (pos: seq<int>)
  {
    if docs == [] then []
    else
      Positions(docs[..|docs| - 1], filter, keep)
      + if FilterMatches(docs[|docs| - 1], filter) == keep then [|docs| - 1] else []
  }

  /** `a` is `b` read at the strictly increasing positions `pos`. */
  predicate SubsequenceAt(a: seq<Document>, b: seq<Document>, pos: seq<int>)
  {
    && |pos| == |a|
    && (forall i :: 0 <= i < |pos| ==> 0 <= pos[i] < |b| && a[i] == b[pos[i]])
    && (forall i, j :: 0 <= i < j < |pos| ==> pos[i] < pos[j])
  }

  /**
   * A scan returns exactly the documents with the wanted verdict: it is the
   * stored sequence read at strictly increasing positions, and those
   * positions are precisely the ones whose document has that verdict.
   */
  lemma {:induction false} FilteredIsExact(docs: seq<Document>, filter: ObjectArg, keep: bool)
    ensures SubsequenceAt(Filtered(docs, filter, keep), docs, Positions(docs, filter, keep))
    ensures forall p :: 0 <= p < |docs| ==>
      (p in Positions(docs, filter, keep) <==> FilterMatches(docs[p], filter) == keep)
  {
    if docs != [] {
      var init := docs[..|docs| - 1];
      FilteredIsExact(init, filter, keep);
      var r, pos := Filtered(docs, filter, keep), Positions(docs, filter, keep);
      var r0, pos0 := Filtered(init, filter, keep), Positions(init, filter, keep);
      forall p | 0 <= p < |docs|
        ensures p in pos <==> FilterMatches(docs[p], filter) == keep
      {
        if p < |docs| - 1 {
          assert docs[p] == init[p];
        }
      }
      assert forall i :: 0 <= i < |pos0| ==> pos0[i] < |init|;
    }
  }

  /**
   * The kept and the dropped documents partition the collection: their counts
   * add up and together they hold every document exactly as often as before.
   */
  lemma {:induction false} FilteredPartition(docs: seq<Document>, filter: ObjectArg)
    ensures |Filtered(docs, filter, true)| + |Filtered(docs, filter, false)| == |docs|
    ensures multiset(Filtered(docs, filter, true)) + multiset(Filtered(docs, filter, false)) == multiset(docs)
  {
    if docs != [] {
      var init, last := docs[..|docs| - 1], docs[|docs| - 1];
      FilteredPartition(init, filter);
      assert docs == init + [last];
      assert multiset(docs) == multiset(init) + multiset{last};
      var kept, dropped := Filtered(init, filter, true), Filtered(init, filter, false);
      if FilterMatches(last, filter) {
        assert Filtered(docs, filter, true) == kept + [last];
        assert Filtered(docs, filter, false) == dropped;
        assert multiset(kept + [last]) == multiset(kept) + multiset{last};
      } else {
        assert Filtered(docs, filter, true) == kept;
        assert Filtered(docs, filter, false) == dropped + [last];
        assert multiset(dropped + [last]) == multiset(dropped) + multiset{last};
      }
    }
  }

  /** When no document has the wanted verdict, the scan yields nothing. */
  lemma {:induction false} NothingToKeep(docs: seq<Document>, filter: ObjectArg, keep: bool)
    requires forall i :: 0 <= i < |docs| ==> FilterMatches(docs[i], filter) != keep
    ensures Filtered(docs, filter, keep) == []
  {
    if docs != [] {
      NothingToKeep(docs[..|docs| - 1], filter, keep);
    }
  }

  /** An `undefined` filter keeps every document and drops none. */
  lemma {:induction false} UndefinedFilterKeepsAll(docs: seq<Document>)
    ensures Filtered(docs, Undefined, true) == docs
    ensures Filtered(docs, Undefined, false) == []
  {
    if docs != [] {
      UndefinedFilterKeepsAll(docs[..|docs| - 1]);
      assert docs == docs[..|docs| - 1] + [docs[|docs| - 1]];
    }
  }

  /** Keeping a subsequence keeps the indices increasing, below the unchanged counter. */
  lemma FilteredKeepsWellIndexed(c: Collection, filter: ObjectArg, keep: bool)
    requires WellIndexed(c)
    ensures WellIndexed(Collection(c.nextIndex, Filtered(c.documents, filter, keep)))
  {
    FilteredIsExact(c.documents, filter, keep);
    var r, pos := Filtered(c.documents, filter, keep), Positions(c.documents, filter, keep);
    forall i, j | 0 <= i < j < |r| ensures IndexOf(r[i]) < IndexOf(r[j]) {
      assert r[i] == c.documents[pos[i]] && r[j] == c.documents[pos[j]];
    }
  }

  /*
   * ---- Select ----
   */

  /**
   * What select returns for a defined filter. A truthy `index` entry reads
   * the document at that array position (not an `_index` value) and checks
   * no other filter key; otherwise every document is run through the matcher.
   */
  function Selected(docs: seq<Document>, filter: map<string, Value>): (r: seq<Document>)
    ensures |r| <= |docs|
    ensures PositionKey in filter && Truthy(filter[PositionKey]) ==>
      && |r| <= 1
      && forall i :: 0 <= i < |r| ==>
        var p := ArrayPosition(filter[PositionKey]);
        p.Some? && p.value < |docs| && r[i] == docs[p.value]
    ensures !(PositionKey in filter && Truthy(filter[PositionKey])) ==>
      && SubsequenceAt(r, docs, Positions(docs, Object(filter), true))
      && forall p :: 0 <= p < |docs| ==> (p in Positions(docs, Object(filter), true) <==> Matches(docs[p], filter))
  {
    if PositionKey in filter && Truthy(filter[PositionKey]) then
      match ArrayPosition(filter[PositionKey])
      case Some(p) => if p < |docs| then [docs[p]] else []
      case None => []
    else
      FilteredIsExact(docs, Object(filter), true);
      Filtered(docs, Object(filter), true)
  }

  /**
   * The direct-position path accepts the document at that position whatever
   * the remaining filter keys say, and yields nothing past the end.
   */
  lemma PositionPathIgnoresOtherKeys(docs: seq<Document>, filter: map<string, Value>, p: nat)
    requires PositionKey in filter && Truthy(filter[PositionKey])
    requires ArrayPosition(filter[PositionKey]) == Some(p)
    ensures p < |docs| ==> Selected(docs, filter) == [docs[p]]
    ensures p >= |docs| ==> Selected(docs, filter) == []
  {
  }

  /**
   * `{index: 1, stringKey: "zzz"}` returns the document at position 1 even
   * though its `stringKey` differs, so the document does not match the filter.
   */
  lemma PositionPathExample()
    ensures
      var d0 := map["stringKey" := Str("asdf"), IndexField := Int(0)];
      var d1 := map["stringKey" := Str("qwerty"), IndexField := Int(1)];
      var filter := map[PositionKey := Int(1), "stringKey" := Str("zzz")];
      Selected([d0, d1], filter) == [d1] && !Matches(d1, filter)
  {
    var d1 := map["stringKey" := Str("qwerty"), IndexField := Int(1)];
    var filter := map[PositionKey := Int(1), "stringKey" := Str("zzz")];
    assert !KeyMatches(d1, filter, "stringKey");
  }

  /**
   * `{index: 0}` is falsy, so it goes down the scan, where a falsy expected
   * value can never match: it selects nothing, not the first document.
   */
  lemma PositionZeroSelectsNothing(docs: seq<Document>)
    ensures Selected(docs, map[PositionKey := Int(0)]) == []
  {
    var filter := map[PositionKey := Int(0)];
    forall d: Document ensures !FilterMatches(d, Object(filter)) {
      assert !KeyMatches(d, filter, PositionKey);
    }
    NothingToKeep(docs, Object(filter), true);
  }

  /** Select `{intKey: 12}` over two documents returns exactly the first. */
  lemma SelectByValueExample()
    ensures
      var a := map["stringKey" := Str("asdf"), "intKey" := Int(12), IndexField := Int(0)];
      var b := map["stringKey" := Str("qwerty"), "intKey" := Int(7), IndexField := Int(1)];
      Selected([a, b], map["intKey" := Int(12)]) == [a]
  {
    var a := map["stringKey" := Str("asdf"), "intKey" := Int(12), IndexField := Int(0)];
    var b := map["stringKey" := Str("qwerty"), "intKey" := Int(7), IndexField := Int(1)];
    var filter := map["intKey" := Int(12)];
    assert [a, b][..1] == [a];
    assert [a][..0] == [];
    assert KeyMatches(a, filter, "intKey");
    assert Matches(a, filter);
    assert !KeyMatches(b, filter, "intKey");
    assert !Matches(b, filter);
    assert Filtered([a], Object(filter), true) == [a];
  }

  /*
   * ---- Insert ----
   */

  /**
   * Insert's in-memory step: stamp `_index` with the counter, bump the
   * counter by one, and push the document last.
   */
  function Inserted(c: Collection, obj: Document): (r: Collection)
    ensures r.nextIndex == c.nextIndex + 1
    ensures |r.documents| == |c.documents| + 1 && r.documents[..|c.documents|] == c.documents
    ensures var d := r.documents[|c.documents|];
      && d.Keys == obj.Keys + {IndexField}
      && d[IndexField] == Int(c.nextIndex)
      && forall k :: k in obj && k != IndexField ==> d[k] == obj[k]
  {
    Collection(c.nextIndex + 1, c.documents + [obj[IndexField := Int(c.nextIndex)]])
  }

  /**
   * Insert keeps the invariant, and the index it hands out is larger than
   * every index already present.
   */
  lemma InsertKeepsWellIndexed(c: Collection, obj: Document)
    requires WellIndexed(c)
    ensures WellIndexed(Inserted(c, obj))
    ensures forall i :: 0 <= i < |c.documents| ==> IndexOf(c.documents[i]) < c.nextIndex
  {
    var r := Inserted(c, obj);
    var n := |c.documents|;
    assert forall i :: 0 <= i < n ==> r.documents[i] == c.documents[i];
    assert HasIndex(r.documents[n]) && IndexOf(r.documents[n]) == c.nextIndex;
  }

  /**
   * Deleting never lowers the counter, so a later insert never hands out the
   * index of any document the collection held, deleted ones included.
   */
  lemma IndicesNeverReused(c: Collection, filter: ObjectArg, obj: Document)
    requires WellIndexed(c)
    ensures var after := Inserted(Collection(c.nextIndex, Filtered(c.documents, filter, false)), obj);
      var stamped := after.documents[|after.documents| - 1];
      HasIndex(stamped) &&
      forall i :: 0 <= i < |c.documents| ==> IndexOf(c.documents[i]) < IndexOf(stamped)
  {
  }

  /*
   * ---- Update ----
   */

  /**
   * `for (key in values) document[key] = values[key]`: every key of the value
   * map is assigned, every other field is kept; `undefined` assigns nothing.
   */
  function Merged(doc: Document, values: ObjectArg): (r: Document)
    ensures values.Undefined? ==> r == doc
    ensures values.Object? ==>
      && r.Keys == doc.Keys + values.entries.Keys
      && (forall k :: k in values.entries ==> r[k] == values.entries[k])
      && (forall k :: k in doc && k !in values.entries ==> r[k] == doc[k])
  {
    match values
    case Undefined => doc
    case Object(m) => doc + m
  }

  /** Update's scan: each matching document merged with `values`, the others as they were. */
  function UpdatedDocuments(docs: seq<Document>, filter: ObjectArg, values: ObjectArg): (r: seq<Document>)
    ensures |r| == |docs|
    ensures forall i :: 0 <= i < |docs| && !FilterMatches(docs[i], filter) ==> r[i] == docs[i]
    ensures forall i :: 0 <= i < |docs| && FilterMatches(docs[i], filter) ==> r[i] == Merged(docs[i], values)
  {
    seq(|docs|, i requires 0 <= i < |docs| =>
      if FilterMatches(docs[i], filter) then Merged(docs[i], values) else docs[i])
  }

  /**
   * The value map update actually reads is `updateQuery.value`, which no
   * query defines; merging `undefined` copies nothing, so the scan leaves
   * every document as it was.
   */
  lemma UpdateWithUndefinedChangesNothing(docs: seq<Document>, filter: ObjectArg)
    ensures UpdatedDocuments(docs, filter, Undefined) == docs
  {
  }

  /**
   * An update whose new values do not mention `_index` keeps the invariant;
   * nothing in the store stops a value map that does from overwriting it.
   */
  lemma UpdateKeepsWellIndexed(c: Collection, filter: ObjectArg, values: ObjectArg)
    requires WellIndexed(c)
    requires values.Object? ==> IndexField !in values.entries
    ensures WellIndexed(Collection(c.nextIndex, UpdatedDocuments(c.documents, filter, values)))
  {
    var r := UpdatedDocuments(c.documents, filter, values);
    assert forall i :: 0 <= i < |r| ==> IndexField in r[i] && r[i][IndexField] == c.documents[i][IndexField];
  }

  /**
   * Repeating an update is a no-op: a document the first pass left alone did
   * not match and still does not, and one it merged already holds the values.
   */
  lemma UpdateIdempotent(docs: seq<Document>, filter: ObjectArg, values: ObjectArg)
    ensures var once := UpdatedDocuments(docs, filter, values);
      UpdatedDocuments(once, filter, values) == once
  {
    var once := UpdatedDocuments(docs, filter, values);
    var twice := UpdatedDocuments(once, filter, values);
    forall i | 0 <= i < |docs| ensures twice[i] == once[i] {
      if FilterMatches(docs[i], filter) && values.Object? {
        assert docs[i] + values.entries + values.entries == docs[i] + values.entries;
      }
    }
  }

  /**
   * When the new values touch none of the filter's keys, updated documents
   * still match and the others still do not, so a repeated update affects
   * the same documents.
   */
  lemma UpdateKeepsMatches(docs: seq<Document>, filter: map<string, Value>, values: map<string, Value>)
    requires values.Keys !! filter.Keys
    ensures var once := UpdatedDocuments(docs, Object(filter), Object(values));
      Positions(once, Object(filter), true) == Positions(docs, Object(filter), true)
  {
    var f, v := Object(filter), Object(values);
    var once := UpdatedDocuments(docs, f, v);
    forall i | 0 <= i < |docs| ensures FilterMatches(once[i], f) == FilterMatches(docs[i], f) {
      if FilterMatches(docs[i], f) {
        ExtraFieldsIrrelevant(docs[i], values, filter);
      }
    }
    PositionsAgree(docs, once, f);
  }

  lemma {:induction false} PositionsAgree(a: seq<Document>, b: seq<Document>, filter: ObjectArg)
    requires |a| == |b|
    requires forall i :: 0 <= i < |a| ==> FilterMatches(a[i], filter) == FilterMatches(b[i], filter)
    ensures Positions(a, filter, true) == Positions(b, filter, true)
  {
    if a != [] {
      PositionsAgree(a[..|a| - 1], b[..|b| - 1], filter);
    }
  }
}
