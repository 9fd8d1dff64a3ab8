/** The document store as the controllers use it: each collection is a sequence of documents
    in insertion order, and every operation the handlers call (`InsertOne`, `FindOne`,
    `CountDocuments`, `Find`, `UpdateOne` with upsert, and the `$slice` of the food listing)
    is a pure function over it. */
module Documents {
  import opened Wrappers
  import opened ObjectIds
  import opened Clock

  /** A BSON value as the handlers write it. Prices are `float64` and are only ever copied,
      so a float is kept as its IEEE-754 bit pattern. */
  datatype Value =
    | Null
    | Str(s: string)
    | Int(i: int)
    | Float(bits: bv64)
    | Time(at: Instant)
    | Id(oid: ObjectId)

  type Doc = map<string, Value>

  /** A collection in store order. */
  type Collection = seq<Doc>

  /** The value of a field as a filter sees it: a missing field reads as null. */
  function Get(d: Doc, key: string): Value
  {
    if key in d then d[key] else Null
  }

  /** The equality filter `{key: v}`. A null `v` also matches documents lacking `key`. */
  predicate Matches(d: Doc, key: string, v: Value)
  {
    Get(d, key) == v
  }

  predicate Exists(c: Collection, key: string, v: Value)
  {
    exists j :: 0 <= j < |c| && Matches(c[j], key, v)
  }

  ghost predicate FirstMatch(c: Collection, key: string, v: Value, i: int)
  {
    0 <= i < |c| && Matches(c[i], key, v) && forall j :: 0 <= j < i ==> !Matches(c[j], key, v)
  }

  function OptStr(o: Option<string>): Value
  {
    match o
    case Some(s) => Str(s)
    case None => Null
  }

  function OptInt(o: Option<int>): Value
  {
    match o
    case Some(n) => Int(n)
    case None => Null
  }

  function OptFloat(o: Option<bv64>): Value
  {
    match o
    case Some(b) => Float(b)
    case None => Null
  }

  /** The value the driver stores for a `time.Time`: a BSON DateTime, which keeps whole
      milliseconds and drops the rest of the instant. */
  function DateTime(t: Instant): (v: Value)
    ensures v.Time? && v.at % Millisecond == 0 && v.at <= t < v.at + Millisecond
  {
    Time(Millis(t))
  }

  function OptTime(o: Option<Instant>): Value
  {
    match o
    case Some(t) => DateTime(t)
    case None => Null
  }

  /** The position of the document `FindOne` and `UpdateOne` act on. */
  function FindFirst(c: Collection, key: string, v: Value): (r: Option<nat>)
    ensures r.Some? ==> FirstMatch(c, key, v, r.value)
    ensures r.None? <==> !Exists(c, key, v)
  {
    if |c| == 0 then None
    else if Matches(c[0], key, v) then Some(0)
    else match FindFirst(c[1..], key, v)
      case None => None
      case Some(i) => assert c[1..][i] == c[i + 1]; Some(i + 1)
  }

  lemma FirstMatchUnique(c: Collection, key: string, v: Value, i: int, i': int)
    requires FirstMatch(c, key, v, i) && FirstMatch(c, key, v, i')
    ensures i == i'
  {
  }

  /** `FindOne(filter).Decode(..)`: the first matching document, or the "no documents" error. */
  function FindOne(c: Collection, key: string, v: Value): (r: Option<Doc>)
    ensures r.Some? <==> Exists(c, key, v)
    ensures r.Some? ==> r.value in c && Matches(r.value, key, v)
  {
    match FindFirst(c, key, v)
    case Some(i) => Some(c[i])
    case None => None
  }

  /** `CountDocuments(filter)`. */
  function Count(c: Collection, key: string, v: Value): (n: nat)
    ensures n <= |c|
    ensures n > 0 <==> Exists(c, key, v)
  {
    if |c| == 0 then 0
    else
      var init := c[..|c| - 1];
      assert forall j :: 0 <= j < |init| ==> init[j] == c[j];
      Count(init, key, v) + (if Matches(c[|c| - 1], key, v) then 1 else 0)
  }

  /** `Find(filter)` read to the end: the matching documents in store order. */
  function Filter(c: Collection, key: string, v: Value): (r: Collection)
    ensures |r| <= |c|
  {
    if |c| == 0 then []
    else Filter(c[..|c| - 1], key, v) + (if Matches(c[|c| - 1], key, v) then [c[|c| - 1]] else [])
  }

  /** Every document `Find` returns matches, and every matching document is returned. */
  lemma {:induction false} FilterExactly(c: Collection, key: string, v: Value)
    ensures forall d :: d in Filter(c, key, v) ==> d in c && Matches(d, key, v)
    ensures forall j :: 0 <= j < |c| && Matches(c[j], key, v) ==> c[j] in Filter(c, key, v)
  {
    if |c| > 0 {
      var init := c[..|c| - 1];
      FilterExactly(init, key, v);
      forall j | 0 <= j < |c| && Matches(c[j], key, v)
        ensures c[j] in Filter(c, key, v)
      {
        if j < |c| - 1 {
          assert c[j] == init[j];
        }
      }
    }
  }

  /** A document added at the end is listed last exactly when it matches: `Filter`'s own
      last-element step, stated for `c + [d]` so that the inserts can use it. */
  lemma FilterAppend(c: Collection, d: Doc, key: string, v: Value)
    ensures Filter(c + [d], key, v) == Filter(c, key, v) + (if Matches(d, key, v) then [d] else [])
  {
    assert (c + [d])[..|c|] == c;
  }

  /** The cursor loop of a `Find` handler: the documents matching `{key: v}`, in store order. */
  method FindAll(c: Collection, key: string, v: Value) returns (r: Collection)
    ensures r == Filter(c, key, v)
  {
    r := [];
    var i := 0;
    while i < |c|
      invariant 0 <= i <= |c|
      invariant r == Filter(c[..i], key, v)
    {
      assert c[..i + 1][..i] == c[..i];
      if Matches(c[i], key, v) {
        r := r + [c[i]];
      }
      i := i + 1;
    }
    assert c[..|c|] == c;
  }

  /** The aggregation operator `$slice: [array, start, n]` for `start >= 0` and `n > 0`. */
  function Slice(c: Collection, start: nat, n: nat): (w: Collection)
    ensures |w| == if start >= |c| then 0 else if n < |c| - start then n else |c| - start
    ensures forall i :: 0 <= i < |w| ==> w[i] == c[start + i]
  {
    if start >= |c| then []
    else if n < |c| - start then c[start..start + n]
    else c[start..]
  }

  /** `$set` staging: the payload field `key` is staged exactly when the payload supplied it. */
  function Stage(staged: Doc, key: string, v: Option<Value>): (r: Doc)
  {
    match v
    case Some(x) => staged[key := x]
    case None => staged
  }

  /** The document an upsert inserts when its filter matches nothing, before the `$set`
      fields are applied: the filter's equality field and a server-assigned `_id`. */
  function UpsertSeed(key: string, id: string, newId: ObjectId): Doc
  {
    map["_id" := Id(newId), key := Str(id)]
  }

  /** What `UpdateOne({key: id}, {$set: staged}, upsert)` promises: the first document whose
      `key` is `id` gains or overwrites exactly the keys of `staged` and every other document is
      untouched; if there is no such document, one holding `key`, a fresh `_id` and `staged`
      is appended. */
  ghost predicate Upserted(before: Collection, after: Collection, key: string, id: string, staged: Doc, newId: ObjectId)
  {
    if Exists(before, key, Str(id)) then
      && |after| == |before|
      && forall i :: FirstMatch(before, key, Str(id), i) ==>
           && after[i].Keys == before[i].Keys + staged.Keys
           && (forall k :: k in staged ==> after[i][k] == staged[k])
           && (forall k :: k in before[i] && k !in staged ==> after[i][k] == before[i][k])
           && (forall j :: 0 <= j < |before| && j != i ==> after[j] == before[j])
    else
      after == before + [UpsertSeed(key, id, newId) + staged]
  }

  /** `UpdateOne` with `$set` and `upsert: true`, keyed by a domain id. */
  function UpdateOneUpsert(c: Collection, key: string, id: string, staged: Doc, newId: ObjectId): (r: Collection)
    ensures Upserted(c, r, key, id, staged, newId)
  {
    match FindFirst(c, key, Str(id))
    case Some(i) =>
      var r := c[i := c[i] + staged];
      assert forall i' :: FirstMatch(c, key, Str(id), i') ==> i' == i;
      r
    case None => c + [UpsertSeed(key, id, newId) + staged]
  }

  /** After an update keyed by `id` (which does not rewrite `key` itself), looking the
      document up by `id` finds every staged field. */
  lemma UpsertedThenFound(before: Collection, after: Collection, key: string, id: string, staged: Doc, newId: ObjectId)
    requires Upserted(before, after, key, id, staged, newId)
    requires key !in staged
    ensures FindOne(after, key, Str(id)).Some?
    ensures forall k :: k in staged ==> Get(FindOne(after, key, Str(id)).value, k) == staged[k]
  {
    if Exists(before, key, Str(id)) {
      var i := FindFirst(before, key, Str(id)).value;
      assert FirstMatch(after, key, Str(id), i) by {
        assert Get(after[i], key) == Get(before[i], key);
        forall j | 0 <= j < i ensures !Matches(after[j], key, Str(id)) {
          assert after[j] == before[j];
        }
      }
      FirstMatchUnique(after, key, Str(id), i, FindFirst(after, key, Str(id)).value);
    } else {
      var n := |before|;
      assert Matches(after[n], key, Str(id));
      assert FirstMatch(after, key, Str(id), n) by {
        forall j | 0 <= j < n ensures !Matches(after[j], key, Str(id)) {
          assert after[j] == before[j];
        }
      }
      FirstMatchUnique(after, key, Str(id), n, FindFirst(after, key, Str(id)).value);
    }
  }

  /** Repeating the same update changes nothing more. */
  lemma UpsertIdempotent(c: Collection, key: string, id: string, staged: Doc, newId: ObjectId, newId': ObjectId)
    requires key !in staged
    ensures UpdateOneUpsert(UpdateOneUpsert(c, key, id, staged, newId), key, id, staged, newId')
         == UpdateOneUpsert(c, key, id, staged, newId)
  {
    var once := UpdateOneUpsert(c, key, id, staged, newId);
    UpsertedThenFound(c, once, key, id, staged, newId);
    var i := FindFirst(once, key, Str(id)).value;
    assert once[i] + staged == once[i];
    assert once[i := once[i] + staged] == once;
  }

  /** An update that does not stage `k` keeps every document reachable by `{k: v}`. */
  lemma UpsertKeepsExists(before: Collection, after: Collection, key: string, id: string, staged: Doc, newId: ObjectId, k: string, v: Value)
    requires Upserted(before, after, key, id, staged, newId)
    requires Exists(before, k, v)
    requires k !in staged
    ensures Exists(after, k, v)
  {
    var j :| 0 <= j < |before| && Matches(before[j], k, v);
    if Exists(before, key, Str(id)) {
      var i := FindFirst(before, key, Str(id)).value;
      assert Get(after[j], k) == Get(before[j], k);
      assert Matches(after[j], k, v);
    } else {
      assert after[j] == before[j];
    }
  }

  /** A document appended under an id no earlier document carries is what a lookup by
      that id returns. */
  lemma AppendedIsFound(c: Collection, d: Doc, key: string, v: Value)
    requires !Exists(c, key, v)
    requires Matches(d, key, v)
    ensures FindOne(c + [d], key, v) == Some(d)
  {
    var c' := c + [d];
    assert FirstMatch(c', key, v, |c|) by {
      forall j | 0 <= j < |c| ensures !Matches(c'[j], key, v) {
        assert c'[j] == c[j];
      }
    }
    FirstMatchUnique(c', key, v, |c|, FindFirst(c', key, v).value);
  }

  lemma AppendKeepsExists(c: Collection, d: Doc, k: string, v: Value)
    requires Exists(c, k, v)
    ensures Exists(c + [d], k, v)
  {
    var j :| 0 <= j < |c| && Matches(c[j], k, v);
    assert (c + [d])[j] == c[j];
  }

  /** Every string-valued `field` of a document in `c` names a document of `target` whose
      own `field` has that value: a soft foreign key that resolves. */
  ghost predicate RefsResolve(c: Collection, field: string, target: Collection)
  {
    forall i :: 0 <= i < |c| && Get(c[i], field).Str? ==> Exists(target, field, Get(c[i], field))
  }

  /** References keep resolving when the target only gains documents reachable by the field. */
  lemma RefsResolveGrow(c: Collection, field: string, target: Collection, target': Collection)
    requires RefsResolve(c, field, target)
    requires forall v :: Exists(target, field, v) ==> Exists(target', field, v)
    ensures RefsResolve(c, field, target')
  {
  }

  lemma AppendKeepsRefs(c: Collection, d: Doc, field: string, target: Collection)
    requires RefsResolve(c, field, target)
    requires Get(d, field).Str? ==> Exists(target, field, Get(d, field))
    ensures RefsResolve(c + [d], field, target)
  {
    forall i | 0 <= i < |c| + 1 && Get((c + [d])[i], field).Str?
      ensures Exists(target, field, Get((c + [d])[i], field))
    {
      if i < |c| {
        assert (c + [d])[i] == c[i];
      }
    }
  }

  /** An update keyed by another field keeps references resolving, provided a staged
      reference was checked first. */
  lemma UpsertKeepsRefs(before: Collection, after: Collection, key: string, id: string, staged: Doc, newId: ObjectId, field: string, target: Collection)
    requires Upserted(before, after, key, id, staged, newId)
    requires RefsResolve(before, field, target)
    requires field != key
    requires field in staged && staged[field].Str? ==> Exists(target, field, staged[field])
    ensures RefsResolve(after, field, target)
  {
    if Exists(before, key, Str(id)) {
      var m := FindFirst(before, key, Str(id)).value;
      forall i | 0 <= i < |after| && Get(after[i], field).Str?
        ensures Exists(target, field, Get(after[i], field))
      {
        if i != m {
          assert after[i] == before[i];
        } else if field !in staged {
          assert Get(after[i], field) == Get(before[i], field);
        }
      }
    } else {
      AppendKeepsRefs(before, UpsertSeed(key, id, newId) + staged, field, target);
    }
  }
}
