/**
 * The document store: collections of documents in natural order, the equality
 * filters the workflow uses with `findOne`, and the `$set` and `insertOne`
 * writes.
 */
module Documents {
  import opened Wrappers
  import opened Failures
  import opened JsValues

  /** A stored document: its `_id` and its other top-level fields. */
  datatype Document = Document(id: Json, fields: Fields)

  /** `doc[key]`; the `_id` key reads the document's id. */
  function Field(d: Document, key: string): (v: Option<Json>)
    ensures key == "_id" ==> v == Some(d.id)
    ensures key != "_id" ==> v == Get(d.fields, key)
  {
    if key == "_id" then Some(d.id) else Get(d.fields, key)
  }

  /** The document as a JavaScript object, `_id` included. */
  function AsValue(d: Document): (v: Json)
    ensures v.JObj? && "_id" in v.fields && v.fields["_id"] == d.id
  {
    JObj(d.fields["_id" := d.id])
  }

  /** A dotted path, one segment per property: `payment.id` is ["payment", "id"]. */
  type Path = seq<string>

  /** The value at `path` below `v`, or undefined when some segment is missing or not an object. */
  function Descend(v: Option<Json>, path: Path): Option<Json>
    decreases |path|
  {
    if |path| == 0 then v else Descend(OptionalMember(v, path[0]), path[1..])
  }

  function Lookup(d: Document, path: Path): Option<Json>
  {
    if |path| == 0 then Some(AsValue(d)) else Descend(Field(d, path[0]), path[1..])
  }

  /** One equality condition of a filter: `{ path: value }`. */
  datatype Condition = Condition(path: Path, value: Option<Json>)

  /**
   * Whether a stored value satisfies `{ path: value }`. An undefined or null
   * query value matches a missing or null field; any other value matches an
   * equal field or an array holding it.
   */
  predicate FieldMatches(stored: Option<Json>, value: Option<Json>)
  {
    if value == None || value == Some(JNull) then stored == None || stored == Some(JNull)
    else stored == value || (stored.Some? && stored.value.JArr? && value.value in stored.value.items)
  }

  predicate Matches(d: Document, filter: seq<Condition>)
  {
    forall c :: c in filter ==> FieldMatches(Lookup(d, c.path), c.value)
  }

  /** Position of the first document, in natural order, that matches `filter`. */
  function FirstMatch(c: seq<Document>, filter: seq<Condition>): (r: Option<nat>)
    ensures r.Some? ==> r.value < |c| && Matches(c[r.value], filter)
    ensures r.Some? ==> forall j :: 0 <= j < r.value ==> !Matches(c[j], filter)
    ensures r.None? ==> forall j :: 0 <= j < |c| ==> !Matches(c[j], filter)
  {
    if |c| == 0 then None
    else if Matches(c[0], filter) then Some(0)
    else match FirstMatch(c[1..], filter)
      case None => None
      case Some(k) => Some(k + 1)
  }

  /** `collection.findOne(filter)`: the first matching document, or null. */
  function FindOne(c: seq<Document>, filter: seq<Condition>): (r: Option<Document>)
    ensures r.Some? ==> r.value in c && Matches(r.value, filter)
    ensures r.None? <==> forall d :: d in c ==> !Matches(d, filter)
  {
    match FirstMatch(c, filter)
    case None => None
    case Some(i) => Some(c[i])
  }

  /** The filter `{ _id: id }`. */
  function ById(id: Json): seq<Condition>
  {
    [Condition(["_id"], Some(id))]
  }

  /** What the store guarantees of `_id`: unique within a collection, and never an array. */
  predicate UniqueIds(c: seq<Document>)
  {
    && (forall i, j :: 0 <= i < j < |c| ==> c[i].id != c[j].id)
    && (forall i :: 0 <= i < |c| ==> !c[i].id.JArr?)
  }

  /** In a collection with unique ids, `{ _id: d._id }` finds `d` itself. */
  lemma {:induction false} ByIdFindsItself(c: seq<Document>, i: nat)
    requires UniqueIds(c) && i < |c|
    ensures FirstMatch(c, ById(c[i].id)) == Some(i)
  {
    var filter := ById(c[i].id);
    assert filter[0] in filter;
    if i == 0 {
      assert Matches(c[0], filter);
    } else {
      assert c[0].id != c[i].id;
      assert !Matches(c[0], filter);
      ByIdFindsItself(c[1..], i - 1);
    }
  }

  /** A chain of nested objects holding `x` at `path`, as `$set` creates for missing parents. */
  function Nest(path: Path, x: Json): Json
  {
    if |path| == 0 then x else JObj(map[path[0] := Nest(path[1..], x)])
  }

  /**
   * `$set: { path: x }` inside the object `m`. Missing parents are created; a
   * parent that exists but is not an object is a write error.
   */
  function SetIn(m: Fields, path: Path, x: Json): (r: Result<Fields, Error>)
    requires |path| > 0
    ensures r.Ok? ==> forall k :: k in m && k != path[0] ==> k in r.value && r.value[k] == m[k]
    ensures r.Ok? ==> forall k :: k in r.value ==> k in m || k == path[0]
    ensures r.Ok? ==> Descend(Some(JObj(r.value)), path) == Some(x)
    ensures r.Err? ==> r.error == MongoWriteError
    decreases |path|
  {
    var key := path[0];
    if |path| == 1 then Ok(m[key := x])
    else
      match Get(m, key)
      case None =>
        NestLookup(path[1..], x);
        Ok(m[key := Nest(path[1..], x)])
      case Some(JObj(sub)) =>
        var inner :- SetIn(sub, path[1..], x);
        Ok(m[key := JObj(inner)])
      case Some(_) => Err(MongoWriteError)
  }

  lemma {:induction false} NestLookup(path: Path, x: Json)
    ensures Descend(Some(Nest(path, x)), path) == Some(x)
  {
    if |path| > 0 {
      NestLookup(path[1..], x);
    }
  }

  /** `$set` of one path in a document; the immutable `_id` cannot be set. */
  function SetField(d: Document, path: Path, x: Json): (r: Result<Document, Error>)
    requires |path| > 0
    ensures r.Ok? ==> r.value.id == d.id
    ensures r.Ok? ==> Lookup(r.value, path) == Some(x)
    ensures r.Ok? ==> forall k :: k != path[0] ==> Field(r.value, k) == Field(d, k)
    ensures r.Err? ==> r.error == MongoWriteError
  {
    if path[0] == "_id" then Err(MongoWriteError)
    else
      var fields :- SetIn(d.fields, path, x);
      Ok(Document(d.id, fields))
  }

  /** An update document `$set: { path1: x1, path2: x2, ... }`, applied in order. */
  function SetAll(d: Document, sets: seq<(Path, Json)>): (r: Result<Document, Error>)
    requires forall i :: 0 <= i < |sets| ==> |sets[i].0| > 0
    ensures r.Ok? ==> r.value.id == d.id
    ensures r.Ok? ==> forall k :: (forall i :: 0 <= i < |sets| ==> sets[i].0[0] != k) ==> Field(r.value, k) == Field(d, k)
    ensures r.Ok? ==> forall i :: 0 <= i < |sets| && (forall j :: i < j < |sets| ==> sets[j].0[0] != sets[i].0[0]) ==>
      Lookup(r.value, sets[i].0) == Some(sets[i].1)
    ensures r.Err? ==> r.error == MongoWriteError
    decreases |sets|
  {
    if |sets| == 0 then Ok(d)
    else
      var d1 :- SetField(d, sets[0].0, sets[0].1);
      var r := SetAll(d1, sets[1..]);
      SetAllHolds(d1, sets, r);
      r
  }

  /**
   * After the first `$set` of `sets`, the remaining ones leave every path
   * whose top-level field none of them touches as it was, and in particular
   * the first path's value.
   */
  lemma SetAllHolds(d1: Document, sets: seq<(Path, Json)>, r: Result<Document, Error>)
    requires |sets| > 0 && forall i :: 0 <= i < |sets| ==> |sets[i].0| > 0
    requires Lookup(d1, sets[0].0) == Some(sets[0].1)
    requires r.Ok? ==> forall k :: (forall i :: 1 <= i < |sets| ==> sets[i].0[0] != k) ==> Field(r.value, k) == Field(d1, k)
    requires r.Ok? ==> forall i :: 1 <= i < |sets| && (forall j :: i < j < |sets| ==> sets[j].0[0] != sets[i].0[0]) ==>
      Lookup(r.value, sets[i].0) == Some(sets[i].1)
    ensures r.Ok? ==> forall i :: 0 <= i < |sets| && (forall j :: i < j < |sets| ==> sets[j].0[0] != sets[i].0[0]) ==>
      Lookup(r.value, sets[i].0) == Some(sets[i].1)
  {
    if r.Ok? {
      var k := sets[0].0[0];
      if forall j :: 0 < j < |sets| ==> sets[j].0[0] != k {
        assert Field(r.value, k) == Field(d1, k);
      }
    }
  }

  /**
   * `collection.updateOne(filter, { $set })`: the first matching document is
   * updated; with no match nothing changes.
   */
  function UpdateOne(c: seq<Document>, filter: seq<Condition>, sets: seq<(Path, Json)>): (r: Result<seq<Document>, Error>)
    requires forall i :: 0 <= i < |sets| ==> |sets[i].0| > 0
    ensures r.Ok? ==> |r.value| == |c|
    ensures r.Ok? ==> forall j :: 0 <= j < |c| ==> r.value[j].id == c[j].id
    ensures FirstMatch(c, filter).None? ==> r == Ok(c)
    ensures r.Ok? && FirstMatch(c, filter).Some? ==>
      var i := FirstMatch(c, filter).value;
      && (forall j :: 0 <= j < |c| && j != i ==> r.value[j] == c[j])
      && SetAll(c[i], sets) == Ok(r.value[i])
    ensures r.Err? <==> FirstMatch(c, filter).Some? && SetAll(c[FirstMatch(c, filter).value], sets).Err?
    ensures r.Err? ==> r.error == MongoWriteError
  {
    match FirstMatch(c, filter)
    case None => Ok(c)
    case Some(i) =>
      var d :- SetAll(c[i], sets);
      Ok(c[i := d])
  }

  /** `collection.insertOne(fields)`: an `_id` is generated when the record has none. */
  function InsertOne(c: seq<Document>, fields: Fields, generatedId: string): (r: seq<Document>)
    ensures |r| == |c| + 1 && r[..|c|] == c
    ensures r[|c|].id == (if "_id" in fields then fields["_id"] else JOid(generatedId))
    ensures forall k :: k != "_id" ==> Field(r[|c|], k) == Get(fields, k)
  {
    var id := if "_id" in fields then fields["_id"] else JOid(generatedId);
    c + [Document(id, fields - {"_id"})]
  }

  /** How a record's value is stored: the driver serialises undefined as null. */
  function Stored(v: Option<Json>): (j: Json)
    ensures v.Some? ==> j == v.value
    ensures v.None? ==> j == JNull
  {
    if v.Some? then v.value else JNull
  }

  /** The collections the workflow touches. */
  datatype Mongo = Mongo(
    orders: seq<Document>,
    products: seq<Document>,
    users: seq<Document>,
    payments: seq<Document>,
    transactions: seq<Document>)
}
