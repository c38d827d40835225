/**
 * The two collections, `jobs` and `job_applications`, as tables of documents in
 * natural (insertion) order, and the store operations the handlers use on them:
 * `find(query)`, `findOne({_id})` and a one-field `$set`.
 */
module Tables {
  import opened Wrappers
  import opened Json
  import opened ObjectIds

  /** A stored document: its `_id` and its other fields. */
  datatype Record = Record(id: ObjectId, doc: Doc)

  type Table = seq<Record>

  /** The store assigns each document a distinct `_id`. */
  ghost predicate UniqueIds(t: Table) {
    forall i, j :: 0 <= i < j < |t| ==> t[i].id != t[j].id
  }

  /** The ids a table holds. */
  function Ids(t: Table): (s: set<ObjectId>)
    ensures forall i :: 0 <= i < |t| ==> t[i].id in s
    ensures forall o :: o in s ==> exists i :: 0 <= i < |t| && t[i].id == o
  {
    set i | 0 <= i < |t| :: t[i].id
  }

  /** A filter document: `{}` or `{ field: value }`. */
  datatype Query = All | Eq(field: string, value: Value)

  /** Equality match on one field; a missing field matches null. */
  predicate Matches(d: Doc, q: Query) {
    match q
    case All => true
    case Eq(f, v) => Get(d, f).GetOr(Null) == v
  }

  /** `find(q).toArray()`: the matching documents, in natural order. */
  function Find(t: Table, q: Query): (r: Table)
    ensures forall x :: x in r <==> x in t && Matches(x.doc, q)
    ensures q.All? ==> r == t
    decreases |t|
  {
    if t == [] then []
    else if Matches(t[0].doc, q) then [t[0]] + Find(t[1..], q)
    else Find(t[1..], q)
  }

  /** `r` is `t` with some elements removed and the rest kept in order. */
  predicate Sublist(r: Table, t: Table)
    decreases |t|
  {
    if r == [] then true
    else if t == [] then false
    else if r[0] == t[0] then Sublist(r[1..], t[1..])
    else Sublist(r, t[1..])
  }

  /** `find` keeps the natural order of the collection. */
  lemma {:induction false} FindIsSublist(t: Table, q: Query)
    ensures Sublist(Find(t, q), t)
    decreases |t|
  {
    if t != [] {
      FindIsSublist(t[1..], q);
      var rest := Find(t[1..], q);
      if Matches(t[0].doc, q) {
        assert Find(t, q) == [t[0]] + rest;
        assert ([t[0]] + rest)[1..] == rest;
      } else {
        assert Find(t, q) == rest;
        if rest != [] {
          assert rest[0] in rest;
          assert rest[0] != t[0];
        }
      }
    }
  }

  /** `find` never returns a document twice. */
  lemma {:induction false} FindKeepsUniqueIds(t: Table, q: Query)
    requires UniqueIds(t)
    ensures UniqueIds(Find(t, q))
    decreases |t|
  {
    if t != [] {
      var tail := t[1..];
      assert UniqueIds(tail);
      FindKeepsUniqueIds(tail, q);
      var rest := Find(tail, q);
      if Matches(t[0].doc, q) {
        forall x | x in rest ensures x.id != t[0].id {
          var k :| 0 <= k < |tail| && tail[k] == x;
          assert t[k + 1] == x;
        }
        var r := [t[0]] + rest;
        assert Find(t, q) == r;
        forall i, j | 0 <= i < j < |r| ensures r[i].id != r[j].id {
          if i == 0 {
            assert r[j] in rest;
          } else {
            assert r[i] == rest[i - 1] && r[j] == rest[j - 1];
          }
        }
      } else {
        assert Find(t, q) == rest;
      }
    }
  }

  /** `findOne({ _id: id })`: the position of the document with that id, if any. */
  function IndexOf(t: Table, id: ObjectId): (r: Option<nat>)
    ensures r.Some? ==> r.value < |t| && t[r.value].id == id
    ensures r.Some? ==> forall k :: 0 <= k < r.value ==> t[k].id != id
    ensures r.None? <==> forall k :: 0 <= k < |t| ==> t[k].id != id
    decreases |t|
  {
    if t == [] then None
    else if t[0].id == id then Some(0)
    else
      match IndexOf(t[1..], id)
      case None => None
      case Some(k) => Some(k + 1)
  }

  /** The position `findOne({ _id: new ObjectId(v) })` finds; none for a generated or invalid id. */
  function Target(t: Table, ref: IdRef): (r: Option<nat>)
    ensures r.Some? ==> ref.Parsed? && r.value < |t| && t[r.value].id == ref.id
    ensures r.None? ==> !ref.Parsed? || forall k :: 0 <= k < |t| ==> t[k].id != ref.id
  {
    if ref.Parsed? then IndexOf(t, ref.id) else None
  }

  /** `updateOne({ _id }, { $set: { f: v } })` on the document at position i. */
  function SetField(t: Table, i: nat, f: string, v: Value): (r: Table)
    requires i < |t|
    ensures |r| == |t|
    ensures forall k :: 0 <= k < |t| && k != i ==> r[k] == t[k]
    ensures r[i].id == t[i].id && Get(r[i].doc, f) == Some(v)
    ensures forall g :: g != f ==> Get(r[i].doc, g) == Get(t[i].doc, g)
    ensures UniqueIds(t) ==> UniqueIds(r)
  {
    t[i := t[i].(doc := t[i].doc[f := v])]
  }

  /** `insertOne(doc)` with the identifier the store assigns. */
  function Insert(t: Table, id: ObjectId, doc: Doc): (r: Table)
    ensures |r| == |t| + 1 && r[..|t|] == t && r[|t|] == Record(id, doc)
    ensures UniqueIds(t) && id !in Ids(t) ==> UniqueIds(r)
  {
    t + [Record(id, doc)]
  }
}
