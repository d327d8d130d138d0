/** The document store the API talks to, reduced to what the API relies on:
    named collections of documents kept in insertion order, query filters
    that are conjunctions of per-field conditions, `find` as selection by
    such a filter, and `insert` as appending a document under a fresh id.
    The store may be unreachable, in which case every call fails. */
module DocumentStore {
  import opened Documents

  /** One condition of a query filter on one field: `Is(s)` is `{field: s}`,
      `AnyOf(ss)` is `{field: {"$in": ss}}`. */
  datatype Condition = Is(value: string) | AnyOf(values: seq<string>)

  /** A query filter: a condition per field, all of which must hold. */
  type Filter = map<string, Condition>

  datatype StoreError = Unreachable

  /** A stored value equals the string `s`; as in MongoDB, an array matches
      when one of its elements does. */
  predicate ValueMatches(v: Value, s: string)
  {
    v == Str(s) || (v.List? && Str(s) in v.items)
  }

  /** The condition holds of a field's value; a missing field satisfies no
      condition. */
  predicate Holds(c: Condition, v: Option<Value>)
  {
    && v.Some?
    && match c
       case Is(s) => ValueMatches(v.value, s)
       case AnyOf(ss) => exists s :: s in ss && ValueMatches(v.value, s)
  }

  /** The document satisfies every condition of the filter. */
  predicate Matches(d: Doc, f: Filter)
  {
    forall field :: field in f ==> Holds(f[field], Get(d, field))
  }

  /** The documents of `docs` that match `f`, in their order in `docs`. */
  function Select(docs: seq<Doc>, f: Filter): (r: seq<Doc>)
    ensures |r| <= |docs|
    ensures forall d :: d in r <==> d in docs && Matches(d, f)
  {
    if docs == [] then []
    else (if Matches(docs[0], f) then [docs[0]] else []) + Select(docs[1..], f)
  }

  /** The document as the store keeps it once inserted under `id`. */
  function WithId(doc: Doc, id: string): Doc
  {
    doc["_id" := Str(id)]
  }

  /** The empty filter selects every document, in store order. */
  lemma {:induction false} SelectAll(docs: seq<Doc>)
    ensures Select(docs, map[]) == docs
  {
    if docs != [] {
      SelectAll(docs[1..]);
      assert docs == [docs[0]] + docs[1..];
    }
  }

  lemma {:induction false} SelectAppend(a: seq<Doc>, b: seq<Doc>, f: Filter)
    ensures Select(a + b, f) == Select(a, f) + Select(b, f)
  {
    if a == [] {
      assert a + b == b;
    } else {
      assert (a + b)[1..] == a[1..] + b;
      SelectAppend(a[1..], b, f);
    }
  }

  /** With a condition `{"$in": [tag]}`, a document whose field is a list
      matches exactly when the list contains the exact tag. */
  lemma ContainsTag(items: seq<Value>, tag: string)
    ensures Holds(AnyOf([tag]), Some(List(items))) <==> Str(tag) in items
  {
    if Str(tag) in items {
      assert tag in [tag] && ValueMatches(List(items), tag);
    }
  }

  class Store {
    /** The documents of each collection, in insertion order. */
    var collections: map<string, seq<Doc>>
    /** Whether calls to the store succeed. */
    var reachable: bool

    constructor (reachable: bool)
      ensures this.collections == map[] && this.reachable == reachable
    {
      this.collections := map[];
      this.reachable := reachable;
    }

    /** The documents of collection `name`; a collection that was never
        written is empty. */
    function Collection(name: string): seq<Doc>
      reads this
    {
      if name in collections then collections[name] else []
    }

    /** Appends `doc` to collection `name` under the fresh identifier `id`
        and returns the identifier. */
    method Insert(name: string, doc: Doc, id: string) returns (r: Result<string, StoreError>)
      modifies this
      ensures reachable == old(reachable)
      ensures old(reachable) ==> r == Ok(id) && collections == old(collections)[name := old(Collection(name)) + [WithId(doc, id)]]
      ensures !old(reachable) ==> r == Err(Unreachable) && collections == old(collections)
    {
      if reachable {
        collections := collections[name := Collection(name) + [WithId(doc, id)]];
        r := Ok(id);
      } else {
        r := Err(Unreachable);
      }
    }

    /** The documents of collection `name` that match `f`, in store order. */
    method Find(name: string, f: Filter) returns (r: Result<seq<Doc>, StoreError>)
      ensures reachable ==> r == Ok(Select(Collection(name), f))
      ensures !reachable ==> r == Err(Unreachable)
    {
      if reachable {
        r := Ok(Select(Collection(name), f));
      } else {
        r := Err(Unreachable);
      }
    }
  }
}
