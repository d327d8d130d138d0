/** The request handlers of the brokerage API (main.py): creating a CTU or a
    Sponsor, listing either collection with optional filters, a sort field,
    an order and a limit, and the schema-discovery response. */
module Api {
  import opened Documents
  import opened Schemas
  import opened DocumentStore
  import StableSort

  const CtuCollection := "ctu"
  const SponsorCollection := "sponsor"

  /** Bounds and defaults of the `limit` and `order` query parameters. */
  const MinLimit := 1
  const MaxLimit := 200
  const DefaultLimit := 50
  const DefaultOrder := "desc"

  datatype ApiError =
    | InvalidPayload(errors: seq<FieldError>)  // the request body failed validation
    | InvalidLimit                             // `limit` outside 1..200
    | PersistenceError                         // the store call failed
    | UnsortableKey                            // a sort key that is not a number

  /** A query parameter counts only when it is given and not empty. */
  predicate Truthy(o: Option<string>): (b: bool)
    ensures o.None? ==> !b
    ensures o == Some("") ==> !b
    ensures o.Some? && o.value != "" ==> b
  {
    o.Some? && o.value != ""
  }

  function Min(a: int, b: int): int
  {
    if a <= b then a else b
  }

  // ------------------------------------------------------------------
  // Query parameters
  // ------------------------------------------------------------------

  /** The `limit` parameter: 50 when omitted, rejected outside 1..200. */
  function ResolveLimit(raw: Option<int>): (r: Result<nat, ApiError>)
    ensures raw.None? ==> r == Ok(DefaultLimit)
    ensures raw.Some? ==> (r.Ok? <==> MinLimit <= raw.value <= MaxLimit)
    ensures raw.Some? && r.Ok? ==> r.value == raw.value
    ensures r.Ok? ==> MinLimit <= r.value <= MaxLimit
    ensures r.Err? ==> r.error == InvalidLimit
  {
    match raw
    case None => Ok(DefaultLimit)
    case Some(n) => if MinLimit <= n <= MaxLimit then Ok(n) else Err(InvalidLimit)
  }

  /** The `order` parameter: "desc" when omitted. Only the exact string
      "desc" sorts in descending order; every other value sorts ascending. */
  function Descending(order: Option<string>): (r: bool)
    ensures order.None? ==> r
    ensures order.Some? ==> (r <==> order.value == "desc")
  {
    (if order.Some? then order.value else DefaultOrder) == "desc"
  }

  // ------------------------------------------------------------------
  // Filters
  // ------------------------------------------------------------------

  /** The filter of the CTU listing: an exact-match condition per given
      locale field and a membership condition for the expertise tag. */
  function CtuFilter(city: Option<string>, state: Option<string>, country: Option<string>,
                     expertise: Option<string>): (f: Filter)
    ensures f.Keys <= {"city", "state", "country", "trial_expertise"}
    ensures "city" in f <==> Truthy(city)
    ensures "state" in f <==> Truthy(state)
    ensures "country" in f <==> Truthy(country)
    ensures "trial_expertise" in f <==> Truthy(expertise)
    ensures Truthy(city) ==> f["city"] == Is(city.value)
    ensures Truthy(state) ==> f["state"] == Is(state.value)
    ensures Truthy(country) ==> f["country"] == Is(country.value)
    ensures Truthy(expertise) ==> f["trial_expertise"] == AnyOf([expertise.value])
  {
    var withCity: Filter := if Truthy(city) then map["city" := Is(city.value)] else map[];
    var withState := if Truthy(state) then withCity["state" := Is(state.value)] else withCity;
    var withCountry := if Truthy(country) then withState["country" := Is(country.value)] else withState;
    if Truthy(expertise) then withCountry["trial_expertise" := AnyOf([expertise.value])] else withCountry
  }

  /** Builds the CTU filter one condition at a time. */
  method BuildCtuFilter(city: Option<string>, state: Option<string>, country: Option<string>,
                        expertise: Option<string>) returns (f: Filter)
    ensures f == CtuFilter(city, state, country, expertise)
  {
    f := map[];
    if Truthy(city) { f := f["city" := Is(city.value)]; }
    if Truthy(state) { f := f["state" := Is(state.value)]; }
    if Truthy(country) { f := f["country" := Is(country.value)]; }
    if Truthy(expertise) { f := f["trial_expertise" := AnyOf([expertise.value])]; }
  }

  /** The filter of the Sponsor listing: at most the expertise condition. */
  function SponsorFilter(expertise: Option<string>): (f: Filter)
    ensures f.Keys == if Truthy(expertise) then {"trial_expertise"} else {}
    ensures Truthy(expertise) ==> f["trial_expertise"] == AnyOf([expertise.value])
  {
    if Truthy(expertise) then map["trial_expertise" := AnyOf([expertise.value])] else map[]
  }

  method BuildSponsorFilter(expertise: Option<string>) returns (f: Filter)
    ensures f == SponsorFilter(expertise)
  {
    f := map[];
    if Truthy(expertise) { f := f["trial_expertise" := AnyOf([expertise.value])]; }
  }

  // ------------------------------------------------------------------
  // Sort keys
  // ------------------------------------------------------------------

  /** `d.get(field) or 0` as a number. A missing field and every falsy value
      (null, false, 0, "", [], {}) count as 0 and true as 1; a value that is
      not a number gives no key. */
  function SortKey(d: Doc, field: string): (r: Option<real>)
    ensures field !in d ==> r == Some(0.0)
    ensures field in d && d[field] == Null ==> r == Some(0.0)
    ensures field in d && d[field].Int? ==> r == Some(d[field].i as real)
    ensures field in d && d[field].Num? ==> r == Some(d[field].x)
    ensures field in d && d[field].Str? ==> (r.None? <==> d[field].s != "")
  {
    match Get(d, field)
    case None => Some(0.0)
    case Some(Null) => Some(0.0)
    case Some(Bool(b)) => Some(if b then 1.0 else 0.0)
    case Some(Int(i)) => Some(i as real)
    case Some(Num(x)) => Some(x)
    case Some(Str(s)) => if s == "" then Some(0.0) else None
    case Some(List(items)) => if items == [] then Some(0.0) else None
    case Some(Obj(fields)) => if fields == map[] then Some(0.0) else None
  }

  function NumericKey(field: string, d: Doc): real
  {
    match SortKey(d, field)
    case Some(x) => x
    case None => 0.0
  }

  /** The sort key function for `field`. */
  function KeyOf(field: string): Doc -> real
  {
    d => NumericKey(field, d)
  }

  /** The documents can be sorted by `field`: there is at most one, or every
      one of them has a numeric key. */
  predicate Sortable(docs: seq<Doc>, field: string): (b: bool)
    ensures !b <==> |docs| >= 2 && exists i :: 0 <= i < |docs| && SortKey(docs[i], field).None?
  {
    |docs| < 2 || forall i :: 0 <= i < |docs| ==> SortKey(docs[i], field).Some?
  }

  // ------------------------------------------------------------------
  // Listing
  // ------------------------------------------------------------------

  /** What a listing returns for the documents `coll` of a collection the
      store can reach: the documents matching `f` in store order, sorted by
      `sortBy` when it is given, then cut to the limit. */
  function ListResult(coll: seq<Doc>, f: Filter, sortBy: Option<string>, order: Option<string>,
                      limit: Option<int>): (r: Result<seq<Doc>, ApiError>)
    ensures r.Err? ==> r.error == InvalidLimit || r.error == UnsortableKey
    ensures r.Ok? ==> |r.value| <= MaxLimit && |r.value| <= |coll|
  {
    match ResolveLimit(limit)
    case Err(e) => Err(e)
    case Ok(n) =>
      var docs := Select(coll, f);
      if !Truthy(sortBy) then Ok(docs[..Min(n, |docs|)])
      else if !Sortable(docs, sortBy.value) then Err(UnsortableKey)
      else
        var sorted := StableSort.Sort(docs, KeyOf(sortBy.value), Descending(order));
        StableSort.SortPermutes(docs, KeyOf(sortBy.value), Descending(order));
        Ok(sorted[..Min(n, |sorted|)])
  }

  /** The listing pipeline shared by both collections: check the limit,
      fetch the matching documents, sort them in memory, keep the first
      `limit` of them. */
  method ListDocuments(store: Store, name: string, f: Filter, sortBy: Option<string>,
                       order: Option<string>, limit: Option<int>) returns (r: Result<seq<Doc>, ApiError>)
    ensures ResolveLimit(limit).Err? ==> r == Err(InvalidLimit)
    ensures ResolveLimit(limit).Ok? && !store.reachable ==> r == Err(PersistenceError)
    ensures store.reachable ==> r == ListResult(store.Collection(name), f, sortBy, order, limit)
  {
    var n: nat;
    match ResolveLimit(limit) {
      case Err(e) => return Err(e);
      case Ok(v) => n := v;
    }
    var found := store.Find(name, f);
    if found.Err? {
      return Err(PersistenceError);
    }
    var docs := found.value;
    if Truthy(sortBy) {
      if !Sortable(docs, sortBy.value) {
        return Err(UnsortableKey);
      }
      docs := StableSort.SortByKey(docs, KeyOf(sortBy.value), Descending(order));
      StableSort.SortPermutes(found.value, KeyOf(sortBy.value), Descending(order));
    }
    r := Ok(docs[..Min(n, |docs|)]);
  }

  method ListCtus(store: Store, city: Option<string>, state: Option<string>, country: Option<string>,
                  expertise: Option<string>, sortBy: Option<string>, order: Option<string>,
                  limit: Option<int>) returns (r: Result<seq<Doc>, ApiError>)
    ensures ResolveLimit(limit).Err? ==> r == Err(InvalidLimit)
    ensures ResolveLimit(limit).Ok? && !store.reachable ==> r == Err(PersistenceError)
    ensures store.reachable ==>
      r == ListResult(store.Collection(CtuCollection), CtuFilter(city, state, country, expertise), sortBy, order, limit)
  {
    var f := BuildCtuFilter(city, state, country, expertise);
    r := ListDocuments(store, CtuCollection, f, sortBy, order, limit);
  }

  method ListSponsors(store: Store, expertise: Option<string>, sortBy: Option<string>,
                      order: Option<string>, limit: Option<int>) returns (r: Result<seq<Doc>, ApiError>)
    ensures ResolveLimit(limit).Err? ==> r == Err(InvalidLimit)
    ensures ResolveLimit(limit).Ok? && !store.reachable ==> r == Err(PersistenceError)
    ensures store.reachable ==>
      r == ListResult(store.Collection(SponsorCollection), SponsorFilter(expertise), sortBy, order, limit)
  {
    var f := BuildSponsorFilter(expertise);
    r := ListDocuments(store, SponsorCollection, f, sortBy, order, limit);
  }

  // ------------------------------------------------------------------
  // Creation
  // ------------------------------------------------------------------

  /** Validates the payload and stores the CTU under the fresh identifier
      `id`. A rejected payload never reaches the store. */
  method CreateCtu(store: Store, payload: Doc, id: string) returns (r: Result<string, ApiError>)
    modifies store
    ensures store.reachable == old(store.reachable)
    ensures ValidateCtu(payload).Rejected? ==>
      r == Err(InvalidPayload(ValidateCtu(payload).errors)) && store.collections == old(store.collections)
    ensures ValidateCtu(payload).Accepted? && !old(store.reachable) ==>
      r == Err(PersistenceError) && store.collections == old(store.collections)
    ensures ValidateCtu(payload).Accepted? && old(store.reachable) ==>
      && r == Ok(id)
      && store.collections == old(store.collections)[CtuCollection :=
           old(store.Collection(CtuCollection)) + [WithId(EncodeCtu(ValidateCtu(payload).value), id)]]
  {
    match ValidateCtu(payload) {
      case Rejected(errors) =>
        r := Err(InvalidPayload(errors));
      case Accepted(ctu) =>
        var inserted := store.Insert(CtuCollection, EncodeCtu(ctu), id);
        r := if inserted.Ok? then Ok(inserted.value) else Err(PersistenceError);
    }
  }

  method CreateSponsor(store: Store, payload: Doc, id: string) returns (r: Result<string, ApiError>)
    modifies store
    ensures store.reachable == old(store.reachable)
    ensures ValidateSponsor(payload).Rejected? ==>
      r == Err(InvalidPayload(ValidateSponsor(payload).errors)) && store.collections == old(store.collections)
    ensures ValidateSponsor(payload).Accepted? && !old(store.reachable) ==>
      r == Err(PersistenceError) && store.collections == old(store.collections)
    ensures ValidateSponsor(payload).Accepted? && old(store.reachable) ==>
      && r == Ok(id)
      && store.collections == old(store.collections)[SponsorCollection :=
           old(store.Collection(SponsorCollection)) + [WithId(EncodeSponsor(ValidateSponsor(payload).value), id)]]
  {
    match ValidateSponsor(payload) {
      case Rejected(errors) =>
        r := Err(InvalidPayload(errors));
      case Accepted(sponsor) =>
        var inserted := store.Insert(SponsorCollection, EncodeSponsor(sponsor), id);
        r := if inserted.Ok? then Ok(inserted.value) else Err(PersistenceError);
    }
  }

  // ------------------------------------------------------------------
  // Schema discovery
  // ------------------------------------------------------------------

  /** The collections the API serves, for client tooling: exactly the two
      collections the create and list handlers use, each once. */
  function GetSchema(): (r: seq<string>)
    ensures r == [CtuCollection, SponsorCollection]
  {
    ["ctu", "sponsor"]
  }
}
