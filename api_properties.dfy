/** What the listing and creation handlers promise, stated on the
    specification functions of module Api. */
module ApiProperties {
  import opened Documents
  import opened Schemas
  import opened DocumentStore
  import opened Api
  import StableSort
  import SchemaProperties

  /** For an ordered sequence, an element at or after position `m` is never
      to be placed before an element ahead of `m`. */
  lemma OrderedSplit<T>(s: seq<T>, key: T -> real, descending: bool, m: nat, x: T, i: nat)
    requires StableSort.Ordered(s, key, descending)
    requires m <= |s| && i < m
    requires x in multiset(s[m..])
    ensures !StableSort.Precedes(key, descending, x, s[i])
  {
    var t := s[m..];
    assert x in t;
    var j :| 0 <= j < |t| && t[j] == x;
    assert s[m + j] == x;
  }

  /** A prefix of a sequence keeps, for every key, a prefix of that key's
      class. */
  lemma KeyClassOfPrefix<T>(s: seq<T>, key: T -> real, k: real, m: nat)
    requires m <= |s|
    ensures StableSort.KeyClass(s[..m], key, k) <= StableSort.KeyClass(s, key, k)
  {
    assert s == s[..m] + s[m..];
    StableSort.KeyClassAppend(s[..m], s[m..], key, k);
  }

  // ------------------------------------------------------------------
  // Listing
  // ------------------------------------------------------------------

  /** Only stored documents that satisfy every given filter are listed. */
  lemma ListSound(coll: seq<Doc>, f: Filter, sortBy: Option<string>, order: Option<string>, limit: Option<int>)
    requires ListResult(coll, f, sortBy, order, limit).Ok?
    ensures forall d :: d in ListResult(coll, f, sortBy, order, limit).value ==> d in coll && Matches(d, f)
  {
    var docs := Select(coll, f);
    var r := ListResult(coll, f, sortBy, order, limit).value;
    if Truthy(sortBy) {
      var sorted := StableSort.Sort(docs, KeyOf(sortBy.value), Descending(order));
      StableSort.SortPermutes(docs, KeyOf(sortBy.value), Descending(order));
      forall d | d in r ensures d in docs {
        assert d in sorted;
        assert d in multiset(sorted);
      }
    }
  }

  /** The listing holds `limit` documents, or every matching one when fewer
      match; never more than 200. */
  lemma ListLength(coll: seq<Doc>, f: Filter, sortBy: Option<string>, order: Option<string>, limit: Option<int>)
    requires ListResult(coll, f, sortBy, order, limit).Ok?
    ensures |ListResult(coll, f, sortBy, order, limit).value| == Min(ResolveLimit(limit).value, |Select(coll, f)|)
    ensures |ListResult(coll, f, sortBy, order, limit).value| <= MaxLimit
  {
    if Truthy(sortBy) {
      StableSort.SortPermutes(Select(coll, f), KeyOf(sortBy.value), Descending(order));
    }
  }

  /** A listing fails exactly when the limit is out of range, or when it is
      sorted and a sort key of two or more matching documents is not a
      number. */
  lemma ListErrors(coll: seq<Doc>, f: Filter, sortBy: Option<string>, order: Option<string>, limit: Option<int>)
    ensures ListResult(coll, f, sortBy, order, limit) == Err(InvalidLimit) <==> ResolveLimit(limit).Err?
    ensures ListResult(coll, f, sortBy, order, limit) == Err(UnsortableKey)
        <==> ResolveLimit(limit).Ok? && Truthy(sortBy) && !Sortable(Select(coll, f), sortBy.value)
    ensures ListResult(coll, f, sortBy, order, limit).Err? ==>
      ListResult(coll, f, sortBy, order, limit).error in {InvalidLimit, UnsortableKey}
  {
  }

  /** Without a sort field, the listing is the first `limit` matching
      documents in store order. */
  lemma ListUnsorted(coll: seq<Doc>, f: Filter, sortBy: Option<string>, order: Option<string>, limit: Option<int>)
    requires ListResult(coll, f, sortBy, order, limit).Ok? && !Truthy(sortBy)
    ensures ListResult(coll, f, sortBy, order, limit).value
         == Select(coll, f)[..|ListResult(coll, f, sortBy, order, limit).value|]
  {
  }

  /** With no filter and no sort field, the listing is the first `limit`
      documents of the collection. */
  lemma ListAllUnsorted(coll: seq<Doc>, order: Option<string>, limit: Option<int>)
    requires ResolveLimit(limit).Ok?
    ensures ListResult(coll, map[], None, order, limit) == Ok(coll[..Min(ResolveLimit(limit).value, |coll|)])
  {
    SelectAll(coll);
  }

  /** With a sort field, the listing is ordered by its key: non-increasing
      for "desc" (the default), non-decreasing otherwise; and when two or
      more documents are listed every one of them has a numeric key. */
  lemma ListOrdered(coll: seq<Doc>, f: Filter, sortBy: Option<string>, order: Option<string>, limit: Option<int>)
    requires ListResult(coll, f, sortBy, order, limit).Ok? && Truthy(sortBy)
    ensures var r := ListResult(coll, f, sortBy, order, limit).value;
      forall i, j :: 0 <= i < j < |r| ==>
        if Descending(order) then NumericKey(sortBy.value, r[i]) >= NumericKey(sortBy.value, r[j])
        else NumericKey(sortBy.value, r[i]) <= NumericKey(sortBy.value, r[j])
    ensures var r := ListResult(coll, f, sortBy, order, limit).value;
      |r| >= 2 ==> forall i :: 0 <= i < |r| ==> SortKey(r[i], sortBy.value).Some?
  {
    var docs := Select(coll, f);
    var key, desc := KeyOf(sortBy.value), Descending(order);
    var sorted := StableSort.Sort(docs, key, desc);
    var r := ListResult(coll, f, sortBy, order, limit).value;
    assert r == sorted[..|r|];
    StableSort.SortOrdered(docs, key, desc);
    StableSort.SortPermutes(docs, key, desc);
    forall i, j | 0 <= i < j < |r|
      ensures if desc then NumericKey(sortBy.value, r[i]) >= NumericKey(sortBy.value, r[j])
              else NumericKey(sortBy.value, r[i]) <= NumericKey(sortBy.value, r[j])
    {
      assert !StableSort.Precedes(key, desc, sorted[j], sorted[i]);
    }
    if |r| >= 2 {
      forall i | 0 <= i < |r| ensures SortKey(r[i], sortBy.value).Some? {
        assert r[i] in multiset(sorted);
        var m :| 0 <= m < |docs| && docs[m] == r[i];
      }
    }
  }

  /** A prefix of an ordered sequence holds its best-ranked elements. */
  lemma PrefixTopRanked<T>(s: seq<T>, key: T -> real, descending: bool, m: nat)
    requires StableSort.Ordered(s, key, descending) && m <= |s|
    ensures multiset(s[..m]) <= multiset(s)
    ensures forall x, i :: x in multiset(s) - multiset(s[..m]) && 0 <= i < m ==>
      !StableSort.Precedes(key, descending, x, s[i])
  {
    assert s == s[..m] + s[m..];
    assert multiset(s) == multiset(s[..m]) + multiset(s[m..]);
    forall x, i | x in multiset(s) - multiset(s[..m]) && 0 <= i < m
      ensures !StableSort.Precedes(key, descending, x, s[i])
    {
      OrderedSplit(s, key, descending, m, x, i);
    }
  }

  /** With a sort field, the listing holds the best-ranked documents: no
      matching document left out is to be ranked ahead of one listed. */
  lemma ListTopRanked(coll: seq<Doc>, f: Filter, sortBy: Option<string>, order: Option<string>, limit: Option<int>)
    requires ListResult(coll, f, sortBy, order, limit).Ok? && Truthy(sortBy)
    ensures var r := ListResult(coll, f, sortBy, order, limit).value;
      && multiset(r) <= multiset(Select(coll, f))
      && forall d, i :: d in multiset(Select(coll, f)) - multiset(r) && 0 <= i < |r| ==>
           if Descending(order) then NumericKey(sortBy.value, d) <= NumericKey(sortBy.value, r[i])
           else NumericKey(sortBy.value, d) >= NumericKey(sortBy.value, r[i])
  {
    var docs := Select(coll, f);
    var key, desc := KeyOf(sortBy.value), Descending(order);
    var sorted := StableSort.Sort(docs, key, desc);
    var r := ListResult(coll, f, sortBy, order, limit).value;
    StableSort.SortOrdered(docs, key, desc);
    StableSort.SortPermutes(docs, key, desc);
    assert r == sorted[..|r|];
    PrefixTopRanked(sorted, key, desc, |r|);
  }

  /** The sort is stable: for every key value, the listed documents with
      that key are the first ones with that key in store order. */
  lemma ListStable(coll: seq<Doc>, f: Filter, sortBy: Option<string>, order: Option<string>, limit: Option<int>)
    requires ListResult(coll, f, sortBy, order, limit).Ok? && Truthy(sortBy)
    ensures var r := ListResult(coll, f, sortBy, order, limit).value;
      forall k :: StableSort.KeyClass(r, KeyOf(sortBy.value), k) <= StableSort.KeyClass(Select(coll, f), KeyOf(sortBy.value), k)
  {
    var docs := Select(coll, f);
    var key, desc := KeyOf(sortBy.value), Descending(order);
    var sorted := StableSort.Sort(docs, key, desc);
    var r := ListResult(coll, f, sortBy, order, limit).value;
    assert r == sorted[..|r|];
    forall k ensures StableSort.KeyClass(r, key, k) <= StableSort.KeyClass(docs, key, k) {
      StableSort.SortStable(docs, key, desc, k);
      KeyClassOfPrefix(sorted, key, k, |r|);
    }
  }

  // ------------------------------------------------------------------
  // Filters on stored records
  // ------------------------------------------------------------------

  lemma OptionalStringMatches(x: Option<string>, q: Option<string>)
    requires Truthy(q)
    ensures ValueMatches(EncodeOptionalString(x), q.value) <==> x == q
  {
  }

  lemma TagMatches(xs: seq<string>, tag: string)
    ensures Holds(AnyOf([tag]), Some(EncodeStrings(xs))) <==> tag in xs
  {
    var items := EncodeStrings(xs).items;
    ContainsTag(items, tag);
    if tag in xs {
      var i :| 0 <= i < |xs| && xs[i] == tag;
      assert items[i] == Str(tag);
    }
    if Str(tag) in items {
      var i :| 0 <= i < |items| && items[i] == Str(tag);
      assert xs[i] == tag;
    }
  }

  /** A stored CTU is listed under given locale filters exactly when its
      locale fields equal them, and under an expertise filter exactly when
      that tag is among its expertise tags. */
  lemma CtuFilterMatches(c: Ctu, id: string, city: Option<string>, state: Option<string>,
                         country: Option<string>, expertise: Option<string>)
    ensures Matches(WithId(EncodeCtu(c), id), CtuFilter(city, state, country, expertise)) <==>
      && (Truthy(city) ==> c.city == city)
      && (Truthy(state) ==> c.state == state)
      && (Truthy(country) ==> c.country == country)
      && (Truthy(expertise) ==> expertise.value in c.trialExpertise)
  {
    var d := WithId(EncodeCtu(c), id);
    var f := CtuFilter(city, state, country, expertise);
    assert Get(d, "city") == Some(EncodeOptionalString(c.city));
    assert Get(d, "state") == Some(EncodeOptionalString(c.state));
    assert Get(d, "country") == Some(EncodeOptionalString(c.country));
    assert Get(d, "trial_expertise") == Some(EncodeStrings(c.trialExpertise));
    if Truthy(city) { OptionalStringMatches(c.city, city); }
    if Truthy(state) { OptionalStringMatches(c.state, state); }
    if Truthy(country) { OptionalStringMatches(c.country, country); }
    if Truthy(expertise) { TagMatches(c.trialExpertise, expertise.value); }
  }

  /** A stored Sponsor is listed under an expertise filter exactly when that
      tag is among its expertise tags. */
  lemma SponsorFilterMatches(s: Sponsor, id: string, expertise: Option<string>)
    ensures Matches(WithId(EncodeSponsor(s), id), SponsorFilter(expertise)) <==>
      (Truthy(expertise) ==> expertise.value in s.trialExpertise)
  {
    var d := WithId(EncodeSponsor(s), id);
    assert Get(d, "trial_expertise") == Some(EncodeStrings(s.trialExpertise));
    if Truthy(expertise) { TagMatches(s.trialExpertise, expertise.value); }
  }

  /** A record appended to a collection is listed, last, by an unsorted
      listing whose filter it matches and whose limit leaves room for it. */
  lemma NewRecordListedLast(coll: seq<Doc>, doc: Doc, f: Filter, order: Option<string>, limit: Option<int>)
    requires Matches(doc, f)
    requires ResolveLimit(limit).Ok? && |Select(coll, f)| < ResolveLimit(limit).value
    ensures ListResult(coll + [doc], f, None, order, limit) == Ok(Select(coll, f) + [doc])
  {
    var docs := Select(coll, f) + [doc];
    SelectAppend(coll, [doc], f);
    assert Select([doc], f) == [doc] + Select([doc][1..], f);
    assert [doc][1..] == [];
    assert Select([], f) == [];
    assert Select(coll + [doc], f) == docs;
    assert Min(ResolveLimit(limit).value, |docs|) == |docs|;
    assert docs[..|docs|] == docs;
  }

  /** A stored CTU, read back with its identifier, validates to the record
      that was stored. */
  lemma StoredCtuRevalidates(c: Ctu, id: string)
    requires c.Valid()
    ensures ValidateCtu(WithId(EncodeCtu(c), id)) == Accepted(c)
  {
    var e := EncodeCtu(c);
    var d := WithId(e, id);
    forall k | k != "_id" ensures Get(d, k) == Get(e, k) { }
    SchemaProperties.CtuRoundTrip(c);
  }

  /** A stored Sponsor, read back with its identifier, validates to the
      record that was stored. */
  lemma StoredSponsorRevalidates(s: Sponsor, id: string)
    requires s.Valid()
    ensures ValidateSponsor(WithId(EncodeSponsor(s), id)) == Accepted(s)
  {
    var e := EncodeSponsor(s);
    var d := WithId(e, id);
    assert Get(d, "name") == Get(e, "name");
    assert Get(d, "ecrf_edc_usability") == Get(e, "ecrf_edc_usability");
    assert Get(d, "study_length") == Get(e, "study_length");
    assert Get(d, "assessment_intensity") == Get(e, "assessment_intensity");
    assert Get(d, "eligibility_rigidity_pct") == Get(e, "eligibility_rigidity_pct");
    assert Get(d, "startup_timelines") == Get(e, "startup_timelines");
    assert Get(d, "monitoring") == Get(e, "monitoring");
    assert Get(d, "trial_expertise") == Get(e, "trial_expertise");
    assert Get(d, "budget") == Get(e, "budget");
    SchemaProperties.SponsorRoundTrip(s);
  }

  /** The CTU fields whose stored form is the value the body gave, when
      it gave one: the strings, the flags and the tag lists. */
  const CtuVerbatimFields := {"name", "city", "state", "country", "inpatient_confinement",
                              "telemetry_24h", "outpatient_clinic", "trial_expertise", "tech_stack"}

  /** A stored CTU keeps verbatim each of those fields the body gave. */
  lemma StoredCtuKeepsVerbatim(p: Doc, c: Ctu, id: string)
    requires CtuKeeps(p, c)
    ensures var d := WithId(EncodeCtu(c), id);
      forall k :: k in p && k in CtuVerbatimFields && p[k] != Null ==> d[k] == p[k]
  {
    var d := WithId(EncodeCtu(c), id);
    var e := EncodeCtu(c);
    forall k | k in p && k in CtuVerbatimFields && p[k] != Null ensures d[k] == p[k] {
      assert d[k] == e[k];
      if k == "name" {
        assert e[k] == Str(c.name);
      } else if k == "city" {
        assert e[k] == EncodeOptionalString(c.city);
      } else if k == "state" {
        assert e[k] == EncodeOptionalString(c.state);
      } else if k == "country" {
        assert e[k] == EncodeOptionalString(c.country);
      } else if k == "inpatient_confinement" {
        assert e[k] == Bool(c.inpatientConfinement);
      } else if k == "telemetry_24h" {
        assert e[k] == Bool(c.telemetry24h);
      } else if k == "outpatient_clinic" {
        assert e[k] == Bool(c.outpatientClinic);
      } else if k == "trial_expertise" {
        assert e[k] == EncodeStrings(c.trialExpertise);
      } else {
        assert e[k] == EncodeStrings(c.techStack);
      }
    }
  }

  /** A stored CTU whose body satisfies a listing's filters matches them. */
  lemma StoredCtuMatches(p: Doc, c: Ctu, id: string, city: Option<string>, state: Option<string>,
                         country: Option<string>, expertise: Option<string>)
    requires CtuKeeps(p, c)
    requires Matches(p, CtuFilter(city, state, country, expertise))
    ensures Matches(WithId(EncodeCtu(c), id), CtuFilter(city, state, country, expertise))
  {
    var f := CtuFilter(city, state, country, expertise);
    assert Truthy(city) ==> c.city == city by {
      if Truthy(city) { assert Holds(f["city"], Get(p, "city")); }
    }
    assert Truthy(state) ==> c.state == state by {
      if Truthy(state) { assert Holds(f["state"], Get(p, "state")); }
    }
    assert Truthy(country) ==> c.country == country by {
      if Truthy(country) { assert Holds(f["country"], Get(p, "country")); }
    }
    assert Truthy(expertise) ==> expertise.value in c.trialExpertise by {
      if Truthy(expertise) {
        assert Holds(f["trial_expertise"], Get(p, "trial_expertise"));
        TagMatches(c.trialExpertise, expertise.value);
      }
    }
    CtuFilterMatches(c, id, city, state, country, expertise);
  }

  /** A body that satisfies a CTU listing's filters is, once created,
      listed last by an unsorted listing whose limit leaves room for it;
      the listed document carries the new identifier, reads back as the
      record the body validated to, and keeps verbatim the strings, flags
      and tag lists the body gave. */
  lemma CreatedCtuListed(coll: seq<Doc>, p: Doc, id: string, city: Option<string>, state: Option<string>,
                         country: Option<string>, expertise: Option<string>, order: Option<string>, limit: Option<int>)
    requires ValidateCtu(p).Accepted?
    requires Matches(p, CtuFilter(city, state, country, expertise))
    requires ResolveLimit(limit).Ok?
    requires |Select(coll, CtuFilter(city, state, country, expertise))| < ResolveLimit(limit).value
    ensures var d := WithId(EncodeCtu(ValidateCtu(p).value), id);
      var f := CtuFilter(city, state, country, expertise);
      && ListResult(coll + [d], f, None, order, limit) == Ok(Select(coll, f) + [d])
      && d["_id"] == Str(id)
      && ValidateCtu(d) == ValidateCtu(p)
      && forall k :: k in p && k in CtuVerbatimFields && p[k] != Null ==> d[k] == p[k]
  {
    var c := ValidateCtu(p).value;
    StoredCtuMatches(p, c, id, city, state, country, expertise);
    NewRecordListedLast(coll, WithId(EncodeCtu(c), id), CtuFilter(city, state, country, expertise), order, limit);
    StoredCtuRevalidates(c, id);
    StoredCtuKeepsVerbatim(p, c, id);
  }

  /** A stored Sponsor whose body satisfies a listing's filter matches it. */
  lemma StoredSponsorMatches(p: Doc, s: Sponsor, id: string, expertise: Option<string>)
    requires SponsorKeeps(p, s)
    requires Matches(p, SponsorFilter(expertise))
    ensures Matches(WithId(EncodeSponsor(s), id), SponsorFilter(expertise))
  {
    if Truthy(expertise) {
      assert Holds(SponsorFilter(expertise)["trial_expertise"], Get(p, "trial_expertise"));
      TagMatches(s.trialExpertise, expertise.value);
    }
    SponsorFilterMatches(s, id, expertise);
  }

  /** A body that satisfies a Sponsor listing's filter is, once created,
      listed last by an unsorted listing whose limit leaves room for it,
      and reads back as the record the body validated to. */
  lemma CreatedSponsorListed(coll: seq<Doc>, p: Doc, id: string, expertise: Option<string>,
                             order: Option<string>, limit: Option<int>)
    requires ValidateSponsor(p).Accepted?
    requires Matches(p, SponsorFilter(expertise))
    requires ResolveLimit(limit).Ok?
    requires |Select(coll, SponsorFilter(expertise))| < ResolveLimit(limit).value
    ensures var d := WithId(EncodeSponsor(ValidateSponsor(p).value), id);
      && ListResult(coll + [d], SponsorFilter(expertise), None, order, limit)
         == Ok(Select(coll, SponsorFilter(expertise)) + [d])
      && d["_id"] == Str(id)
      && ValidateSponsor(d) == ValidateSponsor(p)
  {
    var s := ValidateSponsor(p).value;
    SponsorKeepsGivenValues(p);
    StoredSponsorMatches(p, s, id, expertise);
    NewRecordListedLast(coll, WithId(EncodeSponsor(s), id), SponsorFilter(expertise), order, limit);
    StoredSponsorRevalidates(s, id);
  }

  /** Creating a CTU from a body on a reachable store and then listing the
      CTUs under filters the body satisfies returns the earlier matches
      followed by the new record. */
  method CreateThenListCtus(store: Store, p: Doc, id: string, city: Option<string>, state: Option<string>,
                            country: Option<string>, expertise: Option<string>, order: Option<string>,
                            limit: Option<int>) returns (created: Result<string, ApiError>, listed: Result<seq<Doc>, ApiError>)
    modifies store
    requires store.reachable
    requires ValidateCtu(p).Accepted?
    requires Matches(p, CtuFilter(city, state, country, expertise))
    requires ResolveLimit(limit).Ok?
    requires |Select(store.Collection(CtuCollection), CtuFilter(city, state, country, expertise))| < ResolveLimit(limit).value
    ensures created == Ok(id)
    ensures listed == Ok(Select(old(store.Collection(CtuCollection)), CtuFilter(city, state, country, expertise))
                         + [WithId(EncodeCtu(ValidateCtu(p).value), id)])
  {
    CreatedCtuListed(store.Collection(CtuCollection), p, id, city, state, country, expertise, order, limit);
    created := CreateCtu(store, p, id);
    listed := ListCtus(store, city, state, country, expertise, None, order, limit);
  }

  // ------------------------------------------------------------------
  // A worked request sequence
  // ------------------------------------------------------------------

  /** The body `{name, city: "Austin", recruitment_velocity}` of a CTU. */
  function AustinSite(name: string, velocity: int): Doc
  {
    map["name" := Str(name), "city" := Str("Austin"), "recruitment_velocity" := Int(velocity)]
  }

  /** The record such a body validates to, every other field defaulted. */
  function AustinCtu(name: string, velocity: int): Ctu
  {
    Ctu(name, Some("Austin"), None, None, false, false, true, [], [], Some(velocity as real), None, None)
  }

  lemma AustinSiteValidates(name: string, velocity: nat)
    ensures ValidateCtu(AustinSite(name, velocity)) == Accepted(AustinCtu(name, velocity))
  {
    var p := AustinSite(name, velocity);
    assert Get(p, "name") == Some(Str(name));
    assert Get(p, "city") == Some(Str("Austin"));
    assert Get(p, "recruitment_velocity") == Some(Int(velocity));
    assert forall k :: k !in {"name", "city", "recruitment_velocity"} ==> Get(p, k) == None;
  }

  /** Of the two stored Austin sites, the listing by recruitment velocity,
      descending, with limit 1 holds the faster one. */
  lemma AustinListing(idA: string, idB: string)
    ensures var docA := WithId(EncodeCtu(AustinCtu("Site A", 5)), idA);
      var docB := WithId(EncodeCtu(AustinCtu("Site B", 10)), idB);
      ListResult([docA, docB], CtuFilter(Some("Austin"), None, None, None),
                 Some("recruitment_velocity"), Some("desc"), Some(1)) == Ok([docB])
  {
    var docA := WithId(EncodeCtu(AustinCtu("Site A", 5)), idA);
    var docB := WithId(EncodeCtu(AustinCtu("Site B", 10)), idB);
    var f := CtuFilter(Some("Austin"), None, None, None);
    CtuFilterMatches(AustinCtu("Site A", 5), idA, Some("Austin"), None, None, None);
    CtuFilterMatches(AustinCtu("Site B", 10), idB, Some("Austin"), None, None, None);
    assert Select([docA, docB], f) == [docA, docB] by {
      assert [docA, docB][1..] == [docB];
      assert [docB][1..] == [];
      assert Select([], f) == [];
    }
    var key := KeyOf("recruitment_velocity");
    assert Get(docA, "recruitment_velocity") == Some(Num(5.0));
    assert Get(docB, "recruitment_velocity") == Some(Num(10.0));
    assert key(docA) == 5.0 && key(docB) == 10.0;
    assert Sortable([docA, docB], "recruitment_velocity");
    assert StableSort.Sort([docA, docB], key, true) == [docB, docA] by {
      assert [docA, docB][..1] == [docA];
      assert [docA][..0] == [];
      assert StableSort.Sort([docA], key, true) == [docA];
    }
  }

  /** Two Austin sites are created, with recruitment velocities 5 and 10;
      listing the Austin sites by recruitment velocity, descending, with
      limit 1 returns the faster site only. */
  method AustinScenario(idA: string, idB: string) returns (listed: Result<seq<Doc>, ApiError>)
    ensures listed == Ok([WithId(EncodeCtu(AustinCtu("Site B", 10)), idB)])
  {
    var store := new Store(true);
    AustinSiteValidates("Site A", 5);
    AustinSiteValidates("Site B", 10);
    var a := CreateCtu(store, AustinSite("Site A", 5), idA);
    var b := CreateCtu(store, AustinSite("Site B", 10), idB);
    var docA := WithId(EncodeCtu(AustinCtu("Site A", 5)), idA);
    var docB := WithId(EncodeCtu(AustinCtu("Site B", 10)), idB);
    assert store.Collection(CtuCollection) == [docA, docB];
    listed := ListCtus(store, Some("Austin"), None, None, None, Some("recruitment_velocity"), Some("desc"), Some(1));
    AustinListing(idA, idB);
  }
}
