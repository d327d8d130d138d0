# Clinical Trials Brokerage — a Dafny model of the API core

The Clinical Trials Brokerage backend stores two kinds of profile in a
document store:

- CTUs (clinical trial units, that is, study sites). A CTU has a locale, capability flags, expertise tags, a tech stack, performance metrics and optional startup timelines.
- Sponsors. A Sponsor has an eCRF/EDC usability score, study length, assessment intensity, eligibility rigidity, startup timelines, monitoring, expertise tags and budget figures.

The backend serves them over HTTP. A creation endpoint validates a request
body against the declared shape and stores it. A listing endpoint works in
four steps:

1. It builds a filter from the query parameters.
2. It fetches the matching documents.
3. It optionally sorts them in memory by a field chosen by the caller.
4. It returns the first `limit` of them.

A schema endpoint names the two collections.

The model has seven modules:

- `Documents` (`documents.dfy`): JSON-like values. A request body and a stored document are both a `map<string, Value>`.
- `Schemas` (`schemas.dfy`): each declared shape as a datatype with a `Valid()` predicate. For each shape it also gives:
  - the field constraints, as the set of fields a payload breaks (`…FailingFields`);
  - a total validation function returning `Accepted(record)` or `Rejected(errors)`;
  - the dump of a record as a stored document, with every field present and an absent optional as `null`.
- `SchemaProperties` (`schema_properties.dfy`): round trips, defaults and error reporting of the validators.
- `DocumentStore` (`document_store.dfy`): a `Store` class holding named collections in insertion order. It also defines filters with MongoDB's matching rules, where an array field matches when one of its elements does. `Find` is selection by a filter; `Insert` appends a document under a given identifier.
- `StableSort` (`stable_sort.dfy`): Python's stable `list.sort(key=…, reverse=…)` on numeric keys. It has a functional specification, a loop implementation proved against it, and proofs that the sort is ordered, a permutation and stable.
- `Api` (`api.dfy`) and `ApiProperties` (`api_properties.dfy`): the handlers of `main.py` and what they promise. This includes a worked run of two creations followed by a sorted, limited listing.

## Model

| member | source | states |
|---|---|---|
| Documents.Get | main.py:82 | `d.get(key)` is present exactly when the key is in the document, and then holds its value |
| Schemas.CheckRequiredString | schemas.py:18 | a required string field accepts exactly a string; a missing one is reported as missing under its own name |
| Schemas.CheckOptionalString | schemas.py:19-21 | an optional string field accepts a missing value, null or a string; missing or null give no value, a string gives itself; any other value is a string-type error |
| Schemas.CheckBool | schemas.py:24-26 | a boolean field accepts a missing value or a boolean; a missing one takes the declared default, a given one keeps its value; any other value is a boolean-type error |
| Schemas.CheckStringList | schemas.py:29-32 | a list-of-strings field accepts a missing value or a list of strings, keeping the items in order; a missing one is the empty list; a non-list is a list-type error; every non-string item has a string-type error at `[field, index]`, and every error is such an item's |
| Schemas.ItemErrorsCover | schemas.py:29-32 | every list item that is not a string has a string-type error at the field and that item's index |
| Schemas.ItemErrorsLocated | schemas.py:29-32 | every item error is a string-type error at the field and the index of an item that is not a string |
| Schemas.CheckOptionalInt | schemas.py:13-15 | an optional integer with `ge=0` accepts a missing value, null or an integer at least the bound, keeping its value; a non-integer is an integer-type error and a smaller integer a too-small error |
| Schemas.CheckOptionalReal | schemas.py:35-36 | an optional float with `ge`/`le` accepts a missing value, null or a number within the bounds, keeping its value; a non-number is a float-type error, a number below the lower bound a too-small error, and one above the upper bound a too-large error |
| Schemas.CheckOptionalObject | schemas.py:38 | an optional nested record accepts a missing value, null or an object its own shape accepts, giving the nested record; a non-object is an object-type error; nested errors are the nested record's errors, each prefixed with the field |
| Schemas.ValidateCtuTimelines | schemas.py:12-15 | accepts exactly the conforming payloads; the record it gives is valid and holds each day count the payload gave, and none for an omitted or null one |
| Schemas.ValidateCtu | schemas.py:17-38 | accepts exactly the payloads in which no CTU field breaks its constraint; the record is valid and holds every value the payload gave, with the declared default for each omitted field (`CtuKeeps`); a rejection carries at least one error |
| Schemas.ValidateStudyLength | schemas.py:41-44 | accepts exactly the conforming payloads; the record is valid and holds each of the three day counts the payload gave |
| Schemas.ValidateAssessmentIntensity | schemas.py:46-48 | accepts exactly the conforming payloads; each flag is the boolean the payload gave, and false when omitted |
| Schemas.ValidateStartupTimelines | schemas.py:50-52 | accepts exactly the conforming payloads; the CTA execution rate is in 0..100 and the turnaround is at least 0, and both are the values the payload gave |
| Schemas.ValidateMonitoring | schemas.py:54-57 | accepts exactly the conforming payloads; every figure is at least 0 and is the value the payload gave |
| Schemas.ValidateBudget | schemas.py:59-62 | accepts exactly the conforming payloads; every amount is at least 0 and is the value the payload gave |
| Schemas.ValidateSponsor | schemas.py:64-73 | accepts exactly the conforming payloads; usability is in 0..10, eligibility rigidity in 0..100, and nested records are valid |
| Schemas.SponsorKeepsGivenValues | schemas.py:64-73 | an accepted Sponsor holds every value the payload gave, with the declared default for each omitted field (`SponsorKeeps`) |
| Schemas.EncodeStrings | schemas.py:29 | a list of strings is dumped as a JSON list with the same items in the same order |
| Schemas.EncodeCtu | schemas.py:17-38 | the dump of a CTU has exactly the twelve declared CTU fields |
| Schemas.EncodeSponsor | schemas.py:64-73 | the dump of a Sponsor has exactly the nine declared Sponsor fields |
| SchemaProperties.StringsRoundTrip | schemas.py:29-32 | a dumped string list validates back to itself |
| SchemaProperties.CtuTimelinesRoundTrip | schemas.py:12-15 | a dumped timelines record validates back to itself exactly when it is valid |
| SchemaProperties.CtuRoundTrip | schemas.py:17-38 | a dumped CTU is accepted iff the CTU is valid, and then validates back to the same record |
| SchemaProperties.CtuRevalidation | schemas.py:17-38 | validation is idempotent: re-validating the dump of an accepted CTU gives the same outcome |
| SchemaProperties.StudyLengthRoundTrip | schemas.py:41-44 | dump then validate is the identity on valid study lengths, and accepts only them |
| SchemaProperties.AssessmentIntensityRoundTrip | schemas.py:46-48 | dump then validate is the identity on assessment intensities |
| SchemaProperties.StartupTimelinesRoundTrip | schemas.py:50-52 | dump then validate is the identity on valid startup timelines, and accepts only them |
| SchemaProperties.MonitoringRoundTrip | schemas.py:54-57 | dump then validate is the identity on valid monitoring records, and accepts only them |
| SchemaProperties.BudgetRoundTrip | schemas.py:59-62 | dump then validate is the identity on valid budgets, and accepts only them |
| SchemaProperties.SponsorRoundTrip | schemas.py:64-73 | a dumped Sponsor is accepted iff the Sponsor is valid, and then validates back to the same record |
| SchemaProperties.SponsorRevalidation | schemas.py:64-73 | validation is idempotent: re-validating the dump of an accepted Sponsor gives the same outcome |
| SchemaProperties.CtuDefaults | schemas.py:24-32 | an omitted list becomes empty; omitted flags are false, false and true |
| SchemaProperties.SponsorDefaults | schemas.py:46-48 | an omitted expertise list becomes empty; omitted assessment flags are false |
| SchemaProperties.CtuErrorsNameFailingFields | schemas.py:17-38 | a rejected CTU payload has errors under exactly the fields whose constraints fail |
| SchemaProperties.SponsorErrorsNameFailingFields | schemas.py:64-73 | a rejected Sponsor payload has errors under exactly the fields whose constraints fail |
| SchemaProperties.CtuWithoutName | schemas.py:18 | a CTU payload without `name` is rejected with a "missing" error at `name` |
| SchemaProperties.SponsorWithoutName | schemas.py:65 | a Sponsor payload without `name` is rejected with a "missing" error at `name` |
| SchemaProperties.SponsorUsabilityOutOfRange | schemas.py:66 | a usability score below 0 or above 10 rejects the Sponsor, with an error under that field |
| DocumentStore.Select | main.py:79 | the selected documents are exactly the stored ones that match the filter; there are never more of them than are stored |
| DocumentStore.SelectAll | main.py:79 | an empty filter selects every document in store order |
| DocumentStore.SelectAppend | main.py:79 | selection distributes over concatenation, so store order is kept |
| DocumentStore.ContainsTag | main.py:77 | `{"$in": [tag]}` on a list field matches exactly when the list holds the tag |
| DocumentStore.Store.Insert | main.py:57 | a reachable store appends the document, with its id, to the named collection and returns the id; an unreachable one fails and changes nothing |
| DocumentStore.Store.Find | main.py:79 | a reachable store returns the matching documents in store order; an unreachable one fails |
| StableSort.Insert | main.py:82 | inserting one element lengthens the sequence by one |
| StableSort.Sort | main.py:82 | the sort has as many elements as its input |
| StableSort.InsertPermutes | main.py:82 | inserting adds exactly the one element |
| StableSort.InsertOrdered | main.py:82 | inserting into an ordered sequence keeps it ordered |
| StableSort.InsertKeyClass | main.py:82 | inserting into an ordered sequence appends the element to the elements with its key |
| StableSort.SortPermutes | main.py:82 | the sort is a permutation of its input |
| StableSort.SortOrdered | main.py:82 | the sort is non-decreasing, or non-increasing with `reverse` |
| StableSort.SortStable | main.py:82 | for every key, elements with that key keep their input order, in both directions |
| StableSort.InsertInOrder | main.py:82 | the loop places the element as the insertion specification does |
| StableSort.SortByKey | main.py:82 | the loop computes the stable sort of its input |
| Api.Truthy | main.py:74-77 | an omitted parameter and an empty string are false, as in Python; a non-empty string is true |
| Api.ResolveLimit | main.py:70 | an omitted limit is 50; a given limit is accepted exactly when it is in 1..200 |
| Api.Descending | main.py:69 | an omitted order sorts descending; a given order sorts descending exactly when it is "desc" |
| Api.CtuFilter | main.py:73-77 | a condition per truthy parameter and only for those: exact match on city, state and country, and `$in` with the one expertise tag |
| Api.BuildCtuFilter | main.py:73-77 | the filter built step by step is the one specified |
| Api.SponsorFilter | main.py:104-105 | only the expertise condition, exactly when the tag is given and non-empty |
| Api.BuildSponsorFilter | main.py:104-105 | the filter built step by step is the one specified |
| Api.SortKey | main.py:82 | `d.get(field) or 0`: a missing field or null counts as 0; integers and floats are their value; a non-empty string gives no numeric key |
| Api.Sortable | main.py:81-82 | the sort can fail only when there are two or more documents and one of them has no numeric key |
| Api.ListResult | main.py:72-85 | a listing either fails with an invalid limit or an unsortable key, or holds no more than 200 documents and no more than are stored |
| Api.ListDocuments | main.py:72-85 | checks the limit, then fails if the store fails, and otherwise returns the specified listing |
| Api.ListCtus | main.py:62-85 | the CTU listing is the specified listing of the `ctu` collection under the CTU filter |
| Api.ListSponsors | main.py:96-112 | the Sponsor listing is the specified listing of the `sponsor` collection under the expertise filter |
| Api.CreateCtu | main.py:54-60 | a rejected body gives its errors and leaves the store unchanged; an accepted one is appended, as its dump with its id, to `ctu`; a store failure is reported |
| Api.CreateSponsor | main.py:88-94 | as for CTUs, on the `sponsor` collection |
| Api.GetSchema | main.py:118-121 | always exactly `["ctu", "sponsor"]` |
| ApiProperties.ListSound | main.py:73-79 | every listed document is stored and satisfies every filter condition |
| ApiProperties.ListLength | main.py:83 | the listing holds the smaller of the limit and the number of matches, and never more than 200 |
| ApiProperties.ListErrors | main.py:70-85 | a listing fails exactly on an out-of-range limit, or on a sort whose keys of two or more matches are not all numeric |
| ApiProperties.ListUnsorted | main.py:79-83 | without `sort_by`, the listing is a prefix of the matches in store order |
| ApiProperties.ListAllUnsorted | main.py:73-83 | without filters and sort, the listing is the first `limit` stored documents |
| ApiProperties.ListOrdered | main.py:81-82 | with `sort_by`, keys are non-increasing for "desc" and non-decreasing otherwise; all listed keys are numeric |
| ApiProperties.ListTopRanked | main.py:81-83 | with `sort_by`, the listing is part of the matches, and no match left out is to be ranked ahead of a listed one |
| ApiProperties.ListStable | main.py:82 | with `sort_by`, the listed documents with each key are the first matches with that key in store order |
| ApiProperties.CtuFilterMatches | main.py:73-77 | a stored CTU matches iff each truthy locale parameter equals its field and the expertise tag is among its tags |
| ApiProperties.SponsorFilterMatches | main.py:104-105 | a stored Sponsor matches iff the expertise tag, when given, is among its tags |
| ApiProperties.NewRecordListedLast | main.py:57-83 | a newly appended matching record is listed last by an unsorted listing whose limit leaves room |
| ApiProperties.StoredCtuRevalidates | main.py:57 | a stored CTU, read back with its `_id`, validates to the stored record |
| ApiProperties.StoredSponsorRevalidates | main.py:91 | a stored Sponsor, read back with its `_id`, validates to the stored record |
| ApiProperties.StoredCtuKeepsVerbatim | main.py:57 | the name and every locale, flag and list field the body gave non-null appears unchanged in the stored CTU document |
| ApiProperties.StoredCtuMatches | main.py:73-79 | a stored CTU matches a listing filter whenever the body it was created from does |
| ApiProperties.CreatedCtuListed | main.py:54-85 | after an accepted body is stored, an unsorted CTU listing with room lists the matches already stored followed by the new document; it carries its id, validates as the body did and holds the body's given values |
| ApiProperties.StoredSponsorMatches | main.py:104-105 | a stored Sponsor matches the expertise filter whenever the body it was created from does |
| ApiProperties.CreatedSponsorListed | main.py:88-112 | after an accepted body is stored, an unsorted Sponsor listing with room lists the matches already stored followed by the new document, which carries its id and validates as the body did |
| ApiProperties.CreateThenListCtus | main.py:54-85 | creating a CTU then listing CTUs on a reachable store returns the id, then the earlier matches followed by the dump of the body's record with that id |
| ApiProperties.AustinSiteValidates | schemas.py:17-38 | the body `{name, city: "Austin", recruitment_velocity}` validates to a CTU with every other field defaulted |
| ApiProperties.AustinListing | main.py:81-83 | of the Austin sites with velocities 5 and 10, the descending velocity listing with limit 1 is the faster site |
| ApiProperties.AustinScenario | main.py:54-85 | creating Site A (velocity 5) and Site B (velocity 10) in Austin, then listing Austin by velocity, descending, limit 1, returns exactly Site B |

## Left out

- The `/` and `/test` endpoints (`read_root`, `test_database`): they report liveness and connectivity and hold no logic of the core.
- `database.py` is not part of this model. The store is the `Store` class, and its reachability is a flag. A new document's identifier is a parameter of the create calls and is stored as `_id`. Any other field the helper adds at insertion is not modelled.
- HTTP, JSON parsing, CORS and the uvicorn startup are not modelled. The handlers take parsed query parameters and parsed bodies. An HTTP 500 is a `PersistenceError` or an `UnsortableKey` result. A 422 is `InvalidPayload` or `InvalidLimit`.
- Pydantic's lax coercions are not modelled: numeric strings, integral floats for integer fields, booleans for integer and float fields (`true` as 1), and numbers or strings for booleans. The model accepts only the exact JSON type, except that an integer is accepted for a float field. It is therefore stricter than the source on such inputs.
- Api.ResolveLimit: a limit that is not an integer is not modelled, since the parameter arrives already parsed as an integer.
- Schemas.ValidateSponsor: its own contract does not say that the record holds the payload's values. The lemma `Schemas.SponsorKeepsGivenValues` states it for every accepted payload.
- Api.SortKey: non-numeric sort keys are stated more weakly than the source behaves. With two or more matches the model returns `UnsortableKey` as soon as one key is a non-empty string, list or object. Python raises `TypeError` (an HTTP 500) when it has to compare a string with a number, which always happens in that case when the keys' types are mixed. But Python sorts lexicographically, without error, when every key is a non-empty string, or when every key is a list.
- In-place mutation is not modelled. `docs.sort` mutates the fetched list in place; the model's sort returns a new sequence, and nothing else can observe that list.
- Floats are modelled as mathematical reals, with no rounding, NaN or infinities.
- The text of error messages is not modelled. Errors carry a location and a kind.
- Extra fields in a body are ignored, as Pydantic's default does: validation only reads the declared fields.
