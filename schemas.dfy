/** The CTU and Sponsor record shapes (schemas.py): typed records, the
    constraints on their fields, validation of an untyped payload with the
    declared defaults applied, and the encoding a validated record is stored
    in. */
module Schemas {
  import opened Documents

  // ------------------------------------------------------------------
  // Validation errors
  // ------------------------------------------------------------------

  /** One step of an error location: a field name or a list index. */
  datatype LocPart = Field(name: string) | Index(i: nat)

  datatype ErrorKind =
    | Missing      // a required field is absent
    | StringType   // a value that should be a string is not
    | IntType
    | FloatType
    | BoolType
    | ListType
    | ObjectType   // a nested record is neither an object nor null
    | TooSmall     // a number below its lower bound
    | TooLarge     // a number above its upper bound

  datatype FieldError = FieldError(loc: seq<LocPart>, kind: ErrorKind)

  /** The result of validating a payload or one of its fields. */
  datatype Outcome<+T> = Accepted(value: T) | Rejected(errors: seq<FieldError>)

  function ErrorsOf<T>(o: Outcome<T>): seq<FieldError>
  {
    if o.Rejected? then o.errors else []
  }

  /** A single error located at top-level field `key`. */
  function At(key: string, kind: ErrorKind): seq<FieldError>
  {
    [FieldError([Field(key)], kind)]
  }

  /** Every error in `es` is located under top-level field `key`. */
  predicate AllUnder(es: seq<FieldError>, key: string)
  {
    forall i :: 0 <= i < |es| ==> |es[i].loc| > 0 && es[i].loc[0] == Field(key)
  }

  /** The top-level fields that the errors `es` point at. */
  function Heads(es: seq<FieldError>): set<string>
  {
    set i | 0 <= i < |es| && |es[i].loc| > 0 && es[i].loc[0].Field? :: es[i].loc[0].name
  }

  /** The field `key` when `ok` is false, nothing otherwise. */
  function Unless(ok: bool, key: string): set<string>
  {
    if ok then {} else {key}
  }

  /** An outcome that checked field `key`: it is rejected with at least one
      error, all of them under `key`, or accepted. */
  predicate ReportsUnder<T>(o: Outcome<T>, key: string)
  {
    o.Rejected? ==> |o.errors| > 0 && AllUnder(o.errors, key)
  }

  lemma HeadsAppend(a: seq<FieldError>, b: seq<FieldError>)
    ensures Heads(a + b) == Heads(a) + Heads(b)
  {
    var ab := a + b;
    forall n | n in Heads(ab) ensures n in Heads(a) + Heads(b) {
      var i :| 0 <= i < |ab| && |ab[i].loc| > 0 && ab[i].loc[0].Field? && ab[i].loc[0].name == n;
      if i < |a| {
        assert ab[i] == a[i];
      } else {
        assert ab[i] == b[i - |a|];
      }
    }
    forall n | n in Heads(a) + Heads(b) ensures n in Heads(ab) {
      if n in Heads(a) {
        var i :| 0 <= i < |a| && |a[i].loc| > 0 && a[i].loc[0].Field? && a[i].loc[0].name == n;
        assert ab[i] == a[i];
      } else {
        var i :| 0 <= i < |b| && |b[i].loc| > 0 && b[i].loc[0].Field? && b[i].loc[0].name == n;
        assert ab[|a| + i] == b[i];
      }
    }
  }

  /** A field check contributes exactly its own name to the reported fields
      when, and only when, it rejects. */
  lemma HeadsOfCheck<T>(o: Outcome<T>, key: string)
    requires ReportsUnder(o, key)
    ensures Heads(ErrorsOf(o)) == Unless(o.Accepted?, key)
  {
    if o.Rejected? {
      assert o.errors[0].loc[0] == Field(key);
      assert key in Heads(o.errors);
    }
  }

  // ------------------------------------------------------------------
  // Field constraints on untyped values
  // ------------------------------------------------------------------

  /** An optional field that is missing or explicitly null. */
  predicate Absent(v: Option<Value>)
  {
    v.None? || v.value.Null?
  }

  /** A value a Python float field accepts: an integer or a real number. */
  predicate IsNumber(v: Value)
  {
    v.Int? || v.Num?
  }

  function NumberOf(v: Value): real
    requires IsNumber(v)
  {
    if v.Int? then v.i as real else v.x
  }

  predicate RequiredStringOk(v: Option<Value>)
  {
    v.Some? && v.value.Str?
  }

  predicate OptionalStringOk(v: Option<Value>)
  {
    Absent(v) || v.value.Str?
  }

  /** A boolean with a declared default: missing, or a boolean (null is not a
      boolean). */
  predicate BoolOk(v: Option<Value>)
  {
    v.None? || v.value.Bool?
  }

  /** A list of strings with an empty default: missing, or a list whose every
      item is a string. */
  predicate StringListOk(v: Option<Value>)
  {
    v.None? || (v.value.List? && forall i :: 0 <= i < |v.value.items| ==> v.value.items[i].Str?)
  }

  /** An optional integer with lower bound `lo`. */
  predicate OptionalIntOk(v: Option<Value>, lo: int)
  {
    Absent(v) || (v.value.Int? && lo <= v.value.i)
  }

  /** An optional float with lower bound `lo` and, when given, upper bound `hi`. */
  predicate OptionalRealOk(v: Option<Value>, lo: real, hi: Option<real>)
  {
    Absent(v) || (IsNumber(v.value) && lo <= NumberOf(v.value) && (hi.None? || NumberOf(v.value) <= hi.value))
  }

  /** An optional nested record: absent, or an object the nested shape accepts. */
  predicate OptionalObjectOk(v: Option<Value>, conforms: Doc -> bool)
  {
    Absent(v) || (v.value.Obj? && conforms(v.value.fields))
  }

  // ------------------------------------------------------------------
  // What an accepted field holds: the value the payload gave, or the
  // declared default when it gave none.
  // ------------------------------------------------------------------

  predicate KeepsOptionalString(v: Option<Value>, x: Option<string>)
  {
    if Absent(v) then x.None? else x.Some? && v.value == Str(x.value)
  }

  predicate KeepsBool(v: Option<Value>, default: bool, x: bool)
  {
    if v.None? then x == default else v.value == Bool(x)
  }

  predicate KeepsStrings(v: Option<Value>, xs: seq<string>)
  {
    if v.None? then xs == [] else v.value == EncodeStrings(xs)
  }

  predicate KeepsOptionalInt(v: Option<Value>, x: Option<int>)
  {
    if Absent(v) then x.None? else x.Some? && v.value == Int(x.value)
  }

  /** A float field holds the number given, an integer read as a real. */
  predicate KeepsOptionalReal(v: Option<Value>, x: Option<real>)
  {
    if Absent(v) then x.None? else x.Some? && IsNumber(v.value) && x.value == NumberOf(v.value)
  }

  /** A nested record field holds what the nested shape makes of the object given. */
  predicate KeepsOptionalObject<T(==)>(v: Option<Value>, x: Option<T>, validate: Doc -> Outcome<T>)
  {
    if Absent(v) then x.None? else x.Some? && v.value.Obj? && validate(v.value.fields) == Accepted(x.value)
  }

  // ------------------------------------------------------------------
  // Field checks: each accepts exactly what its constraint allows, yields
  // the typed value with the default applied, and otherwise reports errors
  // under the field's name.
  // ------------------------------------------------------------------

  function CheckRequiredString(v: Option<Value>, key: string): (r: Outcome<string>)
    ensures r.Accepted? <==> RequiredStringOk(v)
    ensures r.Accepted? ==> v == Some(Str(r.value))
    ensures v.None? ==> r == Rejected(At(key, Missing))
    ensures v.Some? && !v.value.Str? ==> r == Rejected(At(key, StringType))
    ensures ReportsUnder(r, key)
  {
    match v
    case None => Rejected(At(key, Missing))
    case Some(Str(s)) => Accepted(s)
    case Some(_) => Rejected(At(key, StringType))
  }

  function CheckOptionalString(v: Option<Value>, key: string): (r: Outcome<Option<string>>)
    ensures r.Accepted? <==> OptionalStringOk(v)
    ensures r.Accepted? ==> (r.value.None? <==> Absent(v))
    ensures r.Accepted? && r.value.Some? ==> v == Some(Str(r.value.value))
    ensures r.Accepted? ==> KeepsOptionalString(v, r.value)
    ensures !Absent(v) && !v.value.Str? ==> r == Rejected(At(key, StringType))
    ensures ReportsUnder(r, key)
  {
    match v
    case None => Accepted(None)
    case Some(Null) => Accepted(None)
    case Some(Str(s)) => Accepted(Some(s))
    case Some(_) => Rejected(At(key, StringType))
  }

  function CheckBool(v: Option<Value>, key: string, default: bool): (r: Outcome<bool>)
    ensures r.Accepted? <==> BoolOk(v)
    ensures v.None? ==> r == Accepted(default)
    ensures r.Accepted? && v.Some? ==> v == Some(Bool(r.value))
    ensures r.Accepted? ==> KeepsBool(v, default, r.value)
    ensures v.Some? && !v.value.Bool? ==> r == Rejected(At(key, BoolType))
    ensures ReportsUnder(r, key)
  {
    match v
    case None => Accepted(default)
    case Some(Bool(b)) => Accepted(b)
    case Some(_) => Rejected(At(key, BoolType))
  }

  /** One error per list item that is not a string, at [key, index]. */
  function ItemErrors(items: seq<Value>, key: string, from: nat): (r: seq<FieldError>)
    ensures r == [] <==> forall i :: 0 <= i < |items| ==> items[i].Str?
    ensures AllUnder(r, key)
    decreases |items|
  {
    if items == [] then []
    else
      var here := if items[0].Str? then [] else [FieldError([Field(key), Index(from)], StringType)];
      var rest := ItemErrors(items[1..], key, from + 1);
      assert forall i :: 1 <= i < |items| ==> items[i] == items[1..][i - 1];
      here + rest
  }

  /** Every item that is not a string has a string-type error located at the
      field and the item's index. */
  lemma {:induction false} ItemErrorsCover(items: seq<Value>, key: string, from: nat)
    ensures forall i :: 0 <= i < |items| && !items[i].Str? ==>
      FieldError([Field(key), Index(from + i)], StringType) in ItemErrors(items, key, from)
    decreases |items|
  {
    if items != [] {
      var here := if items[0].Str? then [] else [FieldError([Field(key), Index(from)], StringType)];
      var rest := ItemErrors(items[1..], key, from + 1);
      assert ItemErrors(items, key, from) == here + rest;
      ItemErrorsCover(items[1..], key, from + 1);
      forall i | 1 <= i < |items| && !items[i].Str?
        ensures FieldError([Field(key), Index(from + i)], StringType) in rest
      {
        assert items[1..][i - 1] == items[i];
        assert from + 1 + (i - 1) == from + i;
      }
    }
  }

  /** Every item error is a string-type error at the field and the index of
      an item that is not a string. */
  lemma {:induction false} ItemErrorsLocated(items: seq<Value>, key: string, from: nat)
    ensures forall e :: e in ItemErrors(items, key, from) ==>
      && e.kind == StringType && |e.loc| == 2 && e.loc[0] == Field(key) && e.loc[1].Index?
      && from <= e.loc[1].i < from + |items| && !items[e.loc[1].i - from].Str?
    decreases |items|
  {
    if items != [] {
      var here := if items[0].Str? then [] else [FieldError([Field(key), Index(from)], StringType)];
      var rest := ItemErrors(items[1..], key, from + 1);
      assert ItemErrors(items, key, from) == here + rest;
      ItemErrorsLocated(items[1..], key, from + 1);
      forall e | e in rest
        ensures from < e.loc[1].i < from + |items| && !items[e.loc[1].i - from].Str?
      {
        assert items[1..][e.loc[1].i - (from + 1)] == items[e.loc[1].i - from];
      }
    }
  }

  function Strings(items: seq<Value>): (r: seq<string>)
    requires forall i :: 0 <= i < |items| ==> items[i].Str?
    ensures |r| == |items|
    ensures forall i :: 0 <= i < |items| ==> items[i] == Str(r[i])
  {
    seq(|items|, i requires 0 <= i < |items| => items[i].s)
  }

  function CheckStringList(v: Option<Value>, key: string): (r: Outcome<seq<string>>)
    ensures r.Accepted? <==> StringListOk(v)
    ensures v.None? ==> r == Accepted([])
    ensures r.Accepted? && v.Some? ==> v.value.List? && v.value.items == EncodeStrings(r.value).items
    ensures r.Accepted? ==> KeepsStrings(v, r.value)
    ensures v.Some? && !v.value.List? ==> r == Rejected(At(key, ListType))
    ensures v.Some? && v.value.List? ==> forall i :: 0 <= i < |v.value.items| && !v.value.items[i].Str? ==>
      r.Rejected? && FieldError([Field(key), Index(i)], StringType) in r.errors
    ensures r.Rejected? && v.Some? && v.value.List? ==> forall e :: e in r.errors ==>
      && e.kind == StringType && |e.loc| == 2 && e.loc[0] == Field(key) && e.loc[1].Index?
      && e.loc[1].i < |v.value.items| && !v.value.items[e.loc[1].i].Str?
    ensures ReportsUnder(r, key)
  {
    match v
    case None => Accepted([])
    case Some(List(items)) =>
      var errs := ItemErrors(items, key, 0);
      ItemErrorsCover(items, key, 0);
      ItemErrorsLocated(items, key, 0);
      if errs == [] then
        var r := Strings(items);
        assert items == EncodeStrings(r).items;
        Accepted(r)
      else Rejected(errs)
    case Some(_) => Rejected(At(key, ListType))
  }

  function CheckOptionalInt(v: Option<Value>, key: string, lo: int): (r: Outcome<Option<int>>)
    ensures r.Accepted? <==> OptionalIntOk(v, lo)
    ensures r.Accepted? ==> (r.value.None? <==> Absent(v))
    ensures r.Accepted? && r.value.Some? ==> v == Some(Int(r.value.value))
    ensures r.Accepted? ==> KeepsOptionalInt(v, r.value)
    ensures !Absent(v) && !v.value.Int? ==> r == Rejected(At(key, IntType))
    ensures !Absent(v) && v.value.Int? && v.value.i < lo ==> r == Rejected(At(key, TooSmall))
    ensures ReportsUnder(r, key)
  {
    match v
    case None => Accepted(None)
    case Some(Null) => Accepted(None)
    case Some(Int(i)) => if lo <= i then Accepted(Some(i)) else Rejected(At(key, TooSmall))
    case Some(_) => Rejected(At(key, IntType))
  }

  function CheckOptionalReal(v: Option<Value>, key: string, lo: real, hi: Option<real>): (r: Outcome<Option<real>>)
    ensures r.Accepted? <==> OptionalRealOk(v, lo, hi)
    ensures r.Accepted? ==> (r.value.None? <==> Absent(v))
    ensures r.Accepted? && r.value.Some? ==> IsNumber(v.value) && r.value.value == NumberOf(v.value)
    ensures r.Accepted? ==> KeepsOptionalReal(v, r.value)
    ensures !Absent(v) && !IsNumber(v.value) ==> r == Rejected(At(key, FloatType))
    ensures !Absent(v) && IsNumber(v.value) && NumberOf(v.value) < lo ==> r == Rejected(At(key, TooSmall))
    ensures !Absent(v) && IsNumber(v.value) && lo <= NumberOf(v.value) && hi.Some? && hi.value < NumberOf(v.value) ==>
      r == Rejected(At(key, TooLarge))
    ensures ReportsUnder(r, key)
  {
    if Absent(v) then Accepted(None)
    else if !IsNumber(v.value) then Rejected(At(key, FloatType))
    else
      var x := NumberOf(v.value);
      if x < lo then Rejected(At(key, TooSmall))
      else if hi.Some? && hi.value < x then Rejected(At(key, TooLarge))
      else Accepted(Some(x))
  }

  /** Every error of a nested record, relocated under the field `key`. */
  function Prefixed(key: string, es: seq<FieldError>): (r: seq<FieldError>)
    ensures |r| == |es|
    ensures forall i :: 0 <= i < |es| ==> r[i].loc == [Field(key)] + es[i].loc && r[i].kind == es[i].kind
    ensures AllUnder(r, key)
  {
    seq(|es|, i requires 0 <= i < |es| => FieldError([Field(key)] + es[i].loc, es[i].kind))
  }

  function CheckOptionalObject<T(==)>(v: Option<Value>, key: string, validate: Doc -> Outcome<T>): (r: Outcome<Option<T>>)
    ensures r.Accepted? <==> Absent(v) || (v.value.Obj? && validate(v.value.fields).Accepted?)
    ensures r.Accepted? ==> (r.value.None? <==> Absent(v))
    ensures r.Accepted? && r.value.Some? ==> r.value.value == validate(v.value.fields).value
    ensures r.Accepted? ==> KeepsOptionalObject(v, r.value, validate)
    ensures !Absent(v) && !v.value.Obj? ==> r == Rejected(At(key, ObjectType))
    ensures !Absent(v) && v.value.Obj? && validate(v.value.fields).Rejected? ==>
      r == Rejected(Prefixed(key, validate(v.value.fields).errors))
    ensures (forall m :: validate(m).Rejected? ==> |validate(m).errors| > 0) ==> ReportsUnder(r, key)
  {
    match v
    case None => Accepted(None)
    case Some(Null) => Accepted(None)
    case Some(Obj(m)) =>
      (match validate(m)
       case Accepted(t) => Accepted(Some(t))
       case Rejected(es) => Rejected(Prefixed(key, es)))
    case Some(_) => Rejected(At(key, ObjectType))
  }

  // ------------------------------------------------------------------
  // Typed records and their validity
  // ------------------------------------------------------------------

  predicate NonNegativeInt(x: Option<int>)
  {
    x.None? || 0 <= x.value
  }

  predicate RealWithin(x: Option<real>, lo: real, hi: Option<real>)
  {
    x.None? || (lo <= x.value && (hi.None? || x.value <= hi.value))
  }

  datatype CtuTimelines = CtuTimelines(
    feasibilityToHrecDays: Option<int>,
    hrecToSiteinitDays: Option<int>,
    siteinitToFpiDays: Option<int>)
  {
    predicate Valid()
    {
      NonNegativeInt(feasibilityToHrecDays) && NonNegativeInt(hrecToSiteinitDays) && NonNegativeInt(siteinitToFpiDays)
    }
  }

  datatype Ctu = Ctu(
    name: string,
    city: Option<string>,
    state: Option<string>,
    country: Option<string>,
    inpatientConfinement: bool,
    telemetry24h: bool,
    outpatientClinic: bool,
    trialExpertise: seq<string>,
    techStack: seq<string>,
    recruitmentVelocity: Option<real>,
    dataQualityPdpp: Option<real>,
    timelines: Option<CtuTimelines>)
  {
    predicate Valid()
    {
      && RealWithin(recruitmentVelocity, 0.0, None)
      && RealWithin(dataQualityPdpp, 0.0, None)
      && (timelines.Some? ==> timelines.value.Valid())
    }
  }

  datatype SponsorStudyLength = SponsorStudyLength(
    confinementDays: Option<int>,
    outpatientDays: Option<int>,
    followupCadenceDays: Option<int>)
  {
    predicate Valid()
    {
      NonNegativeInt(confinementDays) && NonNegativeInt(outpatientDays) && NonNegativeInt(followupCadenceDays)
    }
  }

  datatype SponsorAssessmentIntensity = SponsorAssessmentIntensity(
    pkSampling: bool,
    exploratoryEndpoints: bool)

  datatype SponsorStartupTimelines = SponsorStartupTimelines(
    ctaExecutionRate: Option<real>,
    feasibilityTurnaroundDays: Option<int>)
  {
    predicate Valid()
    {
      RealWithin(ctaExecutionRate, 0.0, Some(100.0)) && NonNegativeInt(feasibilityTurnaroundDays)
    }
  }

  datatype SponsorMonitoring = SponsorMonitoring(
    visitFrequencyDays: Option<int>,
    craQueryRate: Option<real>,
    queryClosureDays: Option<int>)
  {
    predicate Valid()
    {
      NonNegativeInt(visitFrequencyDays) && RealWithin(craQueryRate, 0.0, None) && NonNegativeInt(queryClosureDays)
    }
  }

  datatype SponsorBudget = SponsorBudget(
    screenFailReimbursement: Option<real>,
    perPatientPayment: Option<real>,
    startupFee: Option<real>)
  {
    predicate Valid()
    {
      RealWithin(screenFailReimbursement, 0.0, None) && RealWithin(perPatientPayment, 0.0, None) && RealWithin(startupFee, 0.0, None)
    }
  }

  datatype Sponsor = Sponsor(
    name: string,
    ecrfEdcUsability: Option<real>,
    studyLength: Option<SponsorStudyLength>,
    assessmentIntensity: Option<SponsorAssessmentIntensity>,
    eligibilityRigidityPct: Option<real>,
    startupTimelines: Option<SponsorStartupTimelines>,
    monitoring: Option<SponsorMonitoring>,
    trialExpertise: seq<string>,
    budget: Option<SponsorBudget>)
  {
    predicate Valid()
    {
      && RealWithin(ecrfEdcUsability, 0.0, Some(10.0))
      && (studyLength.Some? ==> studyLength.value.Valid())
      && RealWithin(eligibilityRigidityPct, 0.0, Some(100.0))
      && (startupTimelines.Some? ==> startupTimelines.value.Valid())
      && (monitoring.Some? ==> monitoring.value.Valid())
      && (budget.Some? ==> budget.value.Valid())
    }
  }

  // ------------------------------------------------------------------
  // The constraints of each shape, field by field: the fields of a payload
  // that break their constraint. A payload conforms when there are none.
  // ------------------------------------------------------------------

  function CtuTimelinesFailingFields(p: Doc): set<string>
  {
    Unless(OptionalIntOk(Get(p, "feasibility_to_hrec_days"), 0), "feasibility_to_hrec_days")
    + Unless(OptionalIntOk(Get(p, "hrec_to_siteinit_days"), 0), "hrec_to_siteinit_days")
    + Unless(OptionalIntOk(Get(p, "siteinit_to_fpi_days"), 0), "siteinit_to_fpi_days")
  }

  predicate CtuTimelinesConform(p: Doc)
  {
    CtuTimelinesFailingFields(p) == {}
  }

  /** The failing fields among a CTU's name and locale. */
  function CtuLocaleFailingFields(p: Doc): set<string>
  {
    Unless(RequiredStringOk(Get(p, "name")), "name")
    + Unless(OptionalStringOk(Get(p, "city")), "city")
    + Unless(OptionalStringOk(Get(p, "state")), "state")
    + Unless(OptionalStringOk(Get(p, "country")), "country")
  }

  /** The failing fields among a CTU's site capabilities, expertise and tech stack. */
  function CtuCapabilityFailingFields(p: Doc): set<string>
  {
    Unless(BoolOk(Get(p, "inpatient_confinement")), "inpatient_confinement")
    + Unless(BoolOk(Get(p, "telemetry_24h")), "telemetry_24h")
    + Unless(BoolOk(Get(p, "outpatient_clinic")), "outpatient_clinic")
    + Unless(StringListOk(Get(p, "trial_expertise")), "trial_expertise")
    + Unless(StringListOk(Get(p, "tech_stack")), "tech_stack")
  }

  /** The failing fields among a CTU's performance metrics and timelines. */
  function CtuPerformanceFailingFields(p: Doc): set<string>
  {
    Unless(OptionalRealOk(Get(p, "recruitment_velocity"), 0.0, None), "recruitment_velocity")
    + Unless(OptionalRealOk(Get(p, "data_quality_pdpp"), 0.0, None), "data_quality_pdpp")
    + Unless(OptionalObjectOk(Get(p, "timelines"), CtuTimelinesConform), "timelines")
  }

  function CtuFailingFields(p: Doc): set<string>
  {
    CtuLocaleFailingFields(p) + CtuCapabilityFailingFields(p) + CtuPerformanceFailingFields(p)
  }

  predicate CtuConforms(p: Doc)
  {
    CtuFailingFields(p) == {}
  }

  function StudyLengthFailingFields(p: Doc): set<string>
  {
    Unless(OptionalIntOk(Get(p, "confinement_days"), 0), "confinement_days")
    + Unless(OptionalIntOk(Get(p, "outpatient_days"), 0), "outpatient_days")
    + Unless(OptionalIntOk(Get(p, "followup_cadence_days"), 0), "followup_cadence_days")
  }

  predicate StudyLengthConforms(p: Doc)
  {
    StudyLengthFailingFields(p) == {}
  }

  function AssessmentIntensityFailingFields(p: Doc): set<string>
  {
    Unless(BoolOk(Get(p, "pk_sampling")), "pk_sampling")
    + Unless(BoolOk(Get(p, "exploratory_endpoints")), "exploratory_endpoints")
  }

  predicate AssessmentIntensityConforms(p: Doc)
  {
    AssessmentIntensityFailingFields(p) == {}
  }

  function StartupTimelinesFailingFields(p: Doc): set<string>
  {
    Unless(OptionalRealOk(Get(p, "cta_execution_rate"), 0.0, Some(100.0)), "cta_execution_rate")
    + Unless(OptionalIntOk(Get(p, "feasibility_turnaround_days"), 0), "feasibility_turnaround_days")
  }

  predicate StartupTimelinesConform(p: Doc)
  {
    StartupTimelinesFailingFields(p) == {}
  }

  function MonitoringFailingFields(p: Doc): set<string>
  {
    Unless(OptionalIntOk(Get(p, "visit_frequency_days"), 0), "visit_frequency_days")
    + Unless(OptionalRealOk(Get(p, "cra_query_rate"), 0.0, None), "cra_query_rate")
    + Unless(OptionalIntOk(Get(p, "query_closure_days"), 0), "query_closure_days")
  }

  predicate MonitoringConforms(p: Doc)
  {
    MonitoringFailingFields(p) == {}
  }

  function BudgetFailingFields(p: Doc): set<string>
  {
    Unless(OptionalRealOk(Get(p, "screen_fail_reimbursement"), 0.0, None), "screen_fail_reimbursement")
    + Unless(OptionalRealOk(Get(p, "per_patient_payment"), 0.0, None), "per_patient_payment")
    + Unless(OptionalRealOk(Get(p, "startup_fee"), 0.0, None), "startup_fee")
  }

  predicate BudgetConforms(p: Doc)
  {
    BudgetFailingFields(p) == {}
  }

  /** The failing fields among a Sponsor's name, usability score and study design. */
  function SponsorStudyFailingFields(p: Doc): set<string>
  {
    Unless(RequiredStringOk(Get(p, "name")), "name")
    + Unless(OptionalRealOk(Get(p, "ecrf_edc_usability"), 0.0, Some(10.0)), "ecrf_edc_usability")
    + Unless(OptionalObjectOk(Get(p, "study_length"), StudyLengthConforms), "study_length")
    + Unless(OptionalObjectOk(Get(p, "assessment_intensity"), AssessmentIntensityConforms), "assessment_intensity")
  }

  /** The failing fields among a Sponsor's eligibility, operations, expertise and budget. */
  function SponsorOperationsFailingFields(p: Doc): set<string>
  {
    Unless(OptionalRealOk(Get(p, "eligibility_rigidity_pct"), 0.0, Some(100.0)), "eligibility_rigidity_pct")
    + Unless(OptionalObjectOk(Get(p, "startup_timelines"), StartupTimelinesConform), "startup_timelines")
    + Unless(OptionalObjectOk(Get(p, "monitoring"), MonitoringConforms), "monitoring")
    + Unless(StringListOk(Get(p, "trial_expertise")), "trial_expertise")
    + Unless(OptionalObjectOk(Get(p, "budget"), BudgetConforms), "budget")
  }

  function SponsorFailingFields(p: Doc): set<string>
  {
    SponsorStudyFailingFields(p) + SponsorOperationsFailingFields(p)
  }

  predicate SponsorConforms(p: Doc)
  {
    SponsorFailingFields(p) == {}
  }

  // ------------------------------------------------------------------
  // Validation
  // ------------------------------------------------------------------

  /** The CTU `c` holds every value the payload `p` gave, and the declared
      default for every field it omitted. */
  predicate CtuKeeps(p: Doc, c: Ctu)
  {
    && Get(p, "name") == Some(Str(c.name))
    && KeepsOptionalString(Get(p, "city"), c.city)
    && KeepsOptionalString(Get(p, "state"), c.state)
    && KeepsOptionalString(Get(p, "country"), c.country)
    && KeepsBool(Get(p, "inpatient_confinement"), false, c.inpatientConfinement)
    && KeepsBool(Get(p, "telemetry_24h"), false, c.telemetry24h)
    && KeepsBool(Get(p, "outpatient_clinic"), true, c.outpatientClinic)
    && KeepsStrings(Get(p, "trial_expertise"), c.trialExpertise)
    && KeepsStrings(Get(p, "tech_stack"), c.techStack)
    && KeepsOptionalReal(Get(p, "recruitment_velocity"), c.recruitmentVelocity)
    && KeepsOptionalReal(Get(p, "data_quality_pdpp"), c.dataQualityPdpp)
    && KeepsOptionalObject(Get(p, "timelines"), c.timelines, ValidateCtuTimelines)
  }

  /** The Sponsor `s` holds every value the payload `p` gave, and the
      declared default for every field it omitted. */
  predicate SponsorKeeps(p: Doc, s: Sponsor)
  {
    && Get(p, "name") == Some(Str(s.name))
    && KeepsOptionalReal(Get(p, "ecrf_edc_usability"), s.ecrfEdcUsability)
    && KeepsOptionalObject(Get(p, "study_length"), s.studyLength, ValidateStudyLength)
    && KeepsOptionalObject(Get(p, "assessment_intensity"), s.assessmentIntensity, ValidateAssessmentIntensity)
    && KeepsOptionalReal(Get(p, "eligibility_rigidity_pct"), s.eligibilityRigidityPct)
    && KeepsOptionalObject(Get(p, "startup_timelines"), s.startupTimelines, ValidateStartupTimelines)
    && KeepsOptionalObject(Get(p, "monitoring"), s.monitoring, ValidateMonitoring)
    && KeepsStrings(Get(p, "trial_expertise"), s.trialExpertise)
    && KeepsOptionalObject(Get(p, "budget"), s.budget, ValidateBudget)
  }

  function ValidateCtuTimelines(p: Doc): (r: Outcome<CtuTimelines>)
    ensures r.Accepted? <==> CtuTimelinesConform(p)
    ensures r.Accepted? ==> r.value.Valid()
    ensures r.Accepted? ==>
      && KeepsOptionalInt(Get(p, "feasibility_to_hrec_days"), r.value.feasibilityToHrecDays)
      && KeepsOptionalInt(Get(p, "hrec_to_siteinit_days"), r.value.hrecToSiteinitDays)
      && KeepsOptionalInt(Get(p, "siteinit_to_fpi_days"), r.value.siteinitToFpiDays)
    ensures r.Rejected? ==> |r.errors| > 0
  {
    var a := CheckOptionalInt(Get(p, "feasibility_to_hrec_days"), "feasibility_to_hrec_days", 0);
    var b := CheckOptionalInt(Get(p, "hrec_to_siteinit_days"), "hrec_to_siteinit_days", 0);
    var c := CheckOptionalInt(Get(p, "siteinit_to_fpi_days"), "siteinit_to_fpi_days", 0);
    if a.Accepted? && b.Accepted? && c.Accepted? then
      Accepted(CtuTimelines(a.value, b.value, c.value))
    else
      Rejected(ErrorsOf(a) + ErrorsOf(b) + ErrorsOf(c))
  }

  function ValidateCtu(p: Doc): (r: Outcome<Ctu>)
    ensures r.Accepted? <==> CtuConforms(p)
    ensures r.Accepted? ==> r.value.Valid()
    ensures r.Accepted? ==> CtuKeeps(p, r.value)
    ensures r.Rejected? ==> |r.errors| > 0
  {
    var name := CheckRequiredString(Get(p, "name"), "name");
    var city := CheckOptionalString(Get(p, "city"), "city");
    var state := CheckOptionalString(Get(p, "state"), "state");
    var country := CheckOptionalString(Get(p, "country"), "country");
    var inpatient := CheckBool(Get(p, "inpatient_confinement"), "inpatient_confinement", false);
    var telemetry := CheckBool(Get(p, "telemetry_24h"), "telemetry_24h", false);
    var outpatient := CheckBool(Get(p, "outpatient_clinic"), "outpatient_clinic", true);
    var expertise := CheckStringList(Get(p, "trial_expertise"), "trial_expertise");
    var tech := CheckStringList(Get(p, "tech_stack"), "tech_stack");
    var velocity := CheckOptionalReal(Get(p, "recruitment_velocity"), "recruitment_velocity", 0.0, None);
    var quality := CheckOptionalReal(Get(p, "data_quality_pdpp"), "data_quality_pdpp", 0.0, None);
    var timelines := CheckOptionalObject(Get(p, "timelines"), "timelines", ValidateCtuTimelines);
    if && name.Accepted? && city.Accepted? && state.Accepted? && country.Accepted?
       && inpatient.Accepted? && telemetry.Accepted? && outpatient.Accepted?
       && expertise.Accepted? && tech.Accepted? && velocity.Accepted? && quality.Accepted?
       && timelines.Accepted?
    then
      Accepted(Ctu(name.value, city.value, state.value, country.value,
                   inpatient.value, telemetry.value, outpatient.value,
                   expertise.value, tech.value, velocity.value, quality.value, timelines.value))
    else
      var locale := ErrorsOf(name) + ErrorsOf(city) + ErrorsOf(state) + ErrorsOf(country);
      var capability := ErrorsOf(inpatient) + ErrorsOf(telemetry) + ErrorsOf(outpatient)
                        + ErrorsOf(expertise) + ErrorsOf(tech);
      var performance := ErrorsOf(velocity) + ErrorsOf(quality) + ErrorsOf(timelines);
      Rejected(locale + capability + performance)
  }

  function ValidateStudyLength(p: Doc): (r: Outcome<SponsorStudyLength>)
    ensures r.Accepted? <==> StudyLengthConforms(p)
    ensures r.Accepted? ==> r.value.Valid()
    ensures r.Accepted? ==>
      && KeepsOptionalInt(Get(p, "confinement_days"), r.value.confinementDays)
      && KeepsOptionalInt(Get(p, "outpatient_days"), r.value.outpatientDays)
      && KeepsOptionalInt(Get(p, "followup_cadence_days"), r.value.followupCadenceDays)
    ensures r.Rejected? ==> |r.errors| > 0
  {
    var a := CheckOptionalInt(Get(p, "confinement_days"), "confinement_days", 0);
    var b := CheckOptionalInt(Get(p, "outpatient_days"), "outpatient_days", 0);
    var c := CheckOptionalInt(Get(p, "followup_cadence_days"), "followup_cadence_days", 0);
    if a.Accepted? && b.Accepted? && c.Accepted? then
      Accepted(SponsorStudyLength(a.value, b.value, c.value))
    else
      Rejected(ErrorsOf(a) + ErrorsOf(b) + ErrorsOf(c))
  }

  function ValidateAssessmentIntensity(p: Doc): (r: Outcome<SponsorAssessmentIntensity>)
    ensures r.Accepted? <==> AssessmentIntensityConforms(p)
    ensures r.Accepted? && "pk_sampling" !in p ==> !r.value.pkSampling
    ensures r.Accepted? && "exploratory_endpoints" !in p ==> !r.value.exploratoryEndpoints
    ensures r.Accepted? ==>
      && KeepsBool(Get(p, "pk_sampling"), false, r.value.pkSampling)
      && KeepsBool(Get(p, "exploratory_endpoints"), false, r.value.exploratoryEndpoints)
    ensures r.Rejected? ==> |r.errors| > 0
  {
    var a := CheckBool(Get(p, "pk_sampling"), "pk_sampling", false);
    var b := CheckBool(Get(p, "exploratory_endpoints"), "exploratory_endpoints", false);
    if a.Accepted? && b.Accepted? then
      Accepted(SponsorAssessmentIntensity(a.value, b.value))
    else
      Rejected(ErrorsOf(a) + ErrorsOf(b))
  }

  function ValidateStartupTimelines(p: Doc): (r: Outcome<SponsorStartupTimelines>)
    ensures r.Accepted? <==> StartupTimelinesConform(p)
    ensures r.Accepted? ==> r.value.Valid()
    ensures r.Accepted? ==>
      && KeepsOptionalReal(Get(p, "cta_execution_rate"), r.value.ctaExecutionRate)
      && KeepsOptionalInt(Get(p, "feasibility_turnaround_days"), r.value.feasibilityTurnaroundDays)
    ensures r.Rejected? ==> |r.errors| > 0
  {
    var a := CheckOptionalReal(Get(p, "cta_execution_rate"), "cta_execution_rate", 0.0, Some(100.0));
    var b := CheckOptionalInt(Get(p, "feasibility_turnaround_days"), "feasibility_turnaround_days", 0);
    if a.Accepted? && b.Accepted? then
      Accepted(SponsorStartupTimelines(a.value, b.value))
    else
      Rejected(ErrorsOf(a) + ErrorsOf(b))
  }

  function ValidateMonitoring(p: Doc): (r: Outcome<SponsorMonitoring>)
    ensures r.Accepted? <==> MonitoringConforms(p)
    ensures r.Accepted? ==> r.value.Valid()
    ensures r.Accepted? ==>
      && KeepsOptionalInt(Get(p, "visit_frequency_days"), r.value.visitFrequencyDays)
      && KeepsOptionalReal(Get(p, "cra_query_rate"), r.value.craQueryRate)
      && KeepsOptionalInt(Get(p, "query_closure_days"), r.value.queryClosureDays)
    ensures r.Rejected? ==> |r.errors| > 0
  {
    var a := CheckOptionalInt(Get(p, "visit_frequency_days"), "visit_frequency_days", 0);
    var b := CheckOptionalReal(Get(p, "cra_query_rate"), "cra_query_rate", 0.0, None);
    var c := CheckOptionalInt(Get(p, "query_closure_days"), "query_closure_days", 0);
    if a.Accepted? && b.Accepted? && c.Accepted? then
      Accepted(SponsorMonitoring(a.value, b.value, c.value))
    else
      Rejected(ErrorsOf(a) + ErrorsOf(b) + ErrorsOf(c))
  }

  function ValidateBudget(p: Doc): (r: Outcome<SponsorBudget>)
    ensures r.Accepted? <==> BudgetConforms(p)
    ensures r.Accepted? ==> r.value.Valid()
    ensures r.Accepted? ==>
      && KeepsOptionalReal(Get(p, "screen_fail_reimbursement"), r.value.screenFailReimbursement)
      && KeepsOptionalReal(Get(p, "per_patient_payment"), r.value.perPatientPayment)
      && KeepsOptionalReal(Get(p, "startup_fee"), r.value.startupFee)
    ensures r.Rejected? ==> |r.errors| > 0
  {
    var a := CheckOptionalReal(Get(p, "screen_fail_reimbursement"), "screen_fail_reimbursement", 0.0, None);
    var b := CheckOptionalReal(Get(p, "per_patient_payment"), "per_patient_payment", 0.0, None);
    var c := CheckOptionalReal(Get(p, "startup_fee"), "startup_fee", 0.0, None);
    if a.Accepted? && b.Accepted? && c.Accepted? then
      Accepted(SponsorBudget(a.value, b.value, c.value))
    else
      Rejected(ErrorsOf(a) + ErrorsOf(b) + ErrorsOf(c))
  }

  function ValidateSponsor(p: Doc): (r: Outcome<Sponsor>)
    ensures r.Accepted? <==> SponsorConforms(p)
    ensures r.Accepted? ==> r.value.Valid()
    ensures r.Rejected? ==> |r.errors| > 0
  {
    var name := CheckRequiredString(Get(p, "name"), "name");
    var usability := CheckOptionalReal(Get(p, "ecrf_edc_usability"), "ecrf_edc_usability", 0.0, Some(10.0));
    var length := CheckOptionalObject(Get(p, "study_length"), "study_length", ValidateStudyLength);
    var intensity := CheckOptionalObject(Get(p, "assessment_intensity"), "assessment_intensity", ValidateAssessmentIntensity);
    var rigidity := CheckOptionalReal(Get(p, "eligibility_rigidity_pct"), "eligibility_rigidity_pct", 0.0, Some(100.0));
    var startup := CheckOptionalObject(Get(p, "startup_timelines"), "startup_timelines", ValidateStartupTimelines);
    var monitoring := CheckOptionalObject(Get(p, "monitoring"), "monitoring", ValidateMonitoring);
    var expertise := CheckStringList(Get(p, "trial_expertise"), "trial_expertise");
    var budget := CheckOptionalObject(Get(p, "budget"), "budget", ValidateBudget);
    if && name.Accepted? && usability.Accepted? && length.Accepted? && intensity.Accepted?
       && rigidity.Accepted? && startup.Accepted? && monitoring.Accepted? && expertise.Accepted?
       && budget.Accepted?
    then
      Accepted(Sponsor(name.value, usability.value, length.value, intensity.value, rigidity.value,
                       startup.value, monitoring.value, expertise.value, budget.value))
    else
      var study := ErrorsOf(name) + ErrorsOf(usability) + ErrorsOf(length) + ErrorsOf(intensity);
      var operations := ErrorsOf(rigidity) + ErrorsOf(startup) + ErrorsOf(monitoring)
                        + ErrorsOf(expertise) + ErrorsOf(budget);
      Rejected(study + operations)
  }

  /** An accepted Sponsor holds the values the payload gave, and the
      declared defaults where it gave none. */
  lemma SponsorKeepsGivenValues(p: Doc)
    requires ValidateSponsor(p).Accepted?
    ensures SponsorKeeps(p, ValidateSponsor(p).value)
  {
  }

  // ------------------------------------------------------------------
  // Encoding: a validated record as a stored document, every declared field
  // present and an absent optional as null.
  // ------------------------------------------------------------------

  function EncodeOptionalString(x: Option<string>): Value
  {
    if x.Some? then Str(x.value) else Null
  }

  function EncodeOptionalInt(x: Option<int>): Value
  {
    if x.Some? then Int(x.value) else Null
  }

  function EncodeOptionalReal(x: Option<real>): Value
  {
    if x.Some? then Num(x.value) else Null
  }

  function EncodeStrings(xs: seq<string>): (r: Value)
    ensures r.List? && |r.items| == |xs|
    ensures forall i :: 0 <= i < |xs| ==> r.items[i] == Str(xs[i])
  {
    List(seq(|xs|, i requires 0 <= i < |xs| => Str(xs[i])))
  }

  function EncodeOptionalObject<T>(x: Option<T>, encode: T -> Doc): Value
  {
    if x.Some? then Obj(encode(x.value)) else Null
  }

  function EncodeCtuTimelines(t: CtuTimelines): Doc
  {
    map["feasibility_to_hrec_days" := EncodeOptionalInt(t.feasibilityToHrecDays),
        "hrec_to_siteinit_days" := EncodeOptionalInt(t.hrecToSiteinitDays),
        "siteinit_to_fpi_days" := EncodeOptionalInt(t.siteinitToFpiDays)]
  }

  /** The fields a CTU is stored with. */
  const CtuFields := {"name", "city", "state", "country", "inpatient_confinement", "telemetry_24h",
                      "outpatient_clinic", "trial_expertise", "tech_stack", "recruitment_velocity",
                      "data_quality_pdpp", "timelines"}

  /** The stored form of a CTU: every declared field, and nothing else. */
  function EncodeCtu(c: Ctu): (r: Doc)
    ensures r.Keys == CtuFields
  {
    map["name" := Str(c.name),
        "city" := EncodeOptionalString(c.city),
        "state" := EncodeOptionalString(c.state),
        "country" := EncodeOptionalString(c.country),
        "inpatient_confinement" := Bool(c.inpatientConfinement),
        "telemetry_24h" := Bool(c.telemetry24h),
        "outpatient_clinic" := Bool(c.outpatientClinic),
        "trial_expertise" := EncodeStrings(c.trialExpertise),
        "tech_stack" := EncodeStrings(c.techStack),
        "recruitment_velocity" := EncodeOptionalReal(c.recruitmentVelocity),
        "data_quality_pdpp" := EncodeOptionalReal(c.dataQualityPdpp),
        "timelines" := EncodeOptionalObject(c.timelines, EncodeCtuTimelines)]
  }

  function EncodeStudyLength(s: SponsorStudyLength): Doc
  {
    map["confinement_days" := EncodeOptionalInt(s.confinementDays),
        "outpatient_days" := EncodeOptionalInt(s.outpatientDays),
        "followup_cadence_days" := EncodeOptionalInt(s.followupCadenceDays)]
  }

  function EncodeAssessmentIntensity(a: SponsorAssessmentIntensity): Doc
  {
    map["pk_sampling" := Bool(a.pkSampling),
        "exploratory_endpoints" := Bool(a.exploratoryEndpoints)]
  }

  function EncodeStartupTimelines(s: SponsorStartupTimelines): Doc
  {
    map["cta_execution_rate" := EncodeOptionalReal(s.ctaExecutionRate),
        "feasibility_turnaround_days" := EncodeOptionalInt(s.feasibilityTurnaroundDays)]
  }

  function EncodeMonitoring(m: SponsorMonitoring): Doc
  {
    map["visit_frequency_days" := EncodeOptionalInt(m.visitFrequencyDays),
        "cra_query_rate" := EncodeOptionalReal(m.craQueryRate),
        "query_closure_days" := EncodeOptionalInt(m.queryClosureDays)]
  }

  function EncodeBudget(b: SponsorBudget): Doc
  {
    map["screen_fail_reimbursement" := EncodeOptionalReal(b.screenFailReimbursement),
        "per_patient_payment" := EncodeOptionalReal(b.perPatientPayment),
        "startup_fee" := EncodeOptionalReal(b.startupFee)]
  }

  /** The fields a Sponsor is stored with. */
  const SponsorFields := {"name", "ecrf_edc_usability", "study_length", "assessment_intensity",
                          "eligibility_rigidity_pct", "startup_timelines", "monitoring", "trial_expertise",
                          "budget"}

  /** The stored form of a Sponsor: every declared field, and nothing else. */
  function EncodeSponsor(s: Sponsor): (r: Doc)
    ensures r.Keys == SponsorFields
  {
    map["name" := Str(s.name),
        "ecrf_edc_usability" := EncodeOptionalReal(s.ecrfEdcUsability),
        "study_length" := EncodeOptionalObject(s.studyLength, EncodeStudyLength),
        "assessment_intensity" := EncodeOptionalObject(s.assessmentIntensity, EncodeAssessmentIntensity),
        "eligibility_rigidity_pct" := EncodeOptionalReal(s.eligibilityRigidityPct),
        "startup_timelines" := EncodeOptionalObject(s.startupTimelines, EncodeStartupTimelines),
        "monitoring" := EncodeOptionalObject(s.monitoring, EncodeMonitoring),
        "trial_expertise" := EncodeStrings(s.trialExpertise),
        "budget" := EncodeOptionalObject(s.budget, EncodeBudget)]
  }
}
