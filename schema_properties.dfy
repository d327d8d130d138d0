/** What validation promises about the CTU and Sponsor shapes: it accepts
    exactly the payloads whose fields meet their constraints, reports every
    failing field, applies the declared defaults, and re-validating a stored
    record gives the record back. */
module SchemaProperties {
  import opened Documents
  import opened Schemas

  // ------------------------------------------------------------------
  // Round trips: a valid record survives encoding and validation
  // ------------------------------------------------------------------

  lemma StringsRoundTrip(xs: seq<string>)
    ensures CheckStringList(Some(EncodeStrings(xs)), "trial_expertise") == Accepted(xs)
    ensures CheckStringList(Some(EncodeStrings(xs)), "tech_stack") == Accepted(xs)
  {
    var items := EncodeStrings(xs).items;
    assert Strings(items) == xs;
  }

  lemma CtuTimelinesRoundTrip(t: CtuTimelines)
    ensures ValidateCtuTimelines(EncodeCtuTimelines(t)).Accepted? <==> t.Valid()
    ensures t.Valid() ==> ValidateCtuTimelines(EncodeCtuTimelines(t)) == Accepted(t)
  {
  }

  /** The checks accept the stored form of a CTU's name and locale and give
      back the CTU's own values. */
  lemma CtuLocaleFieldsRoundTrip(c: Ctu)
    ensures var e := EncodeCtu(c);
      && CheckRequiredString(Get(e, "name"), "name") == Accepted(c.name)
      && CheckOptionalString(Get(e, "city"), "city") == Accepted(c.city)
      && CheckOptionalString(Get(e, "state"), "state") == Accepted(c.state)
      && CheckOptionalString(Get(e, "country"), "country") == Accepted(c.country)
  {
  }

  /** The checks accept the stored form of a CTU's capability flags and tag
      lists and give back the CTU's own values. */
  lemma CtuCapabilityFieldsRoundTrip(c: Ctu)
    ensures var e := EncodeCtu(c);
      && CheckBool(Get(e, "inpatient_confinement"), "inpatient_confinement", false) == Accepted(c.inpatientConfinement)
      && CheckBool(Get(e, "telemetry_24h"), "telemetry_24h", false) == Accepted(c.telemetry24h)
      && CheckBool(Get(e, "outpatient_clinic"), "outpatient_clinic", true) == Accepted(c.outpatientClinic)
      && CheckStringList(Get(e, "trial_expertise"), "trial_expertise") == Accepted(c.trialExpertise)
      && CheckStringList(Get(e, "tech_stack"), "tech_stack") == Accepted(c.techStack)
  {
    var e := EncodeCtu(c);
    assert Get(e, "trial_expertise") == Some(EncodeStrings(c.trialExpertise));
    assert Get(e, "tech_stack") == Some(EncodeStrings(c.techStack));
    StringsRoundTrip(c.trialExpertise);
    StringsRoundTrip(c.techStack);
  }

  /** The checks of a CTU's performance metrics and timelines accept their
      stored form exactly when the CTU's constraints on them hold. */
  lemma CtuMeasuredFieldsRoundTrip(c: Ctu)
    ensures var e := EncodeCtu(c);
      var velocity := CheckOptionalReal(Get(e, "recruitment_velocity"), "recruitment_velocity", 0.0, None);
      var quality := CheckOptionalReal(Get(e, "data_quality_pdpp"), "data_quality_pdpp", 0.0, None);
      var timelines := CheckOptionalObject(Get(e, "timelines"), "timelines", ValidateCtuTimelines);
      && (velocity.Accepted? <==> RealWithin(c.recruitmentVelocity, 0.0, None))
      && (velocity.Accepted? ==> velocity.value == c.recruitmentVelocity)
      && (quality.Accepted? <==> RealWithin(c.dataQualityPdpp, 0.0, None))
      && (quality.Accepted? ==> quality.value == c.dataQualityPdpp)
      && (timelines.Accepted? <==> (c.timelines.Some? ==> c.timelines.value.Valid()))
      && (timelines.Accepted? ==> timelines.value == c.timelines)
  {
    var e := EncodeCtu(c);
    assert Get(e, "recruitment_velocity") == Some(EncodeOptionalReal(c.recruitmentVelocity));
    assert Get(e, "data_quality_pdpp") == Some(EncodeOptionalReal(c.dataQualityPdpp));
    if c.timelines.Some? {
      assert Get(e, "timelines") == Some(Obj(EncodeCtuTimelines(c.timelines.value)));
      CtuTimelinesRoundTrip(c.timelines.value);
    } else {
      assert Get(e, "timelines") == Some(Null);
    }
  }

  /** A CTU's stored form is accepted by validation exactly when the CTU is
      valid, and then validation gives the same CTU back. */
  lemma CtuRoundTrip(c: Ctu)
    ensures ValidateCtu(EncodeCtu(c)).Accepted? <==> c.Valid()
    ensures c.Valid() ==> ValidateCtu(EncodeCtu(c)) == Accepted(c)
  {
    CtuLocaleFieldsRoundTrip(c);
    CtuCapabilityFieldsRoundTrip(c);
    CtuMeasuredFieldsRoundTrip(c);
  }

  /** Validation is idempotent: re-validating the stored form of an accepted
      payload returns the same record, defaults included. */
  lemma CtuRevalidation(p: Doc)
    requires ValidateCtu(p).Accepted?
    ensures ValidateCtu(EncodeCtu(ValidateCtu(p).value)) == ValidateCtu(p)
  {
    CtuRoundTrip(ValidateCtu(p).value);
  }

  lemma StudyLengthRoundTrip(s: SponsorStudyLength)
    ensures ValidateStudyLength(EncodeStudyLength(s)).Accepted? <==> s.Valid()
    ensures s.Valid() ==> ValidateStudyLength(EncodeStudyLength(s)) == Accepted(s)
  {
  }

  lemma AssessmentIntensityRoundTrip(a: SponsorAssessmentIntensity)
    ensures ValidateAssessmentIntensity(EncodeAssessmentIntensity(a)) == Accepted(a)
  {
  }

  lemma StartupTimelinesRoundTrip(s: SponsorStartupTimelines)
    ensures ValidateStartupTimelines(EncodeStartupTimelines(s)).Accepted? <==> s.Valid()
    ensures s.Valid() ==> ValidateStartupTimelines(EncodeStartupTimelines(s)) == Accepted(s)
  {
  }

  lemma MonitoringRoundTrip(m: SponsorMonitoring)
    ensures ValidateMonitoring(EncodeMonitoring(m)).Accepted? <==> m.Valid()
    ensures m.Valid() ==> ValidateMonitoring(EncodeMonitoring(m)) == Accepted(m)
  {
  }

  lemma BudgetRoundTrip(b: SponsorBudget)
    ensures ValidateBudget(EncodeBudget(b)).Accepted? <==> b.Valid()
    ensures b.Valid() ==> ValidateBudget(EncodeBudget(b)) == Accepted(b)
  {
  }

  /** The checks of a Sponsor's name, scores and tags accept their stored
      form exactly when the Sponsor's constraints on them hold. */
  lemma SponsorScalarFieldsRoundTrip(s: Sponsor)
    ensures var e := EncodeSponsor(s);
      var usability := CheckOptionalReal(Get(e, "ecrf_edc_usability"), "ecrf_edc_usability", 0.0, Some(10.0));
      var rigidity := CheckOptionalReal(Get(e, "eligibility_rigidity_pct"), "eligibility_rigidity_pct", 0.0, Some(100.0));
      && CheckRequiredString(Get(e, "name"), "name") == Accepted(s.name)
      && (usability.Accepted? <==> RealWithin(s.ecrfEdcUsability, 0.0, Some(10.0)))
      && (usability.Accepted? ==> usability.value == s.ecrfEdcUsability)
      && (rigidity.Accepted? <==> RealWithin(s.eligibilityRigidityPct, 0.0, Some(100.0)))
      && (rigidity.Accepted? ==> rigidity.value == s.eligibilityRigidityPct)
      && CheckStringList(Get(e, "trial_expertise"), "trial_expertise") == Accepted(s.trialExpertise)
  {
    var e := EncodeSponsor(s);
    assert Get(e, "ecrf_edc_usability") == Some(EncodeOptionalReal(s.ecrfEdcUsability));
    assert Get(e, "eligibility_rigidity_pct") == Some(EncodeOptionalReal(s.eligibilityRigidityPct));
    assert Get(e, "trial_expertise") == Some(EncodeStrings(s.trialExpertise));
    StringsRoundTrip(s.trialExpertise);
  }

  /** The checks of a Sponsor's study design sub-records accept their stored
      form exactly when the sub-records present are valid. */
  lemma SponsorStudyFieldsRoundTrip(s: Sponsor)
    ensures var e := EncodeSponsor(s);
      var length := CheckOptionalObject(Get(e, "study_length"), "study_length", ValidateStudyLength);
      var intensity := CheckOptionalObject(Get(e, "assessment_intensity"), "assessment_intensity", ValidateAssessmentIntensity);
      && (length.Accepted? <==> (s.studyLength.Some? ==> s.studyLength.value.Valid()))
      && (length.Accepted? ==> length.value == s.studyLength)
      && intensity == Accepted(s.assessmentIntensity)
  {
    var e := EncodeSponsor(s);
    if s.studyLength.Some? {
      assert Get(e, "study_length") == Some(Obj(EncodeStudyLength(s.studyLength.value)));
      StudyLengthRoundTrip(s.studyLength.value);
    } else {
      assert Get(e, "study_length") == Some(Null);
    }
    if s.assessmentIntensity.Some? {
      assert Get(e, "assessment_intensity") == Some(Obj(EncodeAssessmentIntensity(s.assessmentIntensity.value)));
      AssessmentIntensityRoundTrip(s.assessmentIntensity.value);
    } else {
      assert Get(e, "assessment_intensity") == Some(Null);
    }
  }

  /** The checks of a Sponsor's operational sub-records accept their stored
      form exactly when the sub-records present are valid. */
  lemma SponsorOperationsFieldsRoundTrip(s: Sponsor)
    ensures var e := EncodeSponsor(s);
      var startup := CheckOptionalObject(Get(e, "startup_timelines"), "startup_timelines", ValidateStartupTimelines);
      var monitoring := CheckOptionalObject(Get(e, "monitoring"), "monitoring", ValidateMonitoring);
      var budget := CheckOptionalObject(Get(e, "budget"), "budget", ValidateBudget);
      && (startup.Accepted? <==> (s.startupTimelines.Some? ==> s.startupTimelines.value.Valid()))
      && (startup.Accepted? ==> startup.value == s.startupTimelines)
      && (monitoring.Accepted? <==> (s.monitoring.Some? ==> s.monitoring.value.Valid()))
      && (monitoring.Accepted? ==> monitoring.value == s.monitoring)
      && (budget.Accepted? <==> (s.budget.Some? ==> s.budget.value.Valid()))
      && (budget.Accepted? ==> budget.value == s.budget)
  {
    var e := EncodeSponsor(s);
    if s.startupTimelines.Some? {
      assert Get(e, "startup_timelines") == Some(Obj(EncodeStartupTimelines(s.startupTimelines.value)));
      StartupTimelinesRoundTrip(s.startupTimelines.value);
    } else {
      assert Get(e, "startup_timelines") == Some(Null);
    }
    if s.monitoring.Some? {
      assert Get(e, "monitoring") == Some(Obj(EncodeMonitoring(s.monitoring.value)));
      MonitoringRoundTrip(s.monitoring.value);
    } else {
      assert Get(e, "monitoring") == Some(Null);
    }
    if s.budget.Some? {
      assert Get(e, "budget") == Some(Obj(EncodeBudget(s.budget.value)));
      BudgetRoundTrip(s.budget.value);
    } else {
      assert Get(e, "budget") == Some(Null);
    }
  }

  /** A Sponsor's stored form is accepted by validation exactly when the
      Sponsor is valid, and then validation gives the same Sponsor back. */
  lemma SponsorRoundTrip(s: Sponsor)
    ensures ValidateSponsor(EncodeSponsor(s)).Accepted? <==> s.Valid()
    ensures s.Valid() ==> ValidateSponsor(EncodeSponsor(s)) == Accepted(s)
  {
    SponsorScalarFieldsRoundTrip(s);
    SponsorStudyFieldsRoundTrip(s);
    SponsorOperationsFieldsRoundTrip(s);
  }

  lemma SponsorRevalidation(p: Doc)
    requires ValidateSponsor(p).Accepted?
    ensures ValidateSponsor(EncodeSponsor(ValidateSponsor(p).value)) == ValidateSponsor(p)
  {
    SponsorRoundTrip(ValidateSponsor(p).value);
  }

  // ------------------------------------------------------------------
  // Defaults
  // ------------------------------------------------------------------

  /** Omitted lists become empty and omitted booleans take their declared
      defaults. */
  lemma CtuDefaults(p: Doc)
    requires ValidateCtu(p).Accepted?
    ensures var c := ValidateCtu(p).value;
      && ("trial_expertise" !in p ==> c.trialExpertise == [])
      && ("tech_stack" !in p ==> c.techStack == [])
      && ("inpatient_confinement" !in p ==> !c.inpatientConfinement)
      && ("telemetry_24h" !in p ==> !c.telemetry24h)
      && ("outpatient_clinic" !in p ==> c.outpatientClinic)
  {
  }

  lemma SponsorDefaults(p: Doc)
    requires ValidateSponsor(p).Accepted?
    ensures "trial_expertise" !in p ==> ValidateSponsor(p).value.trialExpertise == []
    ensures forall m :: Get(p, "assessment_intensity") == Some(Obj(m)) ==>
      && ("pk_sampling" !in m ==> !ValidateSponsor(p).value.assessmentIntensity.value.pkSampling)
      && ("exploratory_endpoints" !in m ==> !ValidateSponsor(p).value.assessmentIntensity.value.exploratoryEndpoints)
  {
  }

  // ------------------------------------------------------------------
  // Rejection reports every failing field, and only those
  // ------------------------------------------------------------------

  lemma CtuLocaleHeads(p: Doc)
    ensures Heads(ErrorsOf(CheckRequiredString(Get(p, "name"), "name"))
                  + ErrorsOf(CheckOptionalString(Get(p, "city"), "city"))
                  + ErrorsOf(CheckOptionalString(Get(p, "state"), "state"))
                  + ErrorsOf(CheckOptionalString(Get(p, "country"), "country")))
            == CtuLocaleFailingFields(p)
  {
    var name := CheckRequiredString(Get(p, "name"), "name");
    var city := CheckOptionalString(Get(p, "city"), "city");
    var state := CheckOptionalString(Get(p, "state"), "state");
    var country := CheckOptionalString(Get(p, "country"), "country");
    HeadsOfCheck(name, "name");
    HeadsOfCheck(city, "city");
    HeadsOfCheck(state, "state");
    HeadsOfCheck(country, "country");
    HeadsAppend(ErrorsOf(name), ErrorsOf(city));
    HeadsAppend(ErrorsOf(name) + ErrorsOf(city), ErrorsOf(state));
    HeadsAppend(ErrorsOf(name) + ErrorsOf(city) + ErrorsOf(state), ErrorsOf(country));
  }

  lemma CtuCapabilityHeads(p: Doc)
    ensures Heads(ErrorsOf(CheckBool(Get(p, "inpatient_confinement"), "inpatient_confinement", false))
                  + ErrorsOf(CheckBool(Get(p, "telemetry_24h"), "telemetry_24h", false))
                  + ErrorsOf(CheckBool(Get(p, "outpatient_clinic"), "outpatient_clinic", true))
                  + ErrorsOf(CheckStringList(Get(p, "trial_expertise"), "trial_expertise"))
                  + ErrorsOf(CheckStringList(Get(p, "tech_stack"), "tech_stack")))
            == CtuCapabilityFailingFields(p)
  {
    var inpatient := CheckBool(Get(p, "inpatient_confinement"), "inpatient_confinement", false);
    var telemetry := CheckBool(Get(p, "telemetry_24h"), "telemetry_24h", false);
    var outpatient := CheckBool(Get(p, "outpatient_clinic"), "outpatient_clinic", true);
    var expertise := CheckStringList(Get(p, "trial_expertise"), "trial_expertise");
    var tech := CheckStringList(Get(p, "tech_stack"), "tech_stack");
    HeadsOfCheck(inpatient, "inpatient_confinement");
    HeadsOfCheck(telemetry, "telemetry_24h");
    HeadsOfCheck(outpatient, "outpatient_clinic");
    HeadsOfCheck(expertise, "trial_expertise");
    HeadsOfCheck(tech, "tech_stack");
    HeadsAppend(ErrorsOf(inpatient), ErrorsOf(telemetry));
    HeadsAppend(ErrorsOf(inpatient) + ErrorsOf(telemetry), ErrorsOf(outpatient));
    HeadsAppend(ErrorsOf(inpatient) + ErrorsOf(telemetry) + ErrorsOf(outpatient), ErrorsOf(expertise));
    HeadsAppend(ErrorsOf(inpatient) + ErrorsOf(telemetry) + ErrorsOf(outpatient) + ErrorsOf(expertise), ErrorsOf(tech));
  }

  lemma CtuPerformanceHeads(p: Doc)
    ensures Heads(ErrorsOf(CheckOptionalReal(Get(p, "recruitment_velocity"), "recruitment_velocity", 0.0, None))
                  + ErrorsOf(CheckOptionalReal(Get(p, "data_quality_pdpp"), "data_quality_pdpp", 0.0, None))
                  + ErrorsOf(CheckOptionalObject(Get(p, "timelines"), "timelines", ValidateCtuTimelines)))
            == CtuPerformanceFailingFields(p)
  {
    var velocity := CheckOptionalReal(Get(p, "recruitment_velocity"), "recruitment_velocity", 0.0, None);
    var quality := CheckOptionalReal(Get(p, "data_quality_pdpp"), "data_quality_pdpp", 0.0, None);
    var timelines := CheckOptionalObject(Get(p, "timelines"), "timelines", ValidateCtuTimelines);
    HeadsOfCheck(velocity, "recruitment_velocity");
    HeadsOfCheck(quality, "data_quality_pdpp");
    HeadsOfCheck(timelines, "timelines");
    HeadsAppend(ErrorsOf(velocity), ErrorsOf(quality));
    HeadsAppend(ErrorsOf(velocity) + ErrorsOf(quality), ErrorsOf(timelines));
  }

  /** A rejected CTU payload is reported with errors under exactly the fields
      whose constraints fail: every failing field, and only those. */
  lemma CtuErrorsNameFailingFields(p: Doc)
    requires ValidateCtu(p).Rejected?
    ensures Heads(ValidateCtu(p).errors) == CtuFailingFields(p)
  {
    var name := CheckRequiredString(Get(p, "name"), "name");
    var city := CheckOptionalString(Get(p, "city"), "city");
    var state := CheckOptionalString(Get(p, "state"), "state");
    var country := CheckOptionalString(Get(p, "country"), "country");
    var inpatient := CheckBool(Get(p, "inpatient_confinement"), "inpatient_confinement", false);
    var telemetry := CheckBool(Get(p, "telemetry_24h"), "telemetry_24h", false);
    var outpatient := CheckBool(Get(p, "outpatient_clinic"), "outpatient_clinic", true);
    var expertise := CheckStringList(Get(p, "trial_expertise"), "trial_expertise");
    var tech := CheckStringList(Get(p, "tech_stack"), "tech_stack");
    var velocity := CheckOptionalReal(Get(p, "recruitment_velocity"), "recruitment_velocity", 0.0, None);
    var quality := CheckOptionalReal(Get(p, "data_quality_pdpp"), "data_quality_pdpp", 0.0, None);
    var timelines := CheckOptionalObject(Get(p, "timelines"), "timelines", ValidateCtuTimelines);
    var locale := ErrorsOf(name) + ErrorsOf(city) + ErrorsOf(state) + ErrorsOf(country);
    var capability := ErrorsOf(inpatient) + ErrorsOf(telemetry) + ErrorsOf(outpatient) + ErrorsOf(expertise) + ErrorsOf(tech);
    var performance := ErrorsOf(velocity) + ErrorsOf(quality) + ErrorsOf(timelines);
    CtuLocaleHeads(p);
    CtuCapabilityHeads(p);
    CtuPerformanceHeads(p);
    HeadsAppend(locale, capability);
    HeadsAppend(locale + capability, performance);
    assert ValidateCtu(p).errors == locale + capability + performance;
  }

  lemma SponsorStudyHeads(p: Doc)
    ensures Heads(ErrorsOf(CheckRequiredString(Get(p, "name"), "name"))
                  + ErrorsOf(CheckOptionalReal(Get(p, "ecrf_edc_usability"), "ecrf_edc_usability", 0.0, Some(10.0)))
                  + ErrorsOf(CheckOptionalObject(Get(p, "study_length"), "study_length", ValidateStudyLength))
                  + ErrorsOf(CheckOptionalObject(Get(p, "assessment_intensity"), "assessment_intensity", ValidateAssessmentIntensity)))
            == SponsorStudyFailingFields(p)
  {
    var name := CheckRequiredString(Get(p, "name"), "name");
    var usability := CheckOptionalReal(Get(p, "ecrf_edc_usability"), "ecrf_edc_usability", 0.0, Some(10.0));
    var length := CheckOptionalObject(Get(p, "study_length"), "study_length", ValidateStudyLength);
    var intensity := CheckOptionalObject(Get(p, "assessment_intensity"), "assessment_intensity", ValidateAssessmentIntensity);
    HeadsOfCheck(name, "name");
    HeadsOfCheck(usability, "ecrf_edc_usability");
    HeadsOfCheck(length, "study_length");
    HeadsOfCheck(intensity, "assessment_intensity");
    HeadsAppend(ErrorsOf(name), ErrorsOf(usability));
    HeadsAppend(ErrorsOf(name) + ErrorsOf(usability), ErrorsOf(length));
    HeadsAppend(ErrorsOf(name) + ErrorsOf(usability) + ErrorsOf(length), ErrorsOf(intensity));
  }

  lemma SponsorOperationsHeads(p: Doc)
    ensures Heads(ErrorsOf(CheckOptionalReal(Get(p, "eligibility_rigidity_pct"), "eligibility_rigidity_pct", 0.0, Some(100.0)))
                  + ErrorsOf(CheckOptionalObject(Get(p, "startup_timelines"), "startup_timelines", ValidateStartupTimelines))
                  + ErrorsOf(CheckOptionalObject(Get(p, "monitoring"), "monitoring", ValidateMonitoring))
                  + ErrorsOf(CheckStringList(Get(p, "trial_expertise"), "trial_expertise"))
                  + ErrorsOf(CheckOptionalObject(Get(p, "budget"), "budget", ValidateBudget)))
            == SponsorOperationsFailingFields(p)
  {
    var rigidity := CheckOptionalReal(Get(p, "eligibility_rigidity_pct"), "eligibility_rigidity_pct", 0.0, Some(100.0));
    var startup := CheckOptionalObject(Get(p, "startup_timelines"), "startup_timelines", ValidateStartupTimelines);
    var monitoring := CheckOptionalObject(Get(p, "monitoring"), "monitoring", ValidateMonitoring);
    var expertise := CheckStringList(Get(p, "trial_expertise"), "trial_expertise");
    var budget := CheckOptionalObject(Get(p, "budget"), "budget", ValidateBudget);
    HeadsOfCheck(rigidity, "eligibility_rigidity_pct");
    HeadsOfCheck(startup, "startup_timelines");
    HeadsOfCheck(monitoring, "monitoring");
    HeadsOfCheck(expertise, "trial_expertise");
    HeadsOfCheck(budget, "budget");
    HeadsAppend(ErrorsOf(rigidity), ErrorsOf(startup));
    HeadsAppend(ErrorsOf(rigidity) + ErrorsOf(startup), ErrorsOf(monitoring));
    HeadsAppend(ErrorsOf(rigidity) + ErrorsOf(startup) + ErrorsOf(monitoring), ErrorsOf(expertise));
    HeadsAppend(ErrorsOf(rigidity) + ErrorsOf(startup) + ErrorsOf(monitoring) + ErrorsOf(expertise), ErrorsOf(budget));
  }

  /** A rejected Sponsor payload is reported with errors under exactly the
      fields whose constraints fail. */
  lemma SponsorErrorsNameFailingFields(p: Doc)
    requires ValidateSponsor(p).Rejected?
    ensures Heads(ValidateSponsor(p).errors) == SponsorFailingFields(p)
  {
    var name := CheckRequiredString(Get(p, "name"), "name");
    var usability := CheckOptionalReal(Get(p, "ecrf_edc_usability"), "ecrf_edc_usability", 0.0, Some(10.0));
    var length := CheckOptionalObject(Get(p, "study_length"), "study_length", ValidateStudyLength);
    var intensity := CheckOptionalObject(Get(p, "assessment_intensity"), "assessment_intensity", ValidateAssessmentIntensity);
    var rigidity := CheckOptionalReal(Get(p, "eligibility_rigidity_pct"), "eligibility_rigidity_pct", 0.0, Some(100.0));
    var startup := CheckOptionalObject(Get(p, "startup_timelines"), "startup_timelines", ValidateStartupTimelines);
    var monitoring := CheckOptionalObject(Get(p, "monitoring"), "monitoring", ValidateMonitoring);
    var expertise := CheckStringList(Get(p, "trial_expertise"), "trial_expertise");
    var budget := CheckOptionalObject(Get(p, "budget"), "budget", ValidateBudget);
    var study := ErrorsOf(name) + ErrorsOf(usability) + ErrorsOf(length) + ErrorsOf(intensity);
    var operations := ErrorsOf(rigidity) + ErrorsOf(startup) + ErrorsOf(monitoring) + ErrorsOf(expertise) + ErrorsOf(budget);
    SponsorStudyHeads(p);
    SponsorOperationsHeads(p);
    HeadsAppend(study, operations);
    assert ValidateSponsor(p).errors == study + operations;
  }

  // ------------------------------------------------------------------
  // Particular rejections
  // ------------------------------------------------------------------

  /** A payload without a name is rejected, and the errors say the name is
      missing. */
  lemma CtuWithoutName(p: Doc)
    requires "name" !in p
    ensures ValidateCtu(p).Rejected?
    ensures FieldError([Field("name")], Missing) in ValidateCtu(p).errors
  {
  }

  lemma SponsorWithoutName(p: Doc)
    requires "name" !in p
    ensures ValidateSponsor(p).Rejected?
    ensures FieldError([Field("name")], Missing) in ValidateSponsor(p).errors
  {
  }

  /** A usability score outside [0, 10] is rejected and reported. */
  lemma SponsorUsabilityOutOfRange(p: Doc)
    requires "ecrf_edc_usability" in p && IsNumber(p["ecrf_edc_usability"])
    requires NumberOf(p["ecrf_edc_usability"]) < 0.0 || 10.0 < NumberOf(p["ecrf_edc_usability"])
    ensures ValidateSponsor(p).Rejected?
    ensures "ecrf_edc_usability" in Heads(ValidateSponsor(p).errors)
  {
    assert Get(p, "ecrf_edc_usability") == Some(p["ecrf_edc_usability"]);
    assert !OptionalRealOk(Get(p, "ecrf_edc_usability"), 0.0, Some(10.0));
    assert "ecrf_edc_usability" in SponsorStudyFailingFields(p);
    assert "ecrf_edc_usability" in SponsorFailingFields(p);
    SponsorErrorsNameFailingFields(p);
  }
}
