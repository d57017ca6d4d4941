/** The domain aggregates: a social profile found (or checked and found
    missing) on one network, an analysis report, and the person entity that
    groups them. Each `New...` function is the pydantic constructor: it returns
    the record when every field constraint holds and a validation error that
    names every violated field otherwise; defaulted fields are default
    parameters. */
module Domain {
  import opened Wrappers
  import opened Values

  /** A pydantic `ValidationError`: the model and the fields that failed. */
  datatype ValidationError = ValidationError(model: string, fields: seq<string>)

  datatype SocialProfile = SocialProfile(
    url: string,
    username: string,
    networkName: string,
    existe: bool,
    metadata: Metadata,
    bio: Option<string>,
    imagenUrl: Option<string>)

  /** The profile was confirmed to exist (`p.existe`). */
  predicate IsConfirmed(p: SocialProfile) { p.existe }

  predicate IsUnconfirmed(p: SocialProfile) { !p.existe }

  predicate ValidUsername(username: string) { 1 <= |username| <= 128 }
  predicate ValidNetworkName(networkName: string) { 1 <= |networkName| <= 64 }
  predicate ValidBio(bio: Option<string>) { bio.Some? ==> |bio.value| <= 10000 }

  predicate ValidSocialProfile(p: SocialProfile) {
    ValidUsername(p.username) && ValidNetworkName(p.networkName) && ValidBio(p.bio)
  }

  /** `SocialProfile(...)`. */
  function NewSocialProfile(
    url: string,
    username: string,
    networkName: string,
    existe: bool := false,
    metadata: Metadata := map[],
    bio: Option<string> := None,
    imagenUrl: Option<string> := None): (r: Result<SocialProfile, ValidationError>)
    ensures r.Ok? <==> ValidUsername(username) && ValidNetworkName(networkName) && ValidBio(bio)
    ensures r.Ok? ==> ValidSocialProfile(r.value)
    ensures r.Ok? ==> r.value.url == url && r.value.username == username
                      && r.value.networkName == networkName && r.value.existe == existe
                      && r.value.metadata == metadata && r.value.bio == bio
                      && r.value.imagenUrl == imagenUrl
    ensures r.Err? ==> r.error.fields != []
  {
    var failed :=
      (if ValidUsername(username) then [] else ["username"])
      + (if ValidNetworkName(networkName) then [] else ["network_name"])
      + (if ValidBio(bio) then [] else ["bio"]);
    if failed == [] then Ok(SocialProfile(url, username, networkName, existe, metadata, bio, imagenUrl))
    else Err(ValidationError("SocialProfile", failed))
  }

  /** A profile built with only the required fields has `existe == False` and
      an empty `metadata`. */
  lemma SocialProfileDefaults(url: string, username: string, networkName: string)
    requires ValidUsername(username) && ValidNetworkName(networkName)
    ensures NewSocialProfile(url, username, networkName).Ok?
    ensures !NewSocialProfile(url, username, networkName).value.existe
    ensures NewSocialProfile(url, username, networkName).value.metadata == map[]
    ensures NewSocialProfile(url, username, networkName).value.bio == None
  {
  }

  /** An analysis report (`generated_at`, a wall-clock default, is not modelled). */
  datatype AnalysisReport = AnalysisReport(
    summary: string,
    highlights: seq<string>,
    confidence: real,
    model: Option<string>,
    raw: Metadata)

  predicate ValidSummary(summary: string) { 1 <= |summary| <= 20000 }
  predicate ValidConfidence(c: real) { 0.0 <= c <= 1.0 }

  predicate ValidAnalysisReport(a: AnalysisReport) {
    ValidSummary(a.summary) && ValidConfidence(a.confidence)
  }

  /** `AnalysisReport(...)`. */
  function NewAnalysisReport(
    summary: string,
    highlights: seq<string> := [],
    confidence: real := 0.5,
    model: Option<string> := None,
    raw: Metadata := map[]): (r: Result<AnalysisReport, ValidationError>)
    ensures r.Ok? <==> ValidSummary(summary) && ValidConfidence(confidence)
    ensures r.Ok? ==> ValidAnalysisReport(r.value)
    ensures r.Ok? ==> r.value == AnalysisReport(summary, highlights, confidence, model, raw)
    ensures r.Err? ==> r.error.fields != []
  {
    var failed :=
      (if ValidSummary(summary) then [] else ["summary"])
      + (if ValidConfidence(confidence) then [] else ["confidence"]);
    if failed == [] then Ok(AnalysisReport(summary, highlights, confidence, model, raw))
    else Err(ValidationError("AnalysisReport", failed))
  }

  /** A report built from a valid summary alone has confidence 0.5, no
      highlights and no model. */
  lemma AnalysisReportDefaults(summary: string)
    requires ValidSummary(summary)
    ensures NewAnalysisReport(summary).Ok?
    ensures NewAnalysisReport(summary).value.confidence == 0.5
    ensures NewAnalysisReport(summary).value.highlights == []
    ensures NewAnalysisReport(summary).value.model == None
  {
  }

  datatype PersonEntity = PersonEntity(
    target: string,
    profiles: seq<SocialProfile>,
    analysis: Option<AnalysisReport>)

  predicate ValidTarget(target: string) { 1 <= |target| <= 256 }

  /** `PersonEntity(...)`. Profiles and the analysis are passed as already
      built model instances, which pydantic does not validate again, so only
      the target is checked. */
  function NewPersonEntity(
    target: string,
    profiles: seq<SocialProfile> := [],
    analysis: Option<AnalysisReport> := None): (r: Result<PersonEntity, ValidationError>)
    ensures r.Ok? <==> ValidTarget(target)
    ensures r.Ok? ==> r.value == PersonEntity(target, profiles, analysis)
    ensures r.Err? ==> r.error.fields == ["target"]
  {
    if ValidTarget(target) then Ok(PersonEntity(target, profiles, analysis))
    else Err(ValidationError("PersonEntity", ["target"]))
  }

  lemma PersonEntityDefaults(target: string)
    requires ValidTarget(target)
    ensures NewPersonEntity(target).Ok?
    ensures NewPersonEntity(target).value.profiles == []
    ensures NewPersonEntity(target).value.analysis == None
  {
  }
}
