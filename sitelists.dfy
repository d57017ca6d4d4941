/** Data-driven site lists: the records read from a WhatsMyName-style JSON
    manifest, each a site to probe for a username or an email, and the
    transformation a site asks to apply to the email before probing. */
module SiteListModels {
  import opened Wrappers
  import opened Values
  import Domain

  predicate ValidStatusCode(code: int) { 100 <= code <= 599 }

  predicate ValidOptionalCode(code: Option<int>) { code.Some? ==> ValidStatusCode(code.value) }

  datatype UsernameSite = UsernameSite(
    name: string,
    uriCheck: string,
    eCode: int,
    eString: string,
    mString: Option<string>,
    mCode: Option<int>,
    cat: Option<string>)

  predicate ValidUsernameSite(s: UsernameSite) {
    |s.name| >= 1 && |s.uriCheck| >= 1 && ValidStatusCode(s.eCode) && |s.eString| >= 1
    && ValidOptionalCode(s.mCode)
  }

  /** `UsernameSite(...)`. */
  function NewUsernameSite(
    name: string,
    uriCheck: string,
    eCode: int,
    eString: string,
    mString: Option<string> := None,
    mCode: Option<int> := None,
    cat: Option<string> := None): (r: Result<UsernameSite, Domain.ValidationError>)
    ensures r.Ok? <==> |name| >= 1 && |uriCheck| >= 1 && |eString| >= 1
                       && ValidStatusCode(eCode) && ValidOptionalCode(mCode)
    ensures r.Ok? ==> ValidUsernameSite(r.value) && r.value.name == name && r.value.eCode == eCode
                      && r.value.mCode == mCode && r.value.uriCheck == uriCheck
    ensures r.Err? ==> r.error.fields != []
  {
    var s := UsernameSite(name, uriCheck, eCode, eString, mString, mCode, cat);
    var failed :=
      (if |name| >= 1 then [] else ["name"])
      + (if |uriCheck| >= 1 then [] else ["uri_check"])
      + (if ValidStatusCode(eCode) then [] else ["e_code"])
      + (if |eString| >= 1 then [] else ["e_string"])
      + (if ValidOptionalCode(mCode) then [] else ["m_code"]);
    if failed == [] then Ok(s) else Err(Domain.ValidationError("UsernameSite", failed))
  }

  datatype EmailSite = EmailSite(
    name: string,
    uriCheck: string,
    httpMethod: string,
    data: Option<string>,
    headers: Option<Metadata>,
    eCode: int,
    eString: string,
    mString: Option<string>,
    mCode: Option<int>,
    cat: Option<string>,
    inputOperation: Option<string>)

  predicate ValidEmailSite(s: EmailSite) {
    |s.name| >= 1 && |s.uriCheck| >= 1 && ValidStatusCode(s.eCode) && |s.eString| >= 1
    && ValidOptionalCode(s.mCode)
  }

  /** `EmailSite(...)`; the request method defaults to "GET". */
  function NewEmailSite(
    name: string,
    uriCheck: string,
    eCode: int,
    eString: string,
    httpMethod: string := "GET",
    data: Option<string> := None,
    headers: Option<Metadata> := None,
    mString: Option<string> := None,
    mCode: Option<int> := None,
    cat: Option<string> := None,
    inputOperation: Option<string> := None): (r: Result<EmailSite, Domain.ValidationError>)
    ensures r.Ok? <==> |name| >= 1 && |uriCheck| >= 1 && |eString| >= 1
                       && ValidStatusCode(eCode) && ValidOptionalCode(mCode)
    ensures r.Ok? ==> ValidEmailSite(r.value) && r.value.httpMethod == httpMethod
                      && r.value.eCode == eCode && r.value.mCode == mCode
                      && r.value.inputOperation == inputOperation
    ensures r.Err? ==> r.error.fields != []
  {
    var s := EmailSite(name, uriCheck, httpMethod, data, headers, eCode, eString, mString, mCode, cat, inputOperation);
    var failed :=
      (if |name| >= 1 then [] else ["name"])
      + (if |uriCheck| >= 1 then [] else ["uri_check"])
      + (if ValidStatusCode(eCode) then [] else ["e_code"])
      + (if |eString| >= 1 then [] else ["e_string"])
      + (if ValidOptionalCode(mCode) then [] else ["m_code"]);
    if failed == [] then Ok(s) else Err(Domain.ValidationError("EmailSite", failed))
  }

  lemma EmailSiteDefaultMethod(name: string, uriCheck: string, eCode: int, eString: string)
    requires |name| >= 1 && |uriCheck| >= 1 && |eString| >= 1 && ValidStatusCode(eCode)
    ensures NewEmailSite(name, uriCheck, eCode, eString).Ok?
    ensures NewEmailSite(name, uriCheck, eCode, eString).value.httpMethod == "GET"
  {
  }

  datatype UsernameSitesFile = UsernameSitesFile(sites: seq<UsernameSite>)

  datatype EmailSitesFile = EmailSitesFile(sites: seq<EmailSite>)

  /** Validating a username manifest validates every entry of its `sites` list. */
  function NewUsernameSitesFile(sites: seq<UsernameSite> := []): (r: Result<UsernameSitesFile, Domain.ValidationError>)
    ensures r.Ok? <==> forall i :: 0 <= i < |sites| ==> ValidUsernameSite(sites[i])
    ensures r.Ok? ==> r.value.sites == sites
  {
    if forall i :: 0 <= i < |sites| ==> ValidUsernameSite(sites[i]) then Ok(UsernameSitesFile(sites))
    else Err(Domain.ValidationError("UsernameSitesFile", ["sites"]))
  }

  /** Validating an email manifest validates every entry of its `sites` list. */
  function NewEmailSitesFile(sites: seq<EmailSite> := []): (r: Result<EmailSitesFile, Domain.ValidationError>)
    ensures r.Ok? <==> forall i :: 0 <= i < |sites| ==> ValidEmailSite(sites[i])
    ensures r.Ok? ==> r.value.sites == sites
  {
    if forall i :: 0 <= i < |sites| ==> ValidEmailSite(sites[i]) then Ok(EmailSitesFile(sites))
    else Err(Domain.ValidationError("EmailSitesFile", ["sites"]))
  }

  lemma SitesFilesDefaultEmpty()
    ensures NewUsernameSitesFile().Ok? && NewUsernameSitesFile().value.sites == []
    ensures NewEmailSitesFile().Ok? && NewEmailSitesFile().value.sites == []
  {
  }
}
