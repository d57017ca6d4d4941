/** The output languages: an enumeration whose values are the codes "en" and
    "es". */
module Language {
  import opened Wrappers

  datatype Language = English | Spanish

  /** The enum member's value. */
  function Code(l: Language): (c: string)
    ensures c == "en" || c == "es"
    ensures c == "es" <==> l == Spanish
  {
    match l
    case English => "en"
    case Spanish => "es"
  }

  /** `Language(code)`: looking a member up by its value. */
  function FromCode(code: string): (r: Option<Language>)
    ensures r.Some? <==> code == "en" || code == "es"
    ensures r.Some? ==> Code(r.value) == code
  {
    if code == "en" then Some(English)
    else if code == "es" then Some(Spanish)
    else None
  }

  lemma CodeRoundTrip(l: Language)
    ensures FromCode(Code(l)) == Some(l)
  {
  }

  /** `Language.default()`. */
  function Default(): (l: Language)
    ensures l == English
  {
    English
  }

  /** `Language.from_bool(spanish)`. */
  function FromBool(spanish: bool): (l: Language)
    ensures l == Spanish <==> spanish
  {
    if spanish then Spanish else English
  }

  /** `language.label()`: the human-readable name. */
  function Label(l: Language): (s: string)
    ensures s == "Spanish" || s == "English"
    ensures s == "Spanish" <==> l == Spanish
  {
    if l == Spanish then "Spanish" else "English"
  }

  lemma LabelFromBool(spanish: bool)
    ensures Label(FromBool(spanish)) == "Spanish" <==> spanish
    ensures Label(FromBool(spanish)) == "English" <==> !spanish
  {
  }
}
