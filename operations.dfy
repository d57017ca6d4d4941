/** The input transformation a site-list entry may ask for before its email
    or username is put into the probe URL. The digests and percent-encoding
    are library functions outside the model and are passed in. */
module InputOperations {
  import opened Wrappers
  import opened PyText

  /** `hashlib.md5/sha1/sha256(v.encode("utf-8")).hexdigest()` and `urllib.parse.quote`. */
  datatype Foreign = Foreign(
    md5Hex: string -> string,
    sha1Hex: string -> string,
    sha256Hex: string -> string,
    quote: string -> string)

  /** Every operation name the dispatcher recognises, after normalisation. */
  const KNOWN_OPERATIONS: set<string> := {
    "identity", "none", "noop", "lower", "strip",
    "urlencode", "url-encode", "url_encode",
    "hash-md5", "md5", "hash-sha1", "sha1", "hash-sha256", "sha256"
  }

  /** `apply_input_operation(value, operation)`: no operation leaves the value
      alone; a name is normalised with `strip().lower()` before it is looked up. */
  function ApplyInputOperation(value: string, operation: Option<string>, f: Foreign): (r: string)
    ensures operation.None? ==> r == value
    ensures operation.Some? && Lower(Strip(operation.value)) !in KNOWN_OPERATIONS ==> r == value
    ensures r in {value, Lower(value), Strip(value), f.quote(value),
                  f.md5Hex(value), f.sha1Hex(value), f.sha256Hex(value)}
  {
    if operation.None? then value
    else RunOperation(value, Lower(Strip(operation.value)), f)
  }

  /** The branch of `apply_input_operation` for an already normalised name;
      an unknown name leaves the value unchanged. */
  function RunOperation(value: string, op: string, f: Foreign): (r: string)
    ensures op !in KNOWN_OPERATIONS ==> r == value
    ensures r in {value, Lower(value), Strip(value), f.quote(value),
                  f.md5Hex(value), f.sha1Hex(value), f.sha256Hex(value)}
  {
    if op in {"identity", "none", "noop"} then value
    else if op == "lower" then Lower(value)
    else if op == "strip" then Strip(value)
    else if op in {"urlencode", "url-encode", "url_encode"} then f.quote(value)
    else if op in {"hash-md5", "md5"} then f.md5Hex(value)
    else if op in {"hash-sha1", "sha1"} then f.sha1Hex(value)
    else if op in {"hash-sha256", "sha256"} then f.sha256Hex(value)
    else value
  }

  /** Normalising an operation name does not change it again. */
  lemma NormaliseIdempotent(op: string)
    ensures Lower(Strip(Lower(Strip(op)))) == Lower(Strip(op))
  {
    LowerStripCommute(Strip(op));
    StripIdempotent(op);
    LowerIdempotent(Strip(op));
  }

  /** Operation names are compared after `strip().lower()`: a name and its
      normal form select the same operation. */
  lemma NameIsNormalised(value: string, op: string, f: Foreign)
    ensures ApplyInputOperation(value, Some(op), f)
         == ApplyInputOperation(value, Some(Lower(Strip(op))), f)
  {
    NormaliseIdempotent(op);
  }

  /** A name written without whitespace at its ends and without capitals is
      already in normal form. */
  lemma NormalFormLiteral(op: string)
    requires op != [] && !IsSpace(op[0]) && !IsSpace(op[|op| - 1])
    requires forall i :: 0 <= i < |op| ==> !IsAsciiUpper(op[i])
    ensures Lower(Strip(op)) == op
  {
    StripNoop(op);
  }

  /** `" LOWER "` behaves like `"lower"`. */
  lemma PaddedUpperCaseName(value: string, f: Foreign)
    ensures ApplyInputOperation(value, Some(" LOWER "), f) == Lower(value)
  {
    var s := " LOWER ";
    assert SkipForward(s, 0, IsSpace) == 1 by {
      assert IsSpace(s[0]) && !IsSpace(s[1]);
    }
    assert SkipBackward(s, 7, 1, IsSpace) == 6 by {
      assert IsSpace(s[6]) && !IsSpace(s[5]);
    }
    assert Strip(s) == "LOWER";
    assert Lower("LOWER") == "lower";
  }

  /** `identity`, `none` and `noop` return the input. */
  lemma IdentityAliases(value: string, f: Foreign)
    ensures ApplyInputOperation(value, Some("identity"), f) == value
    ensures ApplyInputOperation(value, Some("none"), f) == value
    ensures ApplyInputOperation(value, Some("noop"), f) == value
  {
    NormalFormLiteral("identity");
    NormalFormLiteral("none");
    NormalFormLiteral("noop");
  }

  /** `lower` lower-cases the input. */
  lemma LowerOperation(value: string, f: Foreign)
    ensures ApplyInputOperation(value, Some("lower"), f) == Lower(value)
  {
    NormalFormLiteral("lower");
  }

  /** `strip` strips the input. */
  lemma StripOperation(value: string, f: Foreign)
    ensures ApplyInputOperation(value, Some("strip"), f) == Strip(value)
  {
    NormalFormLiteral("strip");
  }

  /** `hash-md5` and `md5` are the same operation. */
  lemma Md5Aliases(value: string, f: Foreign)
    ensures ApplyInputOperation(value, Some("hash-md5"), f) == f.md5Hex(value)
    ensures ApplyInputOperation(value, Some("md5"), f) == f.md5Hex(value)
  {
    NormalFormLiteral("hash-md5");
    NormalFormLiteral("md5");
  }

  /** `hash-sha1` and `sha1` are the same operation. */
  lemma Sha1Aliases(value: string, f: Foreign)
    ensures ApplyInputOperation(value, Some("hash-sha1"), f) == f.sha1Hex(value)
    ensures ApplyInputOperation(value, Some("sha1"), f) == f.sha1Hex(value)
  {
    NormalFormLiteral("hash-sha1");
    NormalFormLiteral("sha1");
  }

  /** `hash-sha256` and `sha256` are the same operation. */
  lemma Sha256Aliases(value: string, f: Foreign)
    ensures ApplyInputOperation(value, Some("hash-sha256"), f) == f.sha256Hex(value)
    ensures ApplyInputOperation(value, Some("sha256"), f) == f.sha256Hex(value)
  {
    NormalFormLiteral("hash-sha256");
    NormalFormLiteral("sha256");
  }

  /** The three spellings of URL-encoding are the same operation. */
  lemma UrlEncodeAliases(value: string, f: Foreign)
    ensures ApplyInputOperation(value, Some("urlencode"), f) == f.quote(value)
    ensures ApplyInputOperation(value, Some("url-encode"), f) == f.quote(value)
    ensures ApplyInputOperation(value, Some("url_encode"), f) == f.quote(value)
  {
    NormalFormLiteral("urlencode");
    NormalFormLiteral("url-encode");
    NormalFormLiteral("url_encode");
  }
}
