/** The text handling of the AI analyst: trimming evidence before it is put
    into a prompt, recognising the six numbered Markdown sections a report
    must have, locating the JSON object in a provider's reply, cutting junk
    sections out of a summary, and the small predicates that steer the calls.
    The regular expressions of the source are written out as predicates on
    positions; `unicodeAlnum` supplies `str.isalnum()` above U+007F where a
    word boundary `\b` needs it. */
module AiText {
  import opened Wrappers
  import opened PyText
  import opened Values
  import opened Seqs

  // ---------------------------------------------------------------------------
  // Trimming evidence
  // ---------------------------------------------------------------------------

  /** `_truncate_str(value, max_chars)`: the stripped string, cut to fit with
      an ellipsis, or `None` for a non-string or a blank one. */
  function TruncateStr(value: Value, maxChars: int): (r: Option<string>)
    ensures r.None? <==> !value.VStr? || Strip(value.s) == ""
    ensures r.Some? ==> r.value != ""
    ensures r.Some? && |Strip(value.s)| <= maxChars ==> r.value == Strip(value.s)
    ensures r.Some? && |Strip(value.s)| > maxChars ==>
              EndsWith(r.value, "…") && r.value[..|r.value| - 1] <= Strip(value.s)
    ensures r.Some? && maxChars >= 1 ==> |r.value| <= maxChars
  {
    if !value.VStr? then None
    else
      var s := Strip(value.s);
      if s == "" then None
      else if |s| <= maxChars then Some(s)
      else
        var cut := RStrip(SliceTo(s, maxChars - 1));
        assert cut <= s;
        assert (cut + "…")[..|cut|] == cut;
        Some(cut + "…")
  }

  /** With a zero budget the cut reads `s[:-1]`, so the result is as long as
      the input: the length bound needs at least one character. */
  lemma TruncateZeroBudget()
    ensures TruncateStr(VStr("ab"), 0) == Some("a…")
  {
    var s := "ab";
    assert Strip(s) == s by { StripNoop(s); }
    assert SliceTo(s, -1) == "a";
    assert SkipBackward("a", 1, 0, IsSpace) == 1 by { assert !IsSpace('a'); }
    assert RStrip("a") == "a";
    assert "a" + "…" == "a…";
  }

  /** `_limit_list(value, max_items)`: the first items of a non-empty list. */
  function LimitList(value: Value, maxItems: int): (r: Option<seq<Value>>)
    ensures r.None? <==> !value.VList? || value.items == []
    ensures r.Some? ==> r.value <= value.items
    ensures r.Some? && maxItems >= 0 ==>
              |r.value| == if maxItems < |value.items| then maxItems else |value.items|
    ensures r.Some? && maxItems >= 1 ==> r.value != []
  {
    if !value.VList? || value.items == [] then None else Some(SliceTo(value.items, maxItems))
  }

  /** The non-empty truncations of `items`, in order. */
  function Truncated(items: seq<Value>, maxChars: int): (r: seq<string>)
    ensures |r| <= |items|
    ensures forall k :: 0 <= k < |r| ==> r[k] != "" && (maxChars >= 1 ==> |r[k]| <= maxChars)
    decreases |items|
  {
    if items == [] then []
    else
      var rest := Truncated(items[..|items| - 1], maxChars);
      match TruncateStr(items[|items| - 1], maxChars)
      case None => rest
      case Some(s) => rest + [s]
  }

  /** A string that is not blank. */
  predicate IsText(v: Value) { v.VStr? && Strip(v.s) != "" }

  /** Every string item that is not blank yields a sample, and nothing else does. */
  lemma {:induction false} TruncatedKeepsText(items: seq<Value>, maxChars: int)
    ensures |Truncated(items, maxChars)| == |Filter(items, IsText)|
    decreases |items|
  {
    if items != [] {
      var last := items[|items| - 1];
      var init := items[..|items| - 1];
      TruncatedKeepsText(init, maxChars);
      FilterLast(items, IsText);
    }
  }

  /** What `_compact_text_samples` returns: at most `maxItems` non-empty
      samples, each within `maxChars` when that is positive, or `None`. */
  function CompactSamples(value: Value, maxItems: int, maxChars: int): (r: Option<seq<string>>)
    ensures !value.VList? ==> r.None?
    ensures r.Some? ==> r.value != []
    ensures r.Some? ==> forall k :: 0 <= k < |r.value| ==>
              r.value[k] != "" && (maxChars >= 1 ==> |r.value[k]| <= maxChars)
    ensures r.Some? && maxItems >= 0 ==> |r.value| <= maxItems
  {
    match LimitList(value, maxItems)
    case None => None
    case Some(items) =>
      var out := Truncated(items, maxChars);
      if out == [] then None else Some(out)
  }

  /** `_compact_text_samples(value, max_items=..., max_chars_each=...)`. */
  method CompactTextSamples(value: Value, maxItems: int, maxCharsEach: int)
    returns (r: Option<seq<string>>)
    ensures r == CompactSamples(value, maxItems, maxCharsEach)
  {
    var items := LimitList(value, maxItems);
    if items.None? || items.value == [] {
      return None;
    }
    var xs := items.value;
    var out: seq<string> := [];
    for k := 0 to |xs|
      invariant out == Truncated(xs[..k], maxCharsEach)
    {
      assert xs[..k + 1][..k] == xs[..k];
      var s := TruncateStr(xs[k], maxCharsEach);
      if s.Some? && s.value != "" {
        out := out + [s.value];
      }
    }
    assert xs[..|xs|] == xs;
    if out == [] {
      return None;
    }
    return Some(out);
  }

  // ---------------------------------------------------------------------------
  // Numbered section headings
  // ---------------------------------------------------------------------------

  /** `^` in multi-line mode: the start of the text or just after a newline. */
  predicate LineStart(s: string, i: nat) {
    i == 0 || (i <= |s| && s[i - 1] == '\n')
  }

  /** The end of a match of `^##\s*<d>\.` that starts at `i`, if one does. */
  function NumberedHeadingEnd(s: string, i: nat, d: char): (r: Option<nat>)
    ensures r.Some? ==> i + 4 <= r.value <= |s| && s[r.value - 2] == d && s[r.value - 1] == '.'
  {
    if i + 2 <= |s| && LineStart(s, i) && s[i] == '#' && s[i + 1] == '#' then
      var k := SkipForward(s, i + 2, IsSpace);
      if k + 2 <= |s| && s[k] == d && s[k + 1] == '.' then Some(k + 2) else None
    else None
  }

  predicate NumberedHeadingAt(s: string, i: nat, d: char) {
    NumberedHeadingEnd(s, i, d).Some?
  }

  /** `re.search(r"(?m)^##\s*<d>\.", s)`: the leftmost match, as its start
      and end. */
  function SearchNumberedHeading(s: string, d: char): (r: Option<(nat, nat)>)
    ensures r.Some? ==> r.value.0 <= |s| && NumberedHeadingEnd(s, r.value.0, d) == Some(r.value.1)
    ensures r.Some? ==> forall j :: 0 <= j < r.value.0 ==> !NumberedHeadingAt(s, j, d)
    ensures r.None? <==> forall j :: 0 <= j <= |s| ==> !NumberedHeadingAt(s, j, d)
  {
    var p := (j: nat) => NumberedHeadingAt(s, j, d);
    assert forall j: nat :: p(j) == NumberedHeadingAt(s, j, d);
    match FirstFrom(0, |s|, p)
    case None => None
    case Some(i) => Some((i, NumberedHeadingEnd(s, i, d).value))
  }

  /** `_summary_has_six_sections(summary, language)`: the stripped summary has
      a `## 1.` and a `## 6.` heading at the start of some line. Both
      languages use the same patterns, so the language does not matter. */
  predicate SummaryHasSixSections(summary: string) {
    var text := Strip(summary);
    text != "" && SearchNumberedHeading(text, '1').Some? && SearchNumberedHeading(text, '6').Some?
  }

  /** The check holds exactly when both headings occur. */
  lemma SixSectionsMeaning(summary: string)
    ensures SummaryHasSixSections(summary) <==>
              (exists i :: 0 <= i <= |Strip(summary)| && NumberedHeadingAt(Strip(summary), i, '1'))
              && (exists i :: 0 <= i <= |Strip(summary)| && NumberedHeadingAt(Strip(summary), i, '6'))
  {
    var text := Strip(summary);
    var h1 := SearchNumberedHeading(text, '1');
    var h6 := SearchNumberedHeading(text, '6');
    if h1.Some? && h6.Some? {
      assert NumberedHeadingAt(text, h1.value.0, '1');
      assert NumberedHeadingAt(text, h6.value.0, '6');
    }
  }

  // ---------------------------------------------------------------------------
  // Cleaning a summary
  // ---------------------------------------------------------------------------

  /** `^##\s+` at position `j` of `t`. */
  predicate NextHeadingAt(t: string, j: nat) {
    j + 3 <= |t| && LineStart(t, j) && t[j] == '#' && t[j + 1] == '#' && IsSpace(t[j + 2])
  }

  /** The lower-case word `w` at `k`, in any ASCII case, followed by a word
      boundary `\b`. */
  predicate WordAt(s: string, k: nat, w: string, unicodeAlnum: char -> bool) {
    MatchesAt(s, k, w) && (k + |w| == |s| || !IsWordChar(s[k + |w|], unicodeAlnum))
  }

  /** `(?im)^##\s*(highlights|confidence)\b` at position `j`. */
  predicate JunkHeadingAt(s: string, j: nat, unicodeAlnum: char -> bool) {
    j + 2 <= |s| && LineStart(s, j) && s[j] == '#' && s[j + 1] == '#'
    && var k := SkipForward(s, j + 2, IsSpace);
       WordAt(s, k, "highlights", unicodeAlnum) || WordAt(s, k, "confidence", unicodeAlnum)
  }

  /** After the end of the first `## 6.` heading of `summary`, `r` holds no
      further `##` heading. */
  predicate NothingAfterSection6(summary: string, r: string) {
    match SearchNumberedHeading(summary, '6')
    case None => true
    case Some((_, e)) => e <= |r| ==> forall m :: 0 <= m <= |r| - e ==> !NextHeadingAt(r[e..], m)
  }

  /** Keeps the text up to the end of section 6: the first heading after the
      `## 6.` heading, and what follows it, are cut, with trailing
      whitespace. */
  function CutAfterSection6(summary: string): (r: string)
    ensures r <= summary
    ensures NothingAfterSection6(summary, r)
  {
    match SearchNumberedHeading(summary, '6')
    case None => summary
    case Some((_, e)) =>
      var tail := summary[e..];
      var p := (j: nat) => NextHeadingAt(tail, j);
      assert forall j: nat :: p(j) == NextHeadingAt(tail, j);
      match FirstFrom(0, |tail|, p)
      case None => summary
      case Some(j) =>
        var r := RStrip(summary[..e + j]);
        CutBeforeHeading(summary, e, j, r);
        r
  }

  /** A prefix has no heading where the whole text has none. */
  lemma NoHeadingInPrefix(a: string, b: string, m: nat)
    requires a <= b && !NextHeadingAt(b, m)
    ensures !NextHeadingAt(a, m)
  {
    if m + 3 <= |a| {
      assert a[m..m + 3] == b[m..m + 3];
      assert m > 0 ==> a[m - 1] == b[m - 1];
    }
  }

  /** Cutting just before the first heading of `summary[e..]` leaves no
      heading after `e`. */
  lemma CutBeforeHeading(summary: string, e: nat, j: nat, r: string)
    requires e + j <= |summary|
    requires forall m :: 0 <= m < j ==> !NextHeadingAt(summary[e..], m)
    requires r == RStrip(summary[..e + j])
    ensures r <= summary
    ensures e <= |r| ==> forall m :: 0 <= m <= |r| - e ==> !NextHeadingAt(r[e..], m)
  {
    var tail := summary[e..];
    if e <= |r| {
      assert r[e..] <= tail;
      forall m | 0 <= m <= |r| - e ensures !NextHeadingAt(r[e..], m) {
        if m < j {
          NoHeadingInPrefix(r[e..], tail, m);
        }
      }
    }
  }

  /** A heading-free tail stays heading-free in any prefix. */
  lemma NothingAfterPrefix(summary: string, r1: string, r2: string)
    requires r2 <= r1 && NothingAfterSection6(summary, r1)
    ensures NothingAfterSection6(summary, r2)
  {
    match SearchNumberedHeading(summary, '6')
    case None =>
    case Some((_, e)) =>
      if e <= |r2| {
        assert r2[e..] <= r1[e..];
        forall m | 0 <= m <= |r2| - e ensures !NextHeadingAt(r2[e..], m) {
          NoHeadingInPrefix(r2[e..], r1[e..], m);
        }
      }
  }

  /** A whitespace character or a `#` never continues a word. */
  lemma NotWordChar(c: char, unicodeAlnum: char -> bool)
    requires IsSpace(c) || c == '#'
    ensures !IsWordChar(c, unicodeAlnum)
  {
  }

  /** Cuts the text at the first `## Highlights` or `## Confidence` heading,
      with the whitespace before it. */
  function CutJunk(s: string, unicodeAlnum: char -> bool): (r: string)
    ensures r <= s
    ensures forall j :: 0 <= j <= |r| ==> !JunkHeadingAt(r, j, unicodeAlnum)
  {
    var p := (j: nat) => JunkHeadingAt(s, j, unicodeAlnum);
    assert forall j: nat :: p(j) == JunkHeadingAt(s, j, unicodeAlnum);
    match FirstFrom(0, |s|, p)
    case None => s
    case Some(j0) =>
      var r := RStrip(s[..j0]);
      CutBeforeJunk(s, j0, r, unicodeAlnum);
      r
  }

  /** Cutting before the first junk heading leaves none. */
  lemma CutBeforeJunk(s: string, j0: nat, r: string, unicodeAlnum: char -> bool)
    requires j0 <= |s| && JunkHeadingAt(s, j0, unicodeAlnum)
    requires forall j :: 0 <= j < j0 ==> !JunkHeadingAt(s, j, unicodeAlnum)
    requires r == RStrip(s[..j0])
    ensures r <= s
    ensures forall m :: 0 <= m <= |r| ==> !JunkHeadingAt(r, m, unicodeAlnum)
  {
    forall m | 0 <= m <= |r| ensures !JunkHeadingAt(r, m, unicodeAlnum) {
      if JunkHeadingAt(r, m, unicodeAlnum) {
        JunkHeadingInPrefix(r, s, m, j0, unicodeAlnum);
        assert false;
      }
    }
  }

  /** The character just after `RStrip(s[..j0])`, before a heading at `j0`,
      is whitespace or that heading's `#`: never part of a word. */
  lemma RStripBoundary(s: string, j0: nat, r: string, unicodeAlnum: char -> bool)
    requires j0 < |s| && s[j0] == '#' && r == RStrip(s[..j0])
    ensures |r| < |s| && !IsWordChar(s[|r|], unicodeAlnum)
  {
    if |r| < j0 {
      assert IsSpace(s[..j0][|r|]);
      NotWordChar(s[|r|], unicodeAlnum);
    } else {
      NotWordChar(s[|r|], unicodeAlnum);
    }
  }

  /** A word found in a prefix is found in the whole string when the prefix
      does not end in the middle of a longer word. */
  lemma WordAtPrefix(r: string, s: string, k: nat, w: string, unicodeAlnum: char -> bool)
    requires r <= s && WordAt(r, k, w, unicodeAlnum)
    requires |r| < |s| ==> !IsWordChar(s[|r|], unicodeAlnum)
    ensures WordAt(s, k, w, unicodeAlnum)
  {
    assert s[k..k + |w|] == r[k..k + |w|];
    if k + |w| < |r| {
      assert s[k + |w|] == r[k + |w|];
    }
  }

  /** A junk heading in `RStrip(s[..j0])` is one of `s` itself, before `j0`. */
  lemma JunkHeadingInPrefix(r: string, s: string, m: nat, j0: nat, unicodeAlnum: char -> bool)
    requires j0 <= |s| && JunkHeadingAt(s, j0, unicodeAlnum)
    requires r == RStrip(s[..j0])
    requires JunkHeadingAt(r, m, unicodeAlnum)
    ensures m < j0 && JunkHeadingAt(s, m, unicodeAlnum)
  {
    assert r <= s;
    var k := SkipForward(r, m + 2, IsSpace);
    SkipForwardPrefix(r, s, m + 2, IsSpace);
    RStripBoundary(s, j0, r, unicodeAlnum);
    if WordAt(r, k, "highlights", unicodeAlnum) {
      WordAtPrefix(r, s, k, "highlights", unicodeAlnum);
    } else {
      WordAtPrefix(r, s, k, "confidence", unicodeAlnum);
    }
    assert s[m] == r[m] && s[m + 1] == r[m + 1];
    assert m > 0 ==> s[m - 1] == r[m - 1];
  }

  /** `_sanitize_summary_markdown(text)`: the stripped summary cut after its
      sixth section and before any `Highlights`/`Confidence` heading; `""` for
      anything that is not a string. */
  function SanitizeSummaryMarkdown(text: Value, unicodeAlnum: char -> bool): (r: string)
    ensures !text.VStr? ==> r == ""
    ensures text.VStr? ==> r <= Strip(text.s)
    ensures text.VStr? ==> NothingAfterSection6(Strip(text.s), r)
    ensures forall j :: 0 <= j <= |r| ==> !JunkHeadingAt(r, j, unicodeAlnum)
  {
    if !text.VStr? then ""
    else
      var summary := Strip(text.s);
      if summary == "" then summary
      else
        var cut := CutAfterSection6(summary);
        var r := CutJunk(cut, unicodeAlnum);
        NothingAfterPrefix(summary, cut, r);
        r
  }

  /** A summary without the two kinds of junk is only stripped. */
  lemma SanitizeClean(text: string, unicodeAlnum: char -> bool)
    requires SearchNumberedHeading(Strip(text), '6').None?
    requires forall j :: 0 <= j <= |Strip(text)| ==> !JunkHeadingAt(Strip(text), j, unicodeAlnum)
    ensures SanitizeSummaryMarkdown(VStr(text), unicodeAlnum) == Strip(text)
  {
    var summary := Strip(text);
    var p := (j: nat) => JunkHeadingAt(summary, j, unicodeAlnum);
    assert forall j: nat :: p(j) == JunkHeadingAt(summary, j, unicodeAlnum);
    assert FirstFrom(0, |summary|, p).None?;
  }

  // ---------------------------------------------------------------------------
  // Locating the JSON object of a reply
  // ---------------------------------------------------------------------------

  /** Three backticks at `i`. */
  predicate FenceAt(s: string, i: nat) {
    i + 3 <= |s| && s[i] == '`' && s[i + 1] == '`' && s[i + 2] == '`'
  }

  /** Where the object of a fence opened at `i` begins: after the backticks,
      an optional `json` in any case and whitespace, at a `{`. */
  function FenceOpen(s: string, i: nat): (r: Option<nat>)
    ensures r.Some? ==> i + 3 <= r.value < |s| && s[r.value] == '{'
  {
    if FenceAt(s, i) then
      var p := if MatchesAt(s, i + 3, "json") then i + 7 else i + 3;
      var k := SkipForward(s, p, IsSpace);
      if k < |s| && s[k] == '{' then Some(k) else None
    else None
  }

  /** A `}` at `m` followed by whitespace and three backticks. */
  predicate FenceCloseAt(s: string, m: nat) {
    m < |s| && s[m] == '}' && FenceAt(s, SkipForward(s, m + 1, IsSpace))
  }

  /** The fenced object starting at `i`: the `{` and the first `}` after it
      that closes the fence (the lazy `.*?`). */
  function FenceMatchAt(s: string, i: nat): (r: Option<(nat, nat)>)
    ensures r.Some? ==> r.value.0 < r.value.1 < |s| && s[r.value.0] == '{' && s[r.value.1] == '}'
  {
    match FenceOpen(s, i)
    case None => None
    case Some(k) =>
      var p := (m: nat) => FenceCloseAt(s, m);
      assert forall m: nat :: p(m) == FenceCloseAt(s, m);
      match FirstFrom(k + 1, |s|, p)
      case None => None
      case Some(m) => Some((k, m))
  }

  /** `_JSON_FENCE_RE.search(text)`: the leftmost fenced object. */
  function SearchFence(s: string): (r: Option<(nat, nat)>)
    ensures r.Some? ==> r.value.0 < r.value.1 < |s| && s[r.value.0] == '{' && s[r.value.1] == '}'
    ensures r.None? ==> forall i :: 0 <= i <= |s| ==> FenceMatchAt(s, i).None?
  {
    var p := (i: nat) => FenceMatchAt(s, i).Some?;
    assert forall i: nat :: p(i) == FenceMatchAt(s, i).Some?;
    match FirstFrom(0, |s|, p)
    case None => None
    case Some(i) => FenceMatchAt(s, i)
  }

  /** The stripped reply both starts with `{` and ends with `}`. */
  predicate Braced(t: string) {
    StartsWith(t, "{") && EndsWith(t, "}")
  }

  /** The span from the first `{` to the last `}`, when the first comes before
      the last. */
  function BraceSpan(t: string): (r: Option<string>)
    ensures r.Some? ==> |r.value| >= 2 && r.value[0] == '{' && r.value[|r.value| - 1] == '}'
  {
    match (Find(t, '{'), RFind(t, '}'))
    case (Some(start), Some(end)) => if start < end then Some(t[start..end + 1]) else None
    case _ => None
  }

  /** `_extract_json_object(text)`; `isJson` is whether `json.loads` accepts a
      string. A failure is the `ValueError` the source raises. */
  function ExtractJsonObject(text: string, isJson: string -> bool): (r: Result<string, string>)
    ensures r.Ok? ==> r.value != "" && r.value[0] == '{' && r.value[|r.value| - 1] == '}'
    ensures r.Ok? && SearchFence(text).None? && !Braced(Strip(text)) ==> isJson(r.value)
    ensures r.Err? <==> SearchFence(text).None? && !Braced(Strip(text))
                        && (BraceSpan(Strip(text)).None? || !isJson(BraceSpan(Strip(text)).value))
    ensures r.Err? ==> r.error == "ValueError"
  {
    match SearchFence(text)
    case Some((k, m)) => Ok(FencedObject(text, k, m))
    case None => UnfencedObject(Strip(text), isJson)
  }

  /** `match.group(1).strip()` for a fence whose object spans `k..m`: the
      object starts and ends with a brace, so stripping leaves it whole. */
  function FencedObject(text: string, k: nat, m: nat): (r: string)
    requires k < m < |text| && text[k] == '{' && text[m] == '}'
    ensures r == text[k..m + 1]
    ensures r != [] && r[0] == '{' && r[|r| - 1] == '}'
  {
    var obj := text[k..m + 1];
    StripNoop(obj);
    Strip(obj)
  }

  /** The fallbacks of `_extract_json_object` once no fence matched, on the
      stripped reply: the whole reply when it is braced, else the brace span
      when it decodes. */
  function UnfencedObject(stripped: string, isJson: string -> bool): (r: Result<string, string>)
    ensures r.Ok? ==> r.value != "" && r.value[0] == '{' && r.value[|r.value| - 1] == '}'
    ensures r.Ok? && !Braced(stripped) ==> isJson(r.value)
    ensures r.Ok? && Braced(stripped) ==> r.value == stripped
    ensures r.Err? <==> !Braced(stripped) && (BraceSpan(stripped).None? || !isJson(BraceSpan(stripped).value))
    ensures r.Err? ==> r.error == "ValueError"
  {
    if Braced(stripped) then Ok(stripped)
    else match BraceSpan(stripped)
      case Some(candidate) => if isJson(candidate) then Ok(candidate) else Err("ValueError")
      case None => Err("ValueError")
  }

  /** A reply that is exactly a padded object is returned stripped, whatever
      the JSON decoder says. */
  lemma BareObjectReply(text: string, isJson: string -> bool)
    requires SearchFence(text).None? && Braced(Strip(text))
    ensures ExtractJsonObject(text, isJson) == Ok(Strip(text))
  {
  }

  /** The leftmost fence wins, whatever follows it. */
  lemma FencedObjectReply(s: string, isJson: string -> bool)
    requires FenceMatchAt(s, 0).Some?
    ensures ExtractJsonObject(s, isJson) == Ok(s[FenceMatchAt(s, 0).value.0..FenceMatchAt(s, 0).value.1 + 1])
  {
  }

  // ---------------------------------------------------------------------------
  // Steering the calls
  // ---------------------------------------------------------------------------

  /** The reply's shape, `_AIReportPayload`: what `json.loads` produced, with
      pydantic's defaults already filled in. */
  datatype ReportPayload = ReportPayload(summary: string, highlights: seq<string>, confidence: real)

  /** `_AIReportPayload.model_validate(...)`: a non-empty summary and a
      confidence in [0, 1]. */
  function ValidatePayload(p: ReportPayload): (r: Result<ReportPayload, string>)
    ensures r.Ok? <==> |p.summary| >= 1 && 0.0 <= p.confidence <= 1.0
    ensures r.Ok? ==> r.value == p
    ensures r.Err? ==> r.error == "ValidationError"
  {
    if |p.summary| >= 1 && 0.0 <= p.confidence <= 1.0 then Ok(p) else Err("ValidationError")
  }

  /** `_should_use_compact_prompt(base_url=..., model=...)`: Groq's endpoint
      with a small model. */
  predicate ShouldUseCompactPrompt(baseUrl: string, model: string) {
    Contains(Lower(baseUrl), "api.groq.com") && SmallModel(model)
  }

  predicate SmallModel(model: string) {
    Contains(Lower(model), "8b") || Contains(Lower(model), "instant")
  }

  /** `_max_tokens_for_model(model)`. */
  function MaxTokensForModel(model: string): (r: nat)
    ensures r == 1100 || r == 1800
    ensures r == 1100 <==> SmallModel(model)
  {
    if SmallModel(model) then 1100 else 1800
  }

  /** The compact prompt always comes with the smaller token budget. */
  lemma CompactPromptSmallBudget(baseUrl: string, model: string)
    requires ShouldUseCompactPrompt(baseUrl, model)
    ensures MaxTokensForModel(model) == 1100
  {
  }

  /** Off Groq the prompt is never compact, whatever the model. */
  lemma CompactOnlyOnGroq(baseUrl: string, model: string)
    requires !Contains(Lower(baseUrl), "api.groq.com")
    ensures !ShouldUseCompactPrompt(baseUrl, model)
  {
  }

  /** `_looks_like_model_rejection(exc)`, on the error's message. */
  predicate LooksLikeModelRejection(message: string) {
    var msg := Lower(message);
    Contains(msg, "model") || Contains(msg, "not found") || Contains(msg, "does not exist")
    || Contains(msg, "unsupported")
  }

  /** The test is blind to the case of the message. */
  lemma ModelRejectionIgnoresCase(message: string)
    ensures LooksLikeModelRejection(Lower(message)) == LooksLikeModelRejection(message)
  {
    LowerIdempotent(message);
  }

  /** `_is_local_base_url(url)`: a plain-HTTP loopback or any-address URL. */
  predicate IsLocalBaseUrl(url: string) {
    var u := Lower(Strip(url));
    StartsWith(u, "http://localhost") || StartsWith(u, "http://127.0.0.1")
    || StartsWith(u, "http://0.0.0.0")
  }

  /** The test is blind to the case and padding of the URL. */
  lemma LocalBaseUrlNormalised(url: string)
    ensures IsLocalBaseUrl(Lower(Strip(url))) == IsLocalBaseUrl(url)
  {
    LowerStripCommute(Strip(url));
    StripIdempotent(url);
    LowerIdempotent(Strip(url));
  }

  const TEMPLATE_SUMMARIES: set<string> :=
    {"markdown text with the six sections above.", "texto en markdown con las seis secciones."}

  const PLACEHOLDER_HIGHLIGHTS: set<string> :=
    {"3-5 high-impact deductions.", "lista de 3-5 deducciones rápidas.", "3-5 high impact deductions."}

  /** `[str(x).strip().lower() for x in highlights]`. */
  function NormalHighlights(hs: seq<string>): (r: seq<string>)
    ensures |r| == |hs|
    ensures forall k :: 0 <= k < |hs| ==> r[k] == Lower(Strip(hs[k]))
  {
    seq(|hs|, k requires 0 <= k < |hs| => Lower(Strip(hs[k])))
  }

  /** `_looks_like_template_response(parsed=...)`: the reply repeats the
      prompt's example instead of filling it in. */
  predicate LooksLikeTemplateResponse(p: ReportPayload) {
    var summary := Lower(Strip(p.summary));
    var hl := NormalHighlights(p.highlights);
    if summary in TEMPLATE_SUMMARIES then true
    else if hl == [] then true
    else if |hl| == 1 && hl[0] in PLACEHOLDER_HIGHLIGHTS then true
    else exists k :: 0 <= k < |hl| && hl[k] in PLACEHOLDER_HIGHLIGHTS
  }

  /** The three rules the detector applies; the check for a single
      placeholder is already covered by the check for any placeholder. */
  lemma TemplateRules(p: ReportPayload)
    ensures LooksLikeTemplateResponse(p) <==>
              Lower(Strip(p.summary)) in TEMPLATE_SUMMARIES
              || p.highlights == []
              || exists k :: 0 <= k < |p.highlights| && Lower(Strip(p.highlights[k])) in PLACEHOLDER_HIGHLIGHTS
  {
    var hl := NormalHighlights(p.highlights);
    if |hl| == 1 && hl[0] in PLACEHOLDER_HIGHLIGHTS {
      assert Lower(Strip(p.highlights[0])) in PLACEHOLDER_HIGHLIGHTS;
    }
    if exists k :: 0 <= k < |p.highlights| && Lower(Strip(p.highlights[k])) in PLACEHOLDER_HIGHLIGHTS {
      var k :| 0 <= k < |p.highlights| && Lower(Strip(p.highlights[k])) in PLACEHOLDER_HIGHLIGHTS;
      assert hl[k] in PLACEHOLDER_HIGHLIGHTS;
    }
  }

  // ---------------------------------------------------------------------------
  // Breach evidence
  // ---------------------------------------------------------------------------

  /** `{"count": ..., "top": ...}` of `_extract_hibp_breaches`. */
  datatype BreachSummary = BreachSummary(count: nat, top: seq<Metadata>)

  const BREACH_FIELDS: set<string> := {"title", "domain", "breach_date", "pwn_count", "data_classes"}

  /** `item.get(snake) or item.get(pascal)`. */
  function BreachField(item: Metadata, snake: string, pascal: string): Value {
    Or(Get(item, snake), Get(item, pascal))
  }

  /** One breach record, each field read in snake case or else in Pascal case. */
  function BreachEntry(item: Metadata): (r: Metadata)
    ensures r.Keys == BREACH_FIELDS
  {
    map["title" := BreachField(item, "title", "Title"),
        "domain" := BreachField(item, "domain", "Domain"),
        "breach_date" := BreachField(item, "breach_date", "BreachDate"),
        "pwn_count" := BreachField(item, "pwn_count", "PwnCount"),
        "data_classes" := BreachField(item, "data_classes", "DataClasses")]
  }

  /** Each field prefers the snake-case key and falls back to the Pascal-case
      one only when the former is missing or falsy. */
  lemma BreachFieldFallback(item: Metadata)
    ensures Truthy(Get(item, "title")) ==> BreachEntry(item)["title"] == item["title"]
    ensures !Truthy(Get(item, "title")) ==> BreachEntry(item)["title"] == Get(item, "Title")
    ensures Truthy(Get(item, "domain")) ==> BreachEntry(item)["domain"] == item["domain"]
    ensures !Truthy(Get(item, "domain")) ==> BreachEntry(item)["domain"] == Get(item, "Domain")
    ensures Truthy(Get(item, "breach_date")) ==> BreachEntry(item)["breach_date"] == item["breach_date"]
    ensures !Truthy(Get(item, "breach_date")) ==> BreachEntry(item)["breach_date"] == Get(item, "BreachDate")
    ensures Truthy(Get(item, "pwn_count")) ==> BreachEntry(item)["pwn_count"] == item["pwn_count"]
    ensures !Truthy(Get(item, "pwn_count")) ==> BreachEntry(item)["pwn_count"] == Get(item, "PwnCount")
    ensures Truthy(Get(item, "data_classes")) ==> BreachEntry(item)["data_classes"] == item["data_classes"]
    ensures !Truthy(Get(item, "data_classes")) ==> BreachEntry(item)["data_classes"] == Get(item, "DataClasses")
  {
  }

  predicate IsDictValue(v: Value) { v.VDict? }

  /** The records built from the dictionaries of a list, in order. */
  function BreachEntries(xs: seq<Value>): (r: seq<Metadata>)
    ensures |r| <= |xs|
    ensures forall k :: 0 <= k < |r| ==> r[k].Keys == BREACH_FIELDS
    decreases |xs|
  {
    if xs == [] then []
    else
      var rest := BreachEntries(xs[..|xs| - 1]);
      var last := xs[|xs| - 1];
      if last.VDict? then rest + [BreachEntry(last.entries)] else rest
  }

  /** One record per dictionary, built from it and in its place among the
      dictionaries: anything else in the list is skipped. */
  lemma {:induction false} BreachEntriesOfDicts(xs: seq<Value>)
    ensures |BreachEntries(xs)| == |Filter(xs, IsDictValue)|
    ensures forall k :: 0 <= k < |Filter(xs, IsDictValue)| ==>
              Filter(xs, IsDictValue)[k].VDict?
              && BreachEntries(xs)[k] == BreachEntry(Filter(xs, IsDictValue)[k].entries)
    decreases |xs|
  {
    if xs != [] {
      var init := xs[..|xs| - 1];
      var last := xs[|xs| - 1];
      BreachEntriesOfDicts(init);
      FilterLast(xs, IsDictValue);
      var dicts := Filter(xs, IsDictValue);
      forall k | 0 <= k < |dicts| ensures dicts[k].VDict? {
        assert dicts[k] in dicts;
      }
    }
  }

  /** What `_extract_hibp_breaches(meta)` returns. */
  function HibpBreaches(meta: Metadata): (r: Option<BreachSummary>)
    ensures r.Some? <==> Get(meta, "breaches").VDict? && Get(Get(meta, "breaches").entries, "breaches").VList?
    ensures r.Some? ==> r.value.top <= BreachEntries(Get(Get(meta, "breaches").entries, "breaches").items)
    ensures r.Some? ==> |r.value.top| == if r.value.count < 10 then r.value.count else 10
    ensures r.Some? ==> r.value.count == |Filter(Get(Get(meta, "breaches").entries, "breaches").items, IsDictValue)|
  {
    var dump := Get(meta, "breaches");
    if !dump.VDict? then None
    else
      var list := Get(dump.entries, "breaches");
      if !list.VList? then None
      else
        var entries := BreachEntries(list.items);
        BreachEntriesOfDicts(list.items);
        Some(BreachSummary(|entries|, SliceTo(entries, 10)))
  }

  /** `_extract_hibp_breaches(meta)`. */
  method ExtractHibpBreaches(meta: Metadata) returns (r: Option<BreachSummary>)
    ensures r == HibpBreaches(meta)
  {
    var dump := Get(meta, "breaches");
    if !dump.VDict? {
      return None;
    }
    var list := Get(dump.entries, "breaches");
    if !list.VList? {
      return None;
    }
    var items := list.items;
    var breaches: seq<Metadata> := [];
    for k := 0 to |items|
      invariant breaches == BreachEntries(items[..k])
    {
      assert items[..k + 1][..k] == items[..k];
      var item := items[k];
      if !item.VDict? {
        continue;
      }
      breaches := breaches + [BreachEntry(item.entries)];
    }
    assert items[..|items|] == items;
    return Some(BreachSummary(|breaches|, SliceTo(breaches, 10)));
  }
}
