/** The AI analysis dispatcher: it drops the unconfirmed profiles of a person,
    falls back to a heuristic report when no API key is usable, and otherwise
    asks an OpenAI-compatible provider for a JSON report, retrying on
    transient errors and on malformed or templated replies, switching once to
    a fallback model on Groq, and falling back to the heuristic report when
    every attempt fails. The provider call, the JSON decoder and the prompt
    texts are outside the model: the provider's answer to each attempt is an
    oracle, and a prompt is represented by what it is made of. */
module AiAnalyst {
  import opened Wrappers
  import opened PyText
  import opened Values
  import opened Domain
  import opened Seqs
  import opened AiText
  import L = Language

  // ---------------------------------------------------------------------------
  // The person's profile list, a mutable object
  // ---------------------------------------------------------------------------

  /** `xs` without its first element equal to `p`. */
  function RemoveFirst<T(==)>(xs: seq<T>, p: T): (r: seq<T>)
    ensures p in xs ==> multiset(r) == multiset(xs) - multiset{p} && |r| == |xs| - 1
    ensures p !in xs ==> r == xs
  {
    if xs == [] then []
    else if xs[0] == p then
      assert xs == [xs[0]] + xs[1..];
      xs[1..]
    else
      assert xs == [xs[0]] + xs[1..];
      [xs[0]] + RemoveFirst(xs[1..], p)
  }

  /** Removing an unconfirmed profile leaves the confirmed ones, in order. */
  lemma {:induction false} RemoveUnconfirmedKeepsConfirmed(xs: seq<SocialProfile>, p: SocialProfile)
    requires !p.existe
    ensures Filter(RemoveFirst(xs, p), IsConfirmed) == Filter(xs, IsConfirmed)
    decreases |xs|
  {
    if xs != [] && xs[0] != p {
      RemoveUnconfirmedKeepsConfirmed(xs[1..], p);
      assert ([xs[0]] + RemoveFirst(xs[1..], p))[1..] == RemoveFirst(xs[1..], p);
    }
  }

  /** The `profiles` list of a `PersonEntity`: one list object, which a shallow
      copy of the person shares. */
  class ProfileList {
    var items: seq<SocialProfile>

    constructor (items0: seq<SocialProfile>)
      ensures items == items0
    {
      items := items0;
    }

    /** `list.remove(p)`: drops the first element equal to `p`. The source
        only removes elements it has just found in the list. */
    method Remove(p: SocialProfile)
      requires p in items
      modifies this
      ensures items == RemoveFirst(old(items), p)
    {
      items := RemoveFirst(items, p);
    }
  }

  /** A `PersonEntity` object whose `profiles` field refers to a list. */
  class PersonRecord {
    const target: string
    var profiles: ProfileList

    constructor (target0: string, profiles0: ProfileList)
      ensures target == target0 && profiles == profiles0
    {
      target := target0;
      profiles := profiles0;
    }
  }

  /** `person.model_copy()`: a new record whose fields refer to the same
      objects, the profile list included. */
  method ModelCopy(person: PersonRecord) returns (copy: PersonRecord)
    ensures fresh(copy) && copy.target == person.target && copy.profiles == person.profiles
  {
    copy := new PersonRecord(person.target, person.profiles);
  }

  /** The `while True` loop of `analyze_person`: collects the unconfirmed
      profiles and removes each from the list until none is left. */
  method DropUnconfirmed(list: ProfileList)
    modifies list
    ensures list.items == Filter(old(list.items), IsConfirmed)
  {
    while true
      invariant Filter(list.items, IsConfirmed) == Filter(old(list.items), IsConfirmed)
      decreases |list.items|
    {
      var toRemove := Filter(list.items, IsUnconfirmed);
      if toRemove == [] {
        break;
      }
      FilterPartition(list.items, IsConfirmed, IsUnconfirmed);
      assert multiset(toRemove) <= multiset(list.items);
      assert forall i :: 0 <= i < |toRemove| ==> !toRemove[i].existe by {
        forall i | 0 <= i < |toRemove| ensures !toRemove[i].existe {
          assert toRemove[i] in toRemove;
        }
      }
      RemoveEach(list, toRemove);
    }
    forall i | 0 <= i < |list.items| ensures IsConfirmed(list.items[i]) {
      assert list.items[i] in list.items;
    }
    FilterAll(list.items, IsConfirmed);
  }

  /** The inner `for p in to_remove` loop: removes each listed unconfirmed
      profile once. */
  method RemoveEach(list: ProfileList, toRemove: seq<SocialProfile>)
    requires multiset(toRemove) <= multiset(list.items)
    requires forall i :: 0 <= i < |toRemove| ==> !toRemove[i].existe
    modifies list
    ensures |list.items| == |old(list.items)| - |toRemove|
    ensures Filter(list.items, IsConfirmed) == Filter(old(list.items), IsConfirmed)
  {
    ghost var original := list.items;
    for k := 0 to |toRemove|
      invariant RemovalProgress(list.items, original, toRemove[k..], k)
    {
      var p := toRemove[k];
      assert !p.existe;
      assert toRemove[k..][0] == p && toRemove[k..][1..] == toRemove[k + 1..];
      RemovalStep(list.items, original, toRemove[k..], k);
      if p.existe == false {
        list.Remove(p);
      }
    }
  }

  /** After `k` removals from `original`, the profiles still to remove are
      in the list, `k` profiles are gone and the confirmed ones are all there. */
  ghost predicate RemovalProgress(items: seq<SocialProfile>, original: seq<SocialProfile>,
                                  pending: seq<SocialProfile>, k: nat) {
    multiset(pending) <= multiset(items)
    && |items| + k == |original|
    && Filter(items, IsConfirmed) == Filter(original, IsConfirmed)
  }

  /** Removing the first of the profiles still to remove keeps the removal
      on track. */
  lemma RemovalStep(items: seq<SocialProfile>, original: seq<SocialProfile>, pending: seq<SocialProfile>, k: nat)
    requires pending != [] && !pending[0].existe
    requires RemovalProgress(items, original, pending, k)
    ensures pending[0] in items
    ensures RemovalProgress(RemoveFirst(items, pending[0]), original, pending[1..], k + 1)
  {
    PendingStep(items, pending);
    RemoveUnconfirmedKeepsConfirmed(items, pending[0]);
  }

  /** After removing the first pending element, the rest are still there. */
  lemma PendingStep<T>(items: seq<T>, pending: seq<T>)
    requires pending != [] && multiset(pending) <= multiset(items)
    ensures pending[0] in items
    ensures multiset(pending[1..]) <= multiset(RemoveFirst(items, pending[0]))
  {
    var p := pending[0];
    assert pending == [p] + pending[1..];
    assert p in multiset(items);
  }

  /** The cleaning step as written: the copy shares the caller's list, so the
      caller's person loses its unconfirmed profiles. */
  method CleanPersonAsWritten(person: PersonRecord) returns (clean: PersonRecord)
    modifies person.profiles
    ensures clean.profiles == person.profiles
    ensures person.profiles.items == Filter(old(person.profiles.items), IsConfirmed)
  {
    clean := ModelCopy(person);
    DropUnconfirmed(clean.profiles);
  }

  /** The caller's list after the step as written, for a person with one
      unconfirmed profile: it had one profile and has none. */
  method AsWrittenEmptiesCallerList() returns (before: nat, after: nat)
    ensures before == 1 && after == 0
  {
    var p := SocialProfile("https://example.org/a", "a", "github", false, map[], None, None);
    var list := new ProfileList([p]);
    var person := new PersonRecord("a", list);
    before := |person.profiles.items|;
    var clean := CleanPersonAsWritten(person);
    after := |person.profiles.items|;
  }

  /** The cleaning step as intended: the copy gets a list of its own. Nothing
      the caller holds is modified. */
  method CleanPerson(person: PersonRecord) returns (clean: PersonRecord)
    ensures fresh(clean) && fresh(clean.profiles)
    ensures clean.target == person.target
    ensures clean.profiles.items == Filter(person.profiles.items, IsConfirmed)
  {
    var list := new ProfileList(person.profiles.items);
    clean := new PersonRecord(person.target, list);
    DropUnconfirmed(clean.profiles);
  }

  /** The same person as in `AsWrittenEmptiesCallerList` keeps its profile. */
  method CleanPersonKeepsCallerList() returns (before: nat, after: nat)
    ensures before == 1 && after == 1
  {
    var p := SocialProfile("https://example.org/a", "a", "github", false, map[], None, None);
    var list := new ProfileList([p]);
    var person := new PersonRecord("a", list);
    before := |person.profiles.items|;
    var clean := CleanPerson(person);
    after := |person.profiles.items|;
  }

  // ---------------------------------------------------------------------------
  // The heuristic report
  // ---------------------------------------------------------------------------

  /** One line of the breach summary for an `hibp` profile. */
  function BreachLine(p: SocialProfile): string {
    var md := p.metadata;
    var status := Get(md, "status_code");
    var dump := Get(md, "breaches");
    var breaches :=
      if dump.VDict? && Get(dump.entries, "breaches").VList?
      then Filter(Get(dump.entries, "breaches").items, IsDictValue) else [];
    if status != VInt(200) then
      "- " + p.username + ": status=" + Str(status) + " error=" + Str(Get(md, "error"))
    else if breaches == [] then
      "- " + p.username + ": 0 breaches"
    else
      var titles := Join(", ", BreachTitles(SliceTo(breaches, 6)));
      var more := if |breaches| <= 6 then "" else " (+" + NatToString(|breaches| - 6) + " more)";
      "- " + p.username + ": " + NatToString(|breaches|) + " breaches → " + titles + more
  }

  /** `b.get("title")`. */
  function TitleOf(b: Value): Value {
    if b.VDict? then Get(b.entries, "title") else VNone
  }

  predicate HasTitle(b: Value) { Truthy(TitleOf(b)) }

  /** `str(b.get("title") or "")` for the breaches whose title is truthy. */
  function BreachTitles(breaches: seq<Value>): (r: seq<string>)
    ensures |r| <= |breaches|
  {
    if breaches == [] then []
    else
      (if HasTitle(breaches[0]) then [Str(TitleOf(breaches[0]))] else []) + BreachTitles(breaches[1..])
  }

  /** The titles are those of the breaches that have one, each as its string
      and in the breaches' order. */
  lemma {:induction false} BreachTitlesOfTitled(breaches: seq<Value>)
    ensures |BreachTitles(breaches)| == |Filter(breaches, HasTitle)|
    ensures forall k :: 0 <= k < |Filter(breaches, HasTitle)| ==>
              BreachTitles(breaches)[k] == Str(TitleOf(Filter(breaches, HasTitle)[k]))
    decreases |breaches|
  {
    if breaches != [] {
      BreachTitlesOfTitled(breaches[1..]);
    }
  }

  predicate IsHibp(p: SocialProfile) { Lower(p.networkName) == "hibp" }

  /** The breach lines of the heuristic report: one per `hibp` profile. */
  function BreachLines(profiles: seq<SocialProfile>): (r: seq<string>)
    ensures |r| == |Filter(profiles, IsHibp)|
    ensures forall k :: 0 <= k < |r| ==> r[k] == BreachLine(Filter(profiles, IsHibp)[k])
    decreases |profiles|
  {
    if profiles == [] then []
    else
      var last := profiles[|profiles| - 1];
      var init := profiles[..|profiles| - 1];
      FilterLast(profiles, IsHibp);
      BreachLines(init) + (if IsHibp(last) then [BreachLine(last)] else [])
  }

  /** The loop of `_heuristic_analysis` that builds the breach lines. */
  method CollectBreachLines(profiles: seq<SocialProfile>) returns (lines: seq<string>)
    ensures lines == BreachLines(profiles)
  {
    lines := [];
    for k := 0 to |profiles|
      invariant lines == BreachLines(profiles[..k])
    {
      assert profiles[..k + 1][..k] == profiles[..k];
      var p := profiles[k];
      if Lower(p.networkName) != "hibp" {
        continue;
      }
      lines := lines + [BreachLine(p)];
    }
    assert profiles[..|profiles|] == profiles;
  }

  /** The lower-cased networks of the confirmed profiles, sorted and without
      repetitions. */
  function ConfirmedNetworks(profiles: seq<SocialProfile>): (r: seq<string>)
    ensures StrictlySorted(r)
    ensures forall n :: n in r <==> exists i :: 0 <= i < |profiles| && profiles[i].existe
                                                && profiles[i].networkName != ""
                                                && n == Lower(profiles[i].networkName)
  {
    SortedSet(set i | 0 <= i < |profiles| && profiles[i].existe && profiles[i].networkName != ""
                    :: Lower(profiles[i].networkName))
  }

  /** The usernames that contain `@`, sorted and without repetitions. */
  function ObservedEmails(profiles: seq<SocialProfile>): (r: seq<string>)
    ensures StrictlySorted(r)
    ensures forall e :: e in r <==> exists i :: 0 <= i < |profiles| && Contains(profiles[i].username, "@")
                                                && e == profiles[i].username
  {
    SortedSet(set i | 0 <= i < |profiles| && Contains(profiles[i].username, "@") :: profiles[i].username)
  }

  /** `', '.join(xs) if xs else 'N/A'`. */
  function ListOrNA(xs: seq<string>): string {
    if xs == [] then "N/A" else Join(", ", xs)
  }

  /** `## <d>.`, starting a line. */
  predicate HeadingLine(x: string, d: char) {
    |x| >= 5 && x[0] == '#' && x[1] == '#' && x[2] == ' ' && x[3] == d && x[4] == '.'
  }

  /** `\n## <d>.`: a heading after an empty line. */
  predicate SpacedHeadingLine(x: string, d: char) {
    |x| >= 6 && x[0] == '\n' && HeadingLine(x[1..], d)
  }

  /** The first section heading line, `## 1.` and its title. */
  function FirstHeading(title: string): (r: string)
    ensures HeadingLine(r, '1')
  {
    "## 1." + title
  }

  /** A later section heading line, `\n## <d>.` and its title. */
  function SectionHeading(d: char, title: string): (r: string)
    ensures SpacedHeadingLine(r, d)
  {
    var r := "\n## " + [d] + "." + title;
    assert r[1..] == "## " + [d] + "." + title;
    r
  }

  /** `<text>.` */
  function Sentence(text: string): (r: string)
    ensures r != [] && r[|r| - 1] == '.'
  {
    text + "."
  }

  /** The fixed wording of the six sections in one language. */
  datatype SectionTexts = SectionTexts(
    titles: seq<string>,      // the six section titles
    identity: string,         // section 1
    geo: string,              // section 2
    psychology: string,       // section 3
    confirmedLabel: string,   // section 4, before the counts
    networksLabel: string,    // section 4, before the networks
    ideology: string,         // section 5
    emailsLabel: string)      // section 6, before the e-mails

  const SPANISH_SECTIONS := SectionTexts(
    [" 🆔 Identidad y demografía (inferencias)", " 🌍 Análisis geo-temporal",
     " 🧠 Perfil psicológico (OCEAN)", " 💻 Perfil técnico/profesional",
     " ⚖️ Ideología y valores", " ⚠️ OpSec / superficie de ataque"],
    "Evidencia insuficiente para inferir atributos personales de forma responsable.",
    "No hay timestamps suficientes para triangular zona horaria.",
    "No se observa contenido textual confiable para un perfil psicológico.",
    "Perfiles confirmados: ",
    "Redes confirmadas: ",
    "Sin evidencia suficiente para inferencias ideológicas.",
    "Emails observados: ")

  const ENGLISH_SECTIONS := SectionTexts(
    [" 🆔 Identity & demographics (inference)", " 🌍 Geo-temporal analysis",
     " 🧠 Psychological profile (OCEAN)", " 💻 Technical/professional profile",
     " ⚖️ Ideology & values", " ⚠️ OpSec / attack surface"],
    "Insufficient evidence to infer personal attributes responsibly.",
    "Not enough timestamps to triangulate timezone.",
    "No reliable textual evidence for a psychological profile.",
    "Confirmed profiles: ",
    "Confirmed networks: ",
    "Insufficient evidence for ideological inferences.",
    "Observed emails: ")

  /** The section wording of a language. */
  function Texts(language: L.Language): SectionTexts {
    if language == L.Spanish then SPANISH_SECTIONS else ENGLISH_SECTIONS
  }

  /** The thirteen lines of the six sections, in the wording `t`. */
  function SectionLines(t: SectionTexts, confirmed: nat, total: nat,
                        networks: seq<string>, emails: seq<string>): (r: seq<string>)
    requires |t.titles| == 6
    ensures |r| == 13
    ensures HeadingLine(r[0], '1') && SpacedHeadingLine(r[11], '6')
  {
    var first := FirstHeading(t.titles[0]);
    var sixth := SectionHeading('6', t.titles[5]);
    var r := [first, t.identity,
              SectionHeading('2', t.titles[1]), t.geo,
              SectionHeading('3', t.titles[2]), t.psychology,
              SectionHeading('4', t.titles[3]),
              Sentence(t.confirmedLabel + NatToString(confirmed) + " / " + NatToString(total)),
              Sentence(t.networksLabel + ListOrNA(networks)),
              SectionHeading('5', t.titles[4]), t.ideology,
              sixth, Sentence(t.emailsLabel + ListOrNA(emails))];
    r
  }

  /** The block listing the breach lines, when there are any. */
  function BreachBlock(language: L.Language, breachLines: seq<string>): (r: seq<string>)
    ensures |r| == if breachLines == [] then 0 else 1
  {
    if breachLines == [] then []
    else if language == L.Spanish then ["\nResultados de brechas (HIBP):\n" + Join("\n", breachLines)]
    else ["\nHIBP breach results:\n" + Join("\n", breachLines)]
  }

  /** The closing note, which gives the reason. */
  function ClosingNote(language: L.Language, reason: string): (r: string)
    ensures r != [] && r[|r| - 1] == '.'
  {
    if language == L.Spanish then Sentence("\n> Nota: análisis heurístico (sin IA remota). Motivo: " + reason)
    else Sentence("\n> Note: heuristic analysis (no remote AI). Reason: " + reason)
  }

  /** The summary lines: the sections, the breach block when there is one,
      and the closing note. */
  function HeuristicLines(language: L.Language, profiles: seq<SocialProfile>,
                          breachLines: seq<string>, reason: string): (r: seq<string>)
    ensures |r| >= 14
    ensures HeadingLine(r[0], '1') && SpacedHeadingLine(r[11], '6')
    ensures r[|r| - 1] != [] && r[|r| - 1][|r[|r| - 1]| - 1] == '.'
  {
    var sections := SectionLines(Texts(language), |Filter(profiles, IsConfirmed)|, |profiles|,
                                 ConfirmedNetworks(profiles), ObservedEmails(profiles));
    sections + BreachBlock(language, breachLines) + [ClosingNote(language, reason)]
  }

  /** The two or three highlights. */
  function HeuristicHighlights(language: L.Language, profiles: seq<SocialProfile>,
                               breachLines: seq<string>): (r: seq<string>)
    ensures |r| == if breachLines == [] then 2 else 3
  {
    var confirmed := Filter(profiles, IsConfirmed);
    var networks := ListOrNA(ConfirmedNetworks(profiles));
    if language == L.Spanish then
      ["Perfiles confirmados: " + NatToString(|confirmed|) + ".", "Redes confirmadas: " + networks + "."]
      + (if breachLines == [] then [] else ["Se detectaron resultados de HIBP (breach-check)."])
    else
      ["Confirmed profiles: " + NatToString(|confirmed|) + ".", "Confirmed networks: " + networks + "."]
      + (if breachLines == [] then [] else ["HIBP breach-check returned results."])
  }

  /** What `_heuristic_analysis(person=..., language=..., reason=...)` returns;
      constructing the report fails when the summary is longer than the
      report allows. */
  function HeuristicReport(profiles: seq<SocialProfile>, language: L.Language, reason: string)
    : (r: Result<AnalysisReport, ValidationError>)
  {
    var breachLines := BreachLines(profiles);
    NewAnalysisReport(
      HeuristicSummary(language, profiles, breachLines, reason),
      HeuristicHighlights(language, profiles, breachLines),
      0.25,
      Some("heuristic"),
      map["reason" := VStr(reason)])
  }

  /** `_heuristic_analysis(person=..., language=..., reason=...)`. */
  method HeuristicAnalysis(profiles: seq<SocialProfile>, language: L.Language, reason: string)
    returns (r: Result<AnalysisReport, ValidationError>)
    ensures r == HeuristicReport(profiles, language, reason)
  {
    var breachLines := CollectBreachLines(profiles);
    var summary := HeuristicSummary(language, profiles, breachLines, reason);
    r := NewAnalysisReport(summary, HeuristicHighlights(language, profiles, breachLines),
                           0.25, Some("heuristic"), map["reason" := VStr(reason)]);
  }

  /** A heading line `\n## <d>.` at index `k > 0` of a list is a heading of
      the joined text. */
  lemma JoinedHeading(lines: seq<string>, k: nat, d: char)
    requires 0 < k < |lines| && SpacedHeadingLine(lines[k], d) && !IsSpace(d)
    ensures exists i :: 0 <= i <= |Join("\n", lines)| && NumberedHeadingAt(Join("\n", lines), i, d)
  {
    var a := lines[..k];
    var b := lines[k..];
    assert lines == a + b;
    JoinSplit("\n", a, b);
    JoinStartsWithFirst("\n", b);
    var s := Join("\n", lines);
    var q := |Join("\n", a)| + 1;
    assert forall x :: 0 <= x < 6 ==> s[q + x] == lines[k][x];
    assert lines[k][1..][3] == lines[k][4];
    assert SkipForward(s, q + 3, IsSpace) == q + 4 by {
      assert IsSpace(s[q + 3]) && !IsSpace(s[q + 4]);
    }
    assert NumberedHeadingAt(s, q + 1, d);
  }

  /** A text that starts with a `## <d>.` line has that heading at 0. */
  lemma HeadingAtStart(s: string, d: char)
    requires |s| >= 5 && HeadingLine(s[..5], d) && !IsSpace(d)
    ensures NumberedHeadingAt(s, 0, d)
  {
    assert s[..5][3] == s[3] && s[..5][2] == s[2];
    assert SkipForward(s, 2, IsSpace) == 3 by { assert IsSpace(s[2]); }
  }

  /** A text whose first line is heading 1, whose line 11 is heading 6 after
      an empty line and whose last character is a full stop passes the
      six-section check. */
  lemma LinesHaveSixSections(lines: seq<string>)
    requires |lines| >= 12 && HeadingLine(lines[0], '1') && SpacedHeadingLine(lines[11], '6')
    requires lines[|lines| - 1] != [] && lines[|lines| - 1][|lines[|lines| - 1]| - 1] == '.'
    ensures SummaryHasSixSections(Strip(Join("\n", lines)))
  {
    var s := Join("\n", lines);
    JoinedStart(lines);
    JoinedEnd(lines);
    StripNoop(s);
    HeadingAtStart(s, '1');
    JoinedHeading(lines, 11, '6');
    SixSectionsMeaning(s);
  }

  /** A joined text starts with the first five characters of its first line. */
  lemma JoinedStart(lines: seq<string>)
    requires lines != [] && |lines[0]| >= 5
    ensures |Join("\n", lines)| >= 5 && Join("\n", lines)[..5] == lines[0][..5]
  {
    JoinStartsWithFirst("\n", lines);
  }

  /** A joined text ends with the last character of its last line. */
  lemma JoinedEnd(lines: seq<string>)
    requires lines != [] && lines[|lines| - 1] != []
    ensures var s := Join("\n", lines);
            s != [] && s[|s| - 1] == lines[|lines| - 1][|lines[|lines| - 1]| - 1]
  {
    JoinEndsWithLast("\n", lines);
  }


  /** The summary of the heuristic report: the lines joined and stripped. It
      passes the six-section check that provider replies must pass. */
  function HeuristicSummary(language: L.Language, profiles: seq<SocialProfile>,
                            breachLines: seq<string>, reason: string): (r: string)
    ensures SummaryHasSixSections(r)
  {
    var lines := HeuristicLines(language, profiles, breachLines, reason);
    LinesHaveSixSections(lines);
    Strip(Join("\n", lines))
  }

  /** The shape every heuristic report has. */
  lemma HeuristicShape(profiles: seq<SocialProfile>, language: L.Language, reason: string)
    ensures var r := HeuristicReport(profiles, language, reason);
            var summary := HeuristicSummary(language, profiles, BreachLines(profiles), reason);
            (r.Ok? <==> |summary| <= 20000)
            && (r.Ok? ==> r.value.model == Some("heuristic") && r.value.confidence == 0.25
                          && r.value.raw == map["reason" := VStr(reason)]
                          && SummaryHasSixSections(r.value.summary)
                          && |r.value.highlights| == (if Filter(profiles, IsHibp) == [] then 2 else 3))
  {
    var breachLines := BreachLines(profiles);
    var summary := HeuristicSummary(language, profiles, breachLines, reason);
    var highlights := HeuristicHighlights(language, profiles, breachLines);
    assert (breachLines == []) == (Filter(profiles, IsHibp) == []);
    HeuristicReportShape(summary, highlights, reason);
  }

  /** A report built the heuristic way from a summary that passes the
      six-section check. */
  lemma HeuristicReportShape(summary: string, highlights: seq<string>, reason: string)
    requires SummaryHasSixSections(summary)
    ensures var r := NewAnalysisReport(summary, highlights, 0.25, Some("heuristic"), map["reason" := VStr(reason)]);
            (r.Ok? <==> |summary| <= 20000)
            && (r.Ok? ==> r.value == AnalysisReport(summary, highlights, 0.25, Some("heuristic"),
                                                    map["reason" := VStr(reason)]))
  {
    assert Strip([]) == [];
  }



  // ---------------------------------------------------------------------------
  // Evidence
  // ---------------------------------------------------------------------------

  /** What the evidence tells the confidence cap. */
  datatype Signals = Signals(hasText: bool, hasTimestamps: bool, evidenceCount: nat)

  /** The profile yields text samples (`comments`, else `texts`). */
  predicate HasTextSamples(md: Metadata) {
    CompactSamples(Or(Get(md, "comments"), Get(md, "texts")), 16, 320).Some?
  }

  /** The profile yields activity timestamps (`commits`, else `timestamps`). */
  predicate HasTimestamps(md: Metadata) {
    var l := LimitList(Or(Get(md, "commits"), Get(md, "timestamps")), 60);
    l.Some? && l.value != []
  }

  /** The signals of the evidence, read from the first 30 profiles, which
      are the ones the prompt carries. */
  function EvidenceSignals(profiles: seq<SocialProfile>): (r: Signals)
    ensures r.evidenceCount == if |profiles| < 30 then |profiles| else 30
  {
    var data := SliceTo(profiles, 30);
    Signals(exists i :: 0 <= i < |data| && HasTextSamples(data[i].metadata),
            exists i :: 0 <= i < |data| && HasTimestamps(data[i].metadata),
            |data|)
  }

  /** The confidence of an accepted reply: capped at 0.55 when there is neither
      text nor timestamps but at least three profiles, at 0.35 when there is
      neither and fewer profiles, and passed through otherwise. */
  function CappedConfidence(c: real, sig: Signals): (r: real)
    ensures r <= c
    ensures sig.hasText || sig.hasTimestamps ==> r == c
    ensures !sig.hasText && !sig.hasTimestamps && sig.evidenceCount >= 3 ==>
              r == if c < 0.55 then c else 0.55
    ensures !sig.hasText && !sig.hasTimestamps && sig.evidenceCount < 3 ==>
              r == if c < 0.35 then c else 0.35
    ensures 0.0 <= c <= 1.0 ==> 0.0 <= r <= 1.0
  {
    if !sig.hasText && !sig.hasTimestamps && sig.evidenceCount >= 3 then (if c < 0.55 then c else 0.55)
    else if !sig.hasText && !sig.hasTimestamps then (if c < 0.35 then c else 0.35)
    else c
  }

  /** The usernames of the profiles, stripped, that do not hold an `@`; the
      ones that do are the emails. */
  function Handles(profiles: seq<SocialProfile>): (r: seq<string>)
    ensures forall k :: 0 <= k < |r| ==> r[k] != "" && !Contains(r[k], "@")
    decreases |profiles|
  {
    if profiles == [] then []
    else
      var u := Strip(profiles[|profiles| - 1].username);
      Handles(profiles[..|profiles| - 1]) + (if u == "" || Contains(u, "@") then [] else [u])
  }

  /** How many of `hs` lower-case to `key`. */
  function Occurrences(hs: seq<string>, key: string): nat
    decreases |hs|
  {
    if hs == [] then 0
    else Occurrences(hs[..|hs| - 1], key) + (if Lower(hs[|hs| - 1]) == key then 1 else 0)
  }

  /** A key occurs exactly when some handle lower-cases to it. */
  lemma {:induction false} OccurrencesPositive(hs: seq<string>, key: string)
    ensures Occurrences(hs, key) > 0 <==> exists i :: 0 <= i < |hs| && Lower(hs[i]) == key
    decreases |hs|
  {
    if hs != [] {
      var init := hs[..|hs| - 1];
      OccurrencesPositive(init, key);
      if exists i :: 0 <= i < |init| && Lower(init[i]) == key {
        var i :| 0 <= i < |init| && Lower(init[i]) == key;
        assert hs[i] == init[i];
      }
      if exists i :: 0 <= i < |hs| && Lower(hs[i]) == key {
        var i :| 0 <= i < |hs| && Lower(hs[i]) == key;
        if i < |init| {
          assert init[i] == hs[i];
        }
      }
    }
  }

  /** The `handle_counts` loop: how often each lower-cased handle occurs. */
  method HandleCounts(handles: seq<string>) returns (counts: map<string, nat>)
    ensures forall key :: key in counts <==> exists i :: 0 <= i < |handles| && Lower(handles[i]) == key
    ensures forall key :: key in counts ==> counts[key] == Occurrences(handles, key)
  {
    counts := map[];
    for k := 0 to |handles|
      invariant forall key :: key in counts <==> Occurrences(handles[..k], key) > 0
      invariant forall key :: key in counts ==> counts[key] == Occurrences(handles[..k], key)
    {
      assert handles[..k + 1][..k] == handles[..k];
      var key := Lower(handles[k]);
      var previous := if key in counts then counts[key] else 0;
      counts := counts[key := previous + 1];
    }
    assert handles[..|handles|] == handles;
    forall key ensures key in counts <==> exists i :: 0 <= i < |handles| && Lower(handles[i]) == key {
      OccurrencesPositive(handles, key);
    }
  }

  /** `reused_handles`: the lower-cased handles seen at least twice, sorted. */
  function ReusedHandles(counts: map<string, nat>): (r: seq<string>)
    ensures StrictlySorted(r)
    ensures forall h :: h in r <==> h in counts && counts[h] >= 2
  {
    SortedSet(set h | h in counts && counts[h] >= 2)
  }

  // ---------------------------------------------------------------------------
  // The provider conversation
  // ---------------------------------------------------------------------------

  /** The settings the dispatcher reads. */
  datatype Settings = Settings(apiKey: Option<string>, baseUrl: string, model: string, maxRetries: int)

  /** Which correction the dispatcher asks for after a bad reply. */
  datatype Correction = NotJson | MissingSections | TemplateValues

  /** A request message, by what it says. */
  datatype Message =
    | SystemPrompt(compact: bool)
    | EvidencePayload
    | AssistantReply(content: string)
    | CorrectionRequest(kind: Correction)

  /** What one `chat.completions.create` call ends in: a reply (its first
      choice's content, `""` when missing, and the response dump, `None` when
      dumping fails), an `APIStatusError` (`RateLimitError` is one, with
      status 429), a timeout or connection error, or any other exception. */
  datatype ProviderOutcome =
    | Completed(content: string, dump: Option<Metadata>)
    | StatusError(status: Option<int>, errorName: string, message: string)
    | Transport(errorName: string)
    | Failure(errorName: string)

  /** The provider: its answer to the `attempt`-th call with a model, a token
      budget and the messages; what `json.loads` plus the payload's field
      types make of a JSON text (the error's class name on failure); and
      whether `json.loads` accepts a text. */
  datatype Provider = Provider(
    call: (nat, string, nat, seq<Message>) -> ProviderOutcome,
    decode: string -> Result<ReportPayload, string>,
    isJson: string -> bool)

  const GROQ_FALLBACK_MODEL: string := "llama-3.1-8b-instant"

  /** The fallback model, on Groq only. */
  function FallbackModel(baseUrl: string): (r: Option<string>)
    ensures r.Some? <==> Contains(Lower(baseUrl), "api.groq.com")
  {
    if Contains(Lower(baseUrl), "api.groq.com") then Some(GROQ_FALLBACK_MODEL) else None
  }

  /** `max(1, ai_max_retries + 1)`. */
  function Attempts(maxRetries: int): (n: nat)
    ensures n >= 1
    ensures maxRetries >= 0 ==> n == maxRetries + 1
  {
    if maxRetries + 1 > 1 then maxRetries + 1 else 1
  }

  /** No key after stripping, and not a local endpoint that takes a dummy one. */
  predicate NoUsableKey(settings: Settings) {
    Strip(settings.apiKey.GetOr("")) == "" && !IsLocalBaseUrl(settings.baseUrl)
  }

  /** A 400 or 404 that names the model, while the fallback is not yet in use. */
  predicate SwitchApplies(fallback: Option<string>, model: string, o: ProviderOutcome) {
    o.StatusError? && fallback.Some? && model != fallback.value
    && (o.status == Some(400) || o.status == Some(404)) && LooksLikeModelRejection(o.message)
  }

  /** The outcomes after which the dispatcher stops at once, on any attempt. */
  predicate Halts(fallback: Option<string>, model: string, o: ProviderOutcome) {
    o.Failure? || (o.StatusError? && o.status != Some(429) && !SwitchApplies(fallback, model, o))
  }

  /** What an attempt leads to. */
  datatype Step =
    | Accepted(report: AnalysisReport, payload: ReportPayload)
    | Switched(model: string, errorName: string)
    | Retried(errorName: string, extra: seq<Message>)
    | Stopped(errorName: string)

  /** A failure of the `ValueError` family: retried with a request for valid
      JSON unless this was the last attempt. */
  function InvalidReply(errorName: string, content: string, attempt: nat, maxRetries: int): (s: Step)
    ensures s.Retried? ==> attempt < maxRetries
    ensures s.Stopped? || s.Retried?
  {
    if attempt >= maxRetries then Stopped(errorName)
    else Retried(errorName, [AssistantReply(content), CorrectionRequest(NotJson)])
  }

  /** The handling of a reply: locate and decode its JSON, insist on the six
      sections and on real content, then build the report. */
  function ReplyStep(content0: string, dump: Option<Metadata>, model: string, attempt: nat,
                     maxRetries: int, sig: Signals, provider: Provider,
                     unicodeAlnum: char -> bool): (s: Step)
    ensures s.Retried? ==> attempt < maxRetries
    ensures !s.Switched?
    ensures s.Accepted? ==>
              1 <= |s.payload.summary| && 0.0 <= s.payload.confidence <= 1.0
              && AcceptedReport(s.report, s.payload, model, sig, unicodeAlnum)
  {
    var content := Strip(content0);
    match ExtractJsonObject(content, provider.isJson)
    case Err(e) => InvalidReply(e, content, attempt, maxRetries)
    case Ok(jsonText) =>
      match provider.decode(jsonText)
      case Err(e) => InvalidReply(e, content, attempt, maxRetries)
      case Ok(data) =>
        match ValidatePayload(data)
        case Err(e) => InvalidReply(e, content, attempt, maxRetries)
        case Ok(parsed) =>
          var missing := !SummaryHasSixSections(parsed.summary);
          if LooksLikeTemplateResponse(parsed) || missing then
            if attempt >= maxRetries then Stopped("ValueError")
            else Retried("ValueError", [AssistantReply(content),
                                        CorrectionRequest(if missing then MissingSections else TemplateValues)])
          else
            var raw := dump.GetOr(map["raw_text" := VStr(content)]);
            match NewAnalysisReport(SanitizeSummaryMarkdown(VStr(parsed.summary), unicodeAlnum),
                                    parsed.highlights, CappedConfidence(parsed.confidence, sig),
                                    Some(model), raw)
            case Ok(report) => Accepted(report, parsed)
            case Err(_) => InvalidReply("ValidationError", content, attempt, maxRetries)
  }

  /** The handling of one attempt's outcome. */
  function AttemptStep(outcome: ProviderOutcome, model: string, fallback: Option<string>,
                       attempt: nat, maxRetries: int, sig: Signals, provider: Provider,
                       unicodeAlnum: char -> bool): (s: Step)
    ensures s.Retried? ==> attempt < maxRetries
    ensures s.Switched? <==> SwitchApplies(fallback, model, outcome)
    ensures s.Switched? ==> s.model == fallback.value && s.model != model
    ensures Halts(fallback, model, outcome) ==> s.Stopped?
    ensures s.Accepted? ==> outcome.Completed? && AcceptedReport(s.report, s.payload, model, sig, unicodeAlnum)
  {
    match outcome
    case Completed(content, dump) =>
      ReplyStep(content, dump, model, attempt, maxRetries, sig, provider, unicodeAlnum)
    case StatusError(status, name, _) =>
      if SwitchApplies(fallback, model, outcome) then Switched(fallback.value, name)
      else if status == Some(429) then
        (if attempt >= maxRetries then Stopped(name) else Retried(name, []))
      else Stopped(name)
    case Transport(name) =>
      if attempt >= maxRetries then Stopped(name) else Retried(name, [])
    case Failure(name) => Stopped(name)
  }

  /** One provider call: the model and token budget used, the messages sent
      and the outcome. */
  datatype Call = Call(model: string, maxTokens: nat, messages: seq<Message>, outcome: ProviderOutcome)

  /** Each call is the provider's answer to that attempt, with the token
      budget of its model, the system prompt that suits its model first, and
      either the configured model or the fallback. */
  predicate CallsFollowModel(calls: seq<Call>, settings: Settings, provider: Provider) {
    forall i :: 0 <= i < |calls| ==> CallFollowsModel(calls[i], i, settings, provider)
  }

  predicate CallFollowsModel(c: Call, i: nat, settings: Settings, provider: Provider) {
    c.outcome == provider.call(i, c.model, c.maxTokens, c.messages)
    && c.maxTokens == MaxTokensForModel(c.model)
    && |c.messages| >= 2
    && c.messages[0] == SystemPrompt(ShouldUseCompactPrompt(settings.baseUrl, c.model))
    && (c.model == settings.model || Some(c.model) == FallbackModel(settings.baseUrl))
  }

  /** The only call whose outcome triggers the model switch, if any, is the
      one at `at`. */
  predicate SwitchesOnlyAt(calls: seq<Call>, fallback: Option<string>, at: Option<nat>) {
    forall i :: 0 <= i < |calls| && SwitchApplies(fallback, calls[i].model, calls[i].outcome) ==> at == Some(i)
  }

  /** The model switch happens at most once. */
  predicate SwitchedAtMostOnce(calls: seq<Call>, fallback: Option<string>) {
    forall i, j ::
      (0 <= i < |calls| && 0 <= j < |calls|
       && SwitchApplies(fallback, calls[i].model, calls[i].outcome)
       && SwitchApplies(fallback, calls[j].model, calls[j].outcome)) ==> i == j
  }

  /** No call before the last one ends in an outcome that halts the loop. */
  predicate HaltsOnlyLast(calls: seq<Call>, fallback: Option<string>) {
    forall i :: 0 <= i < |calls| - 1 ==> !Halts(fallback, calls[i].model, calls[i].outcome)
  }

  /** No call ends in an outcome that halts the loop. */
  predicate NoHalts(calls: seq<Call>, fallback: Option<string>) {
    forall i :: 0 <= i < |calls| ==> !Halts(fallback, calls[i].model, calls[i].outcome)
  }

  /** The loop's facts about the calls carry over to one more call. */
  lemma ExtendCalls(calls: seq<Call>, c: Call, settings: Settings, provider: Provider,
                    at: Option<nat>, at': Option<nat>)
    requires CallsFollowModel(calls, settings, provider) && CallFollowsModel(c, |calls|, settings, provider)
    requires SwitchesOnlyAt(calls, FallbackModel(settings.baseUrl), at)
    requires SwitchApplies(FallbackModel(settings.baseUrl), c.model, c.outcome) ==> at' == Some(|calls|)
    requires at.Some? ==> at' == at
    requires at.None? && at' != Some(|calls|) ==> at' == None
    ensures CallsFollowModel(calls + [c], settings, provider)
    ensures SwitchesOnlyAt(calls + [c], FallbackModel(settings.baseUrl), at')
  {
    var fallback := FallbackModel(settings.baseUrl);
    forall i | 0 <= i < |calls| + 1
      ensures CallFollowsModel((calls + [c])[i], i, settings, provider)
      ensures SwitchApplies(fallback, (calls + [c])[i].model, (calls + [c])[i].outcome) ==> at' == Some(i)
    {
      if i < |calls| {
        assert (calls + [c])[i] == calls[i];
      }
    }
  }

  /** One more call whose outcome does not halt keeps the calls halt-free. */
  lemma ExtendNoHalts(calls: seq<Call>, c: Call, fallback: Option<string>)
    requires NoHalts(calls, fallback) && !Halts(fallback, c.model, c.outcome)
    ensures NoHalts(calls + [c], fallback)
  {
    forall i | 0 <= i < |calls| + 1 ensures !Halts(fallback, (calls + [c])[i].model, (calls + [c])[i].outcome) {
      if i < |calls| {
        assert (calls + [c])[i] == calls[i];
      }
    }
  }

  /** Halt-free calls followed by one more halt only at the last call. */
  lemma NoHaltsThenLast(calls: seq<Call>, c: Call, fallback: Option<string>)
    requires NoHalts(calls, fallback)
    ensures HaltsOnlyLast(calls + [c], fallback)
  {
    forall i | 0 <= i < |calls| ensures !Halts(fallback, (calls + [c])[i].model, (calls + [c])[i].outcome) {
      assert (calls + [c])[i] == calls[i];
    }
  }

  lemma OnlyAtMeansAtMostOnce(calls: seq<Call>, fallback: Option<string>, at: Option<nat>)
    requires SwitchesOnlyAt(calls, fallback, at)
    ensures SwitchedAtMostOnce(calls, fallback)
  {
  }

  /** What an accepted reply makes of the report. */
  predicate AcceptedReport(r: AnalysisReport, payload: ReportPayload, model: string, sig: Signals,
                           unicodeAlnum: char -> bool) {
    ValidAnalysisReport(r) && r.model == Some(model)
    && SummaryHasSixSections(payload.summary) && !LooksLikeTemplateResponse(payload)
    && r.summary == SanitizeSummaryMarkdown(VStr(payload.summary), unicodeAlnum)
    && r.highlights == payload.highlights
    && r.confidence == CappedConfidence(payload.confidence, sig)
  }

  /** The request messages of the first attempt: the system prompt that suits
      the configured model and the evidence. */
  function InitialMessages(settings: Settings): seq<Message> {
    [SystemPrompt(ShouldUseCompactPrompt(settings.baseUrl, settings.model)), EvidencePayload]
  }

  /** The model of the next attempt after a step. */
  function NextModel(model: string, s: Step): string {
    if s.Switched? then s.model else model
  }

  /** The messages of the next attempt after a step: a switch rewrites the
      system prompt for the new model, a retry appends its messages. */
  function NextMessages(baseUrl: string, messages: seq<Message>, s: Step): seq<Message>
    requires |messages| >= 1
  {
    match s
    case Switched(model, _) => messages[0 := SystemPrompt(ShouldUseCompactPrompt(baseUrl, model))]
    case Retried(_, extra) => messages + extra
    case _ => messages
  }

  /** The step the `i`-th call led to. */
  function CallStep(calls: seq<Call>, i: nat, settings: Settings, sig: Signals, provider: Provider,
                    unicodeAlnum: char -> bool): Step
    requires i < |calls|
  {
    AttemptStep(calls[i].outcome, calls[i].model, FallbackModel(settings.baseUrl), i, settings.maxRetries,
                sig, provider, unicodeAlnum)
  }

  /** The `i`-th call switched the model or retried, and the next attempt uses
      `model` and `messages` accordingly. */
  predicate Continues(calls: seq<Call>, i: nat, settings: Settings, sig: Signals, provider: Provider,
                      unicodeAlnum: char -> bool, model: string, messages: seq<Message>)
    requires i < |calls|
  {
    var s := CallStep(calls, i, settings, sig, provider, unicodeAlnum);
    (s.Switched? || s.Retried?)
    && model == NextModel(calls[i].model, s)
    && |calls[i].messages| >= 1 && messages == NextMessages(settings.baseUrl, calls[i].messages, s)
  }

  /** The `i`-th call is made with what the call before it left. */
  predicate Links(calls: seq<Call>, i: nat, settings: Settings, sig: Signals, provider: Provider,
                  unicodeAlnum: char -> bool)
    requires 0 < i < |calls|
  {
    Continues(calls, i - 1, settings, sig, provider, unicodeAlnum, calls[i].model, calls[i].messages)
  }

  /** The first call uses the configured model and the initial messages, and
      every later one what the step before it left. */
  predicate CallsChained(calls: seq<Call>, settings: Settings, sig: Signals, provider: Provider,
                         unicodeAlnum: char -> bool) {
    (|calls| > 0 ==> calls[0].model == settings.model && calls[0].messages == InitialMessages(settings))
    && forall i :: 0 < i < |calls| ==> Links(calls, i, settings, sig, provider, unicodeAlnum)
  }

  /** What holds of the conversation before each attempt: the model in use
      and its messages, which the last call's step left (the configured ones
      before the first); the last error, that step's; and the calls so far
      (chained, none halting, at most the one at `at` switching the model,
      after which the fallback is in use). */
  predicate ConversationInv(settings: Settings, provider: Provider, sig: Signals, unicodeAlnum: char -> bool,
                            attempt: nat, calls: seq<Call>, model: string, messages: seq<Message>,
                            lastError: Option<string>, at: Option<nat>) {
    var fallback := FallbackModel(settings.baseUrl);
    |calls| == attempt
    && |messages| >= 2 && messages[0] == SystemPrompt(ShouldUseCompactPrompt(settings.baseUrl, model))
    && (model == settings.model || Some(model) == fallback)
    && (attempt == 0 ==> model == settings.model && messages == InitialMessages(settings))
    && (attempt > 0 ==>
          Continues(calls, attempt - 1, settings, sig, provider, unicodeAlnum, model, messages)
          && lastError == Some(CallStep(calls, attempt - 1, settings, sig, provider, unicodeAlnum).errorName))
    && CallsFollowModel(calls, settings, provider)
    && CallsChained(calls, settings, sig, provider, unicodeAlnum)
    && NoHalts(calls, fallback)
    && SwitchesOnlyAt(calls, fallback, at)
    && (at.Some? ==> at.value < |calls| && fallback.Some? && model == fallback.value)
  }

  /** The call the `attempt`-th iteration makes with the model and messages. */
  predicate IsAttemptCall(c: Call, attempt: nat, model: string, messages: seq<Message>, provider: Provider) {
    c == Call(model, MaxTokensForModel(model), messages,
              provider.call(attempt, model, MaxTokensForModel(model), messages))
  }

  /** The steps of the calls so far are unchanged by one more call, and the
      chain extends to it when it is made with what the last step left. */
  lemma ExtendChain(settings: Settings, provider: Provider, sig: Signals, unicodeAlnum: char -> bool,
                    calls: seq<Call>, c: Call)
    requires CallsChained(calls, settings, sig, provider, unicodeAlnum)
    requires calls == [] ==> c.model == settings.model && c.messages == InitialMessages(settings)
    requires calls != [] ==>
               Continues(calls, |calls| - 1, settings, sig, provider, unicodeAlnum, c.model, c.messages)
    ensures CallsChained(calls + [c], settings, sig, provider, unicodeAlnum)
    ensures forall i :: 0 <= i < |calls| ==>
              CallStep(calls + [c], i, settings, sig, provider, unicodeAlnum)
              == CallStep(calls, i, settings, sig, provider, unicodeAlnum)
  {
    var calls' := calls + [c];
    forall i | 0 <= i < |calls|
      ensures CallStep(calls', i, settings, sig, provider, unicodeAlnum)
              == CallStep(calls, i, settings, sig, provider, unicodeAlnum)
    {
      assert calls'[i] == calls[i];
    }
    forall i | 0 < i < |calls'| ensures Links(calls', i, settings, sig, provider, unicodeAlnum) {
      assert calls'[i - 1] == calls[i - 1];
      if i < |calls| {
        assert calls'[i] == calls[i];
        assert Links(calls, i, settings, sig, provider, unicodeAlnum);
      }
    }
  }

  /** A call whose step switches the model or retries leaves the model and
      messages that step makes of its own. */
  lemma StepContinues(settings: Settings, provider: Provider, sig: Signals, unicodeAlnum: char -> bool,
                      calls: seq<Call>, c: Call, step: Step)
    requires |c.messages| >= 1
    requires step == AttemptStep(c.outcome, c.model, FallbackModel(settings.baseUrl), |calls|,
                                 settings.maxRetries, sig, provider, unicodeAlnum)
    requires step.Switched? || step.Retried?
    ensures CallStep(calls + [c], |calls|, settings, sig, provider, unicodeAlnum) == step
    ensures Continues(calls + [c], |calls|, settings, sig, provider, unicodeAlnum,
                      NextModel(c.model, step), NextMessages(settings.baseUrl, c.messages, step))
  {
    assert (calls + [c])[|calls|] == c;
  }

  /** An attempt that switches the model or retries keeps the invariant, with
      the new model, messages and last error. */
  lemma ConversationStep(settings: Settings, provider: Provider, sig: Signals, unicodeAlnum: char -> bool,
                         attempt: nat, calls: seq<Call>, model: string, messages: seq<Message>,
                         lastError: Option<string>, at: Option<nat>, c: Call, step: Step)
    requires ConversationInv(settings, provider, sig, unicodeAlnum, attempt, calls, model, messages, lastError, at)
    requires IsAttemptCall(c, attempt, model, messages, provider)
    requires step == AttemptStep(c.outcome, model, FallbackModel(settings.baseUrl), attempt,
                                 settings.maxRetries, sig, provider, unicodeAlnum)
    requires step.Switched? || step.Retried?
    ensures ConversationInv(settings, provider, sig, unicodeAlnum, attempt + 1, calls + [c],
                            if step.Switched? then step.model else model,
                            if step.Switched? then messages[0 := SystemPrompt(ShouldUseCompactPrompt(settings.baseUrl, step.model))]
                            else messages + step.extra,
                            Some(step.errorName),
                            if step.Switched? then Some(attempt) else at)
  {
    var fallback := FallbackModel(settings.baseUrl);
    assert CallFollowsModel(c, attempt, settings, provider);
    ExtendCalls(calls, c, settings, provider, at, if step.Switched? then Some(attempt) else at);
    ExtendNoHalts(calls, c, fallback);
    ExtendChain(settings, provider, sig, unicodeAlnum, calls, c);
    StepContinues(settings, provider, sig, unicodeAlnum, calls, c, step);
  }

  /** What the conversation ends in: at least one and at most the allowed
      number of calls, each made with what the step before it left (the
      configured model and the initial messages first), switching the model
      at most once and halting only at the end. The last call's step decides:
      its reply is accepted exactly when that step accepts it; otherwise the
      last error is that step's error, and the step stopped the loop or the
      attempts ran out. */
  predicate ConversationOutcome(settings: Settings, provider: Provider, sig: Signals,
                                unicodeAlnum: char -> bool, calls: seq<Call>,
                                accepted: Option<(AnalysisReport, ReportPayload)>, lastError: Option<string>) {
    1 <= |calls| <= Attempts(settings.maxRetries)
    && CallsFollowModel(calls, settings, provider)
    && CallsChained(calls, settings, sig, provider, unicodeAlnum)
    && SwitchedAtMostOnce(calls, FallbackModel(settings.baseUrl))
    && HaltsOnlyLast(calls, FallbackModel(settings.baseUrl))
    && var last := CallStep(calls, |calls| - 1, settings, sig, provider, unicodeAlnum);
       (accepted.Some? <==> last.Accepted?)
       && (accepted.Some? ==>
             accepted.value == (last.report, last.payload)
             && calls[|calls| - 1].outcome.Completed?
             && AcceptedReport(accepted.value.0, accepted.value.1, calls[|calls| - 1].model, sig, unicodeAlnum))
       && (accepted.None? ==>
             lastError == Some(last.errorName)
             && (last.Stopped? || |calls| == Attempts(settings.maxRetries)))
  }

  /** An attempt that is accepted or stops ends the conversation: with the
      accepted reply, or with the error it stopped on. */
  lemma ConversationEnd(settings: Settings, provider: Provider, sig: Signals, unicodeAlnum: char -> bool,
                        attempt: nat, calls: seq<Call>, model: string, messages: seq<Message>,
                        lastError: Option<string>, at: Option<nat>, c: Call, step: Step,
                        accepted: Option<(AnalysisReport, ReportPayload)>, finalError: Option<string>)
    requires ConversationInv(settings, provider, sig, unicodeAlnum, attempt, calls, model, messages, lastError, at)
    requires attempt < Attempts(settings.maxRetries)
    requires IsAttemptCall(c, attempt, model, messages, provider)
    requires step == AttemptStep(c.outcome, model, FallbackModel(settings.baseUrl), attempt,
                                 settings.maxRetries, sig, provider, unicodeAlnum)
    requires step.Accepted? || step.Stopped?
    requires accepted == if step.Accepted? then Some((step.report, step.payload)) else None
    requires step.Stopped? ==> finalError == Some(step.errorName)
    ensures ConversationOutcome(settings, provider, sig, unicodeAlnum, calls + [c], accepted, finalError)
  {
    FinalCall(settings, provider, sig, unicodeAlnum, attempt, calls, model, messages, lastError, at, c);
    ExtendChain(settings, provider, sig, unicodeAlnum, calls, c);
    assert CallStep(calls + [c], attempt, settings, sig, provider, unicodeAlnum) == step;
  }

  /** The calls so far and a last one follow the model, switch at most once
      and halt at most at the end. */
  lemma FinalCall(settings: Settings, provider: Provider, sig: Signals, unicodeAlnum: char -> bool,
                  attempt: nat, calls: seq<Call>, model: string,
                  messages: seq<Message>, lastError: Option<string>, at: Option<nat>, c: Call)
    requires ConversationInv(settings, provider, sig, unicodeAlnum, attempt, calls, model, messages, lastError, at)
    requires IsAttemptCall(c, attempt, model, messages, provider)
    requires at.Some? ==> !SwitchApplies(FallbackModel(settings.baseUrl), c.model, c.outcome)
    ensures CallsFollowModel(calls + [c], settings, provider)
    ensures SwitchedAtMostOnce(calls + [c], FallbackModel(settings.baseUrl))
    ensures HaltsOnlyLast(calls + [c], FallbackModel(settings.baseUrl))
  {
    var fallback := FallbackModel(settings.baseUrl);
    assert CallFollowsModel(c, attempt, settings, provider);
    var at' := if SwitchApplies(fallback, c.model, c.outcome) then Some(attempt) else at;
    ExtendCalls(calls, c, settings, provider, at, at');
    NoHaltsThenLast(calls, c, fallback);
    OnlyAtMeansAtMostOnce(calls + [c], fallback, at');
  }

  /** After a call, the loop's state is what the last call's step left. */
  lemma LastContinues(settings: Settings, provider: Provider, sig: Signals, unicodeAlnum: char -> bool,
                      attempt: nat, calls: seq<Call>, model: string, messages: seq<Message>,
                      lastError: Option<string>, at: Option<nat>)
    requires ConversationInv(settings, provider, sig, unicodeAlnum, attempt, calls, model, messages, lastError, at)
    requires attempt > 0
    ensures Continues(calls, attempt - 1, settings, sig, provider, unicodeAlnum, model, messages)
    ensures lastError == Some(CallStep(calls, attempt - 1, settings, sig, provider, unicodeAlnum).errorName)
  {
  }

  /** When the attempts run out, the conversation ends with the last error. */
  lemma ConversationExhausted(settings: Settings, provider: Provider, sig: Signals, unicodeAlnum: char -> bool,
                              calls: seq<Call>, model: string, messages: seq<Message>,
                              lastError: Option<string>, at: Option<nat>)
    requires ConversationInv(settings, provider, sig, unicodeAlnum, Attempts(settings.maxRetries), calls,
                             model, messages, lastError, at)
    ensures ConversationOutcome(settings, provider, sig, unicodeAlnum, calls, None, lastError)
  {
    OnlyAtMeansAtMostOnce(calls, FallbackModel(settings.baseUrl), at);
    LastContinues(settings, provider, sig, unicodeAlnum, Attempts(settings.maxRetries), calls, model, messages,
                  lastError, at);
    assert NoHalts(calls, FallbackModel(settings.baseUrl));
  }

  /** The `for attempt in range(...)` loop of `analyze_person`: calls the
      provider until a reply is accepted, an outcome halts it or the
      attempts run out. */
  method Converse(settings: Settings, provider: Provider, sig: Signals, unicodeAlnum: char -> bool)
    returns (accepted: Option<(AnalysisReport, ReportPayload)>, lastError: Option<string>,
             calls: seq<Call>)
    ensures ConversationOutcome(settings, provider, sig, unicodeAlnum, calls, accepted, lastError)
  {
    var model := settings.model;
    var messages := [SystemPrompt(ShouldUseCompactPrompt(settings.baseUrl, model)), EvidencePayload];
    var fallback := FallbackModel(settings.baseUrl);
    var n := Attempts(settings.maxRetries);
    lastError := None;
    accepted := None;
    calls := [];
    ghost var switchedAt: Option<nat> := None;
    for attempt := 0 to n
      invariant ConversationInv(settings, provider, sig, unicodeAlnum, attempt, calls, model, messages,
                                lastError, switchedAt)
    {
      var maxTokens := MaxTokensForModel(model);
      var outcome := provider.call(attempt, model, maxTokens, messages);
      var c := Call(model, maxTokens, messages, outcome);
      var step := AttemptStep(outcome, model, fallback, attempt, settings.maxRetries, sig, provider, unicodeAlnum);
      if step.Accepted? || step.Stopped? {
        var finalError := lastError;
        if step.Accepted? {
          accepted := Some((step.report, step.payload));
        } else {
          finalError := Some(step.errorName);
        }
        ConversationEnd(settings, provider, sig, unicodeAlnum, attempt, calls, model, messages,
                        lastError, switchedAt, c, step, accepted, finalError);
        calls := calls + [c];
        lastError := finalError;
        return;
      }
      ConversationStep(settings, provider, sig, unicodeAlnum, attempt, calls, model, messages,
                       lastError, switchedAt, c, step);
      calls := calls + [c];
      lastError := Some(step.errorName);
      if step.Switched? {
        switchedAt := Some(attempt);
        model := step.model;
        messages := messages[0 := SystemPrompt(ShouldUseCompactPrompt(settings.baseUrl, model))];
      } else {
        messages := messages + step.extra;
      }
    }
    ConversationExhausted(settings, provider, sig, unicodeAlnum, calls, model, messages, lastError, switchedAt);
  }

  /** How the dispatcher ended. */
  datatype Exit = MissingKey | Parsed(payload: ReportPayload) | GaveUp(lastError: Option<string>)

  /** The report of a person with the confirmed `profiles`, and how it came
      about: without a usable key, the heuristic report and no call;
      otherwise the provider conversation over the evidence of the profiles,
      ending in the report of the accepted reply or, when no reply was
      accepted, in the heuristic report naming the last call's error. */
  predicate DispatchOutcome(profiles: seq<SocialProfile>, language: L.Language, settings: Settings,
                            provider: Provider, unicodeAlnum: char -> bool,
                            report: Result<AnalysisReport, ValidationError>, exit: Exit, calls: seq<Call>) {
    var sig := EvidenceSignals(profiles);
    (exit.MissingKey? <==> NoUsableKey(settings))
    && (exit.MissingKey? ==> calls == [] && report == HeuristicReport(profiles, language, "missing_ai_api_key"))
    && (exit.Parsed? ==>
          report.Ok?
          && ConversationOutcome(settings, provider, sig, unicodeAlnum, calls, Some((report.value, exit.payload)), None))
    && (exit.GaveUp? ==>
          ConversationOutcome(settings, provider, sig, unicodeAlnum, calls, None, exit.lastError)
          && exit.lastError.Some?
          && report == HeuristicReport(profiles, language, "provider_failed:" + exit.lastError.value))
  }

  /** `analyze_person` after the cleaning step, on the confirmed profiles. */
  method Dispatch(profiles: seq<SocialProfile>, language: L.Language, settings: Settings,
                  provider: Provider, unicodeAlnum: char -> bool)
    returns (report: Result<AnalysisReport, ValidationError>, exit: Exit, calls: seq<Call>)
    ensures DispatchOutcome(profiles, language, settings, provider, unicodeAlnum, report, exit, calls)
  {
    if Strip(settings.apiKey.GetOr("")) == "" && !IsLocalBaseUrl(settings.baseUrl) {
      report := HeuristicAnalysis(profiles, language, "missing_ai_api_key");
      exit := MissingKey;
      calls := [];
      KeylessDispatched(profiles, language, settings, provider, unicodeAlnum, report);
    } else {
      report, exit, calls := DispatchToProvider(profiles, language, settings, provider, unicodeAlnum);
    }
  }

  /** The provider conversation of `analyze_person` and the heuristic report
      when it gives up. */
  method DispatchToProvider(profiles: seq<SocialProfile>, language: L.Language, settings: Settings,
                            provider: Provider, unicodeAlnum: char -> bool)
    returns (report: Result<AnalysisReport, ValidationError>, exit: Exit, calls: seq<Call>)
    requires !NoUsableKey(settings)
    ensures DispatchOutcome(profiles, language, settings, provider, unicodeAlnum, report, exit, calls)
  {
    var accepted, lastError;
    accepted, lastError, calls := Converse(settings, provider, EvidenceSignals(profiles), unicodeAlnum);
    if accepted.Some? {
      report := Ok(accepted.value.0);
      exit := Parsed(accepted.value.1);
    } else {
      report := HeuristicAnalysis(profiles, language, "provider_failed:" + lastError.GetOr("unknown"));
      exit := GaveUp(lastError);
    }
    ConversationDispatched(profiles, language, settings, provider, unicodeAlnum, accepted, lastError,
                           calls, report, exit);
  }

  /** Without a usable key the dispatch outcome is the heuristic report. */
  lemma KeylessDispatched(profiles: seq<SocialProfile>, language: L.Language, settings: Settings,
                          provider: Provider, unicodeAlnum: char -> bool,
                          report: Result<AnalysisReport, ValidationError>)
    requires NoUsableKey(settings)
    requires report == HeuristicReport(profiles, language, "missing_ai_api_key")
    ensures DispatchOutcome(profiles, language, settings, provider, unicodeAlnum, report, MissingKey, [])
  {
  }

  /** A conversation that took place makes the dispatch outcome: the
      accepted report, or the heuristic one naming the last error. */
  lemma ConversationDispatched(profiles: seq<SocialProfile>, language: L.Language, settings: Settings,
                               provider: Provider, unicodeAlnum: char -> bool,
                               accepted: Option<(AnalysisReport, ReportPayload)>, lastError: Option<string>,
                               calls: seq<Call>, report: Result<AnalysisReport, ValidationError>, exit: Exit)
    requires !NoUsableKey(settings)
    requires ConversationOutcome(settings, provider, EvidenceSignals(profiles), unicodeAlnum, calls,
                                 accepted, lastError)
    requires accepted.Some? ==> report == Ok(accepted.value.0) && exit == Parsed(accepted.value.1)
    requires accepted.None? ==>
               exit == GaveUp(lastError)
               && report == HeuristicReport(profiles, language, "provider_failed:" + lastError.GetOr("unknown"))
    ensures DispatchOutcome(profiles, language, settings, provider, unicodeAlnum, report, exit, calls)
  {
  }

  /** `analyze_person(person=..., language=..., settings=...)` with the
      corrected cleaning step `CleanPerson`: the report of the person's
      confirmed profiles, the caller's person left as it was. As written,
      the cleaning step removes the unconfirmed profiles from the caller's
      own list (`CleanPersonAsWritten`). */
  method AnalyzePerson(person: PersonRecord, language: L.Language, settings: Settings,
                       provider: Provider, unicodeAlnum: char -> bool)
    returns (report: Result<AnalysisReport, ValidationError>, exit: Exit, calls: seq<Call>)
    ensures DispatchOutcome(Filter(person.profiles.items, IsConfirmed), language, settings, provider,
                            unicodeAlnum, report, exit, calls)
  {
    var clean := CleanPerson(person);
    report, exit, calls := Dispatch(clean.profiles.items, language, settings, provider, unicodeAlnum);
  }
}
