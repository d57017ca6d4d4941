# OSINT-D2 core, modelled in Dafny

OSINT-D2 takes usernames and e-mail addresses and correlates them across
public sources. Its `hunt` pipeline does the following:

- normalises the identities it is given;
- scans each identity with a fixed set of username or e-mail scanners;
- scans the local parts of e-mail addresses as usernames;
- harvests further identities from the profiles' metadata, and repeats until nothing new turns up;
- optionally runs the site-list and Sherlock engines;
- de-duplicates the profiles and filters them in strict mode;
- enriches the profiles;
- labels the resulting `PersonEntity`.

Its AI analyst does the following:

- drops the unconfirmed profiles;
- gives a heuristic report when no API key is usable;
- otherwise asks an OpenAI-compatible provider for a JSON report;
- retries on transient errors and on malformed or templated replies, and switches once to a fallback model on Groq;
- caps the reported confidence when the evidence is thin;
- falls back to the heuristic report when every attempt fails.

The HTML report groups the unconfirmed profiles by source.

The model has one module per part of the program:

| module | file | models |
|---|---|---|
| `Language` | `language.dfy` | the `Language` enum |
| `Domain` | `domain.dfy` | `SocialProfile`, `AnalysisReport` and `PersonEntity`; each pydantic constructor is a function returning `Ok` or a `ValidationError` |
| `SiteListModels` | `sitelists.dfy` | the site-list records, in the same style |
| `InputOperations` | `operations.dfy` | `apply_input_operation` |
| `ReportGrouping` | `reportgrouping.dfy` | the confirmed/unconfirmed split, the source labels and the grouping and ordering of `render_person_html` |
| `AiText` | `aitext.dfy` | the pure helpers of `ai_analyst.py` |
| `AiAnalyst` | `aianalyst.dfy` | the cleaning step, the heuristic report, the evidence signals and the provider conversation of `analyze_person` |
| `IdentityPipeline` | `identitypipeline.dfy` | the slug, `dedupe_profiles`, strict mode, `safe_scan`, `extract_extras` and `hunt` |

These modules are support code:

- `PyText`: the Python string built-ins the code uses, such as `strip`, ASCII `lower`, `find`, `join`, string order and sorting of a set.
- `Values`: metadata values, Python truthiness and `str()` of scalars (lists and dicts print as placeholders; see "## Left out").
- `Seqs`: filters and subsequences.
- `Wrappers`: `Option` and `Result`.

Where the code works by mutating state, the model is imperative:

- The slug loop, the de-duplication loop, the `extract_extras` loops, the `handle_counts` loop, the breach and text-sample loops and the retry loop are methods with loop invariants.
- Each of those methods is proved equal to a specification function, and the properties are proved about that function.
- The person's profile list is a `ProfileList` object, and `analyze_person` removes profiles from it in place.
- `hunt`'s discovery loop mutates its worklist state round by round. The model also records every value the loop hands to the scanners, as a list of jobs, and proves that the loop's profiles are exactly what running those jobs gives.

External collaborators are parameters:

- the scanners (`scan(scanner, value)` returns profiles or raises);
- the site-list, Sherlock and enrichment engines;
- the LLM provider (the outcome of each call);
- the JSON decoder;
- `hashlib` and `quote`;
- Unicode `str.isalnum`.

## The code and its design description

At these points the design description of the system says something the code does not do. The model follows the code.

- **De-duplication:**
  - The design keeps the colliding finding with the higher confidence.
  - `dedupe_profiles` keeps the first occurrence of each `(network_name, username, url)` key.
- **Strict mode:**
  - The design tags filtered findings as suppressed.
  - The code removes them.
  - Strict mode also applies only when at least one username is known.
- **Missing API key:**
  - The design says no key means a heuristic report.
  - The code accepts a local base URL (`http://localhost`, `http://127.0.0.1`, `http://0.0.0.0`) with a dummy key.
- **Failures other than rate limits:**
  - The design says any other failure falls back to the heuristic path at once.
  - The code also retries timeouts, connection errors and invalid or templated JSON while attempts remain.
  - It stops at once only on a status error that is neither 429 nor a model rejection it can answer by switching model, and on any other exception.
- **Prompt sizing:**
  - The design drops low-confidence findings for small models.
  - The code switches to a compact system prompt and a 1100-token budget on Groq small models.
  - It caps the evidence at 30 profiles for every model.
- **Alias derivation:**
  - The design records a cross-reference between an e-mail and a matching username.
  - The code scans each new e-mail's local part with the username scanners, tagging the results `derived_from = "email_localpart"`.
  - It then adds the local part to the usernames, so the next round scans that local part again as a plain username.

## Model

| member | source | states |
|---|---|---|
| Language.Code | src/core/domain/language.py:14-18 | the enum value is `"en"` or `"es"`, and `"es"` exactly for Spanish |
| Language.FromCode | src/core/domain/language.py:14-18 | looking a language up by value succeeds exactly for `"en"` and `"es"`, and gives back that value |
| Language.CodeRoundTrip | src/core/domain/language.py:14-18 | looking up a language's own value gives that language back |
| Language.Default | src/core/domain/language.py:20-24 | the default language is English |
| Language.FromBool | src/core/domain/language.py:26-30 | the flag gives Spanish exactly when it is true |
| Language.Label | src/core/domain/language.py:32-35 | the label is `"Spanish"` exactly for Spanish and `"English"` otherwise |
| Language.LabelFromBool | src/core/domain/language.py:26-35 | the label of the language of a flag is `"Spanish"` iff the flag is set, `"English"` iff not |
| Domain.NewSocialProfile | src/core/domain/models.py:20-61 | a profile is built exactly when the username has 1..128 characters, the network name 1..64 and the bio at most 10000; every field is kept as given; a rejection names at least one field |
| Domain.SocialProfileDefaults | src/core/domain/models.py:45-57 | with only the required fields, `existe` is false, the metadata empty and the bio absent |
| Domain.NewAnalysisReport | src/core/domain/models.py:64-99 | a report is built exactly when the summary has 1..20000 characters and the confidence lies in [0, 1], and then holds the given fields |
| Domain.AnalysisReportDefaults | src/core/domain/models.py:78-95 | by default the confidence is 0.5, there are no highlights and no model |
| Domain.NewPersonEntity | src/core/domain/models.py:102-123 | a person is built exactly when the target has 1..256 characters; otherwise the error names `target` |
| Domain.PersonEntityDefaults | src/core/domain/models.py:116-123 | by default a person has no profiles and no analysis |
| SiteListModels.NewUsernameSite | src/adapters/site_lists/models.py:19-28 | a username site is accepted exactly when name, `uri_check` and `e_string` are non-empty, `e_code` is in 100..599 and `m_code`, when present, is too |
| SiteListModels.NewEmailSite | src/adapters/site_lists/models.py:31-46 | the same rule for e-mail sites; method, codes and input operation are kept as given |
| SiteListModels.EmailSiteDefaultMethod | src/adapters/site_lists/models.py:35-40 | an e-mail site's method defaults to `"GET"` |
| SiteListModels.NewUsernameSitesFile | src/adapters/site_lists/models.py:49-50 | a username sites file is accepted exactly when every site in it is valid, and keeps the list |
| SiteListModels.NewEmailSitesFile | src/adapters/site_lists/models.py:53-54 | an e-mail sites file is accepted exactly when every site in it is valid, and keeps the list |
| SiteListModels.SitesFilesDefaultEmpty | src/adapters/site_lists/models.py:49-54 | both sites files default to an empty list |
| InputOperations.ApplyInputOperation | src/adapters/site_lists/operations.py:12-37 | no operation, or an unknown name after strip and lower-casing, returns the input unchanged; every result is the input, its lower-case or stripped form, its URL encoding or one of its three hex digests |
| InputOperations.RunOperation | src/adapters/site_lists/operations.py:19-37 | on a normalised name, an unrecognised operation returns the input, and the result is always one of those seven |
| InputOperations.NormaliseIdempotent | src/adapters/site_lists/operations.py:17 | normalising an operation name twice equals normalising it once |
| InputOperations.NameIsNormalised | src/adapters/site_lists/operations.py:17 | an operation name and its stripped lower-case form select the same operation |
| InputOperations.NormalFormLiteral | src/adapters/site_lists/operations.py:17 | a name with no surrounding white space and no capitals is already normal |
| InputOperations.PaddedUpperCaseName | src/adapters/site_lists/operations.py:17-22 | `" LOWER "` lower-cases the input |
| InputOperations.IdentityAliases | src/adapters/site_lists/operations.py:19-20 | `identity`, `none` and `noop` return the input |
| InputOperations.LowerOperation | src/adapters/site_lists/operations.py:21-22 | `lower` returns the lower-cased input |
| InputOperations.StripOperation | src/adapters/site_lists/operations.py:23-24 | `strip` returns the stripped input |
| InputOperations.UrlEncodeAliases | src/adapters/site_lists/operations.py:25-26 | the three URL-encoding spellings agree and give `quote(value)` |
| InputOperations.Md5Aliases | src/adapters/site_lists/operations.py:29-30 | `hash-md5` and `md5` both give the MD5 hex digest |
| InputOperations.Sha1Aliases | src/adapters/site_lists/operations.py:31-32 | `hash-sha1` and `sha1` both give the SHA-1 hex digest |
| InputOperations.Sha256Aliases | src/adapters/site_lists/operations.py:33-34 | `hash-sha256` and `sha256` both give the SHA-256 hex digest |
| ReportGrouping.PartitionSplits | src/adapters/report_exporter.py:37-39 | the confirmed and unconfirmed lists split the profiles by `existe`: counts add up, multisets add up, membership is exact and both keep the original order |
| ReportGrouping.SourceLabel | src/adapters/report_exporter.py:41-47 | a profile's label is `str` of its truthy `source` metadata, otherwise `"unknown"` |
| ReportGrouping.GroupMembers | src/adapters/report_exporter.py:56-59 | a group holds exactly the profiles with that label |
| ReportGrouping.GroupIsSubsequence | src/adapters/report_exporter.py:56-59 | a group keeps the original order of its profiles |
| ReportGrouping.LabelsMeaning | src/adapters/report_exporter.py:56-59 | the labels are exactly those some profile carries |
| ReportGrouping.AbsentGroup | src/adapters/report_exporter.py:56-59 | a label no profile carries has an empty group |
| ReportGrouping.GroupBy | src/adapters/report_exporter.py:56-59 | the `setdefault(...).append` loop maps each label carried to its group, and holds no other label |
| ReportGrouping.OrderedSources | src/adapters/report_exporter.py:61-64 | the labels in sort order: each exactly once, `"sherlock"` first and the rest ascending |
| ReportGrouping.SortedGroups | src/adapters/report_exporter.py:61-64 | `sorted(map.items(), key=...)` lists every group once with its profiles, in that order |
| ReportGrouping.SortedGroupsCover | src/adapters/report_exporter.py:61-64 | every group of the map is listed |
| ReportGrouping.ReportListsOf | src/adapters/report_exporter.py:37-64 | the report's totals, the confirmed list, and for each listed source the group of its unconfirmed profiles in their original order; sources appear in sort order, and exactly the sources of the unconfirmed profiles appear |
| ReportGrouping.UnconfirmedAllListed | src/adapters/report_exporter.py:56-59 | every unconfirmed profile appears in the group of its own source label |
| ReportGrouping.ListedGroupsNonEmpty | src/adapters/report_exporter.py:56-59 | no listed group is empty |
| AiText.TruncateStr | src/adapters/ai_analyst.py:59-67 | `None` exactly for a non-string or a blank one; a stripped text that fits is returned as is; a longer one is cut to a prefix of it plus `…`, within the budget whenever the budget is positive |
| AiText.TruncateZeroBudget | src/adapters/ai_analyst.py:67 | with a budget of 0, the slice `s[:-1]` gives `"ab"` → `"a…"`, which is longer than the budget |
| AiText.LimitList | src/adapters/ai_analyst.py:70-75 | `None` exactly for a non-list or an empty one; otherwise the prefix of length `min(len, max_items)` |
| AiText.Truncated | src/adapters/ai_analyst.py:83-86 | the samples are non-empty, within the budget when it is positive, and no more than the items |
| AiText.TruncatedKeepsText | src/adapters/ai_analyst.py:83-86 | there is one sample per non-blank string item |
| AiText.CompactSamples | src/adapters/ai_analyst.py:78-87 | `None` for a non-list; a list it returns is non-empty (`out or None` gives `None` when no sample survives) and holds at most `max_items` non-empty samples, each within `max_chars_each` |
| AiText.CompactTextSamples | src/adapters/ai_analyst.py:78-87 | the loop computes `CompactSamples` |
| AiText.SearchNumberedHeading | src/adapters/ai_analyst.py:97 | the search finds the first position of a line starting with the numbered heading, or reports that none exists |
| AiText.SixSectionsMeaning | src/adapters/ai_analyst.py:90-98 | a summary has six sections iff its stripped text has a line starting `## 1.` and one starting `## 6.` (`#` pairs with optional white space) |
| AiText.CutAfterSection6 | src/adapters/ai_analyst.py:139-144 | the result is a prefix of the summary with no `##` heading after the `## 6.` heading |
| AiText.CutJunk | src/adapters/ai_analyst.py:147-149 | the result is a prefix with no `## Highlights` or `## Confidence` heading line, in any case |
| AiText.SanitizeSummaryMarkdown | src/adapters/ai_analyst.py:124-151 | `""` for a non-string; otherwise a prefix of the stripped text, with nothing headed after section 6 and no Highlights or Confidence heading |
| AiText.SanitizeClean | src/adapters/ai_analyst.py:124-151 | a summary with no `## 6.` heading and no such junk heading comes back stripped and otherwise untouched |
| AiText.SearchFence | src/adapters/ai_analyst.py:56 | a match of the fenced-JSON pattern spans a `{` … `}`; without one, no position starts a fence |
| AiText.BraceSpan | src/adapters/ai_analyst.py:111-114 | the first-`{`-to-last-`}` slice starts with `{` and ends with `}` |
| AiText.ExtractJsonObject | src/adapters/ai_analyst.py:101-121 | any text returned starts with `{` and ends with `}`; on the last path it is accepted by the JSON decoder; it raises `ValueError` exactly when there is no fenced object, the stripped text is not braced, and the slice is absent or not JSON |
| AiText.UnfencedObject | src/adapters/ai_analyst.py:107-121 | a braced stripped text is returned whole; otherwise the slice, only if it parses |
| AiText.BareObjectReply | src/adapters/ai_analyst.py:107-109 | an unfenced reply that is an object returns that object, stripped |
| AiText.FencedObjectReply | src/adapters/ai_analyst.py:103-105 | a reply that opens with a fenced object returns the object inside the fence |
| AiText.ValidatePayload | src/adapters/ai_analyst.py:342-345 | the payload is accepted exactly when its summary is non-empty and its confidence lies in [0, 1] |
| AiText.MaxTokensForModel | src/adapters/ai_analyst.py:293-297 | the budget is 1100 exactly for a model whose lower-cased name contains `8b` or `instant`, and 1800 otherwise |
| AiText.CompactPromptSmallBudget | src/adapters/ai_analyst.py:285-297 | whenever the compact prompt is used, the budget is 1100 |
| AiText.CompactOnlyOnGroq | src/adapters/ai_analyst.py:285-290 | off `api.groq.com` the compact prompt is never used |
| AiText.ModelRejectionIgnoresCase | src/adapters/ai_analyst.py:337-339 | recognising a model rejection ignores the message's case |
| AiText.LocalBaseUrlNormalised | src/adapters/ai_analyst.py:348-352 | the local-endpoint test ignores surrounding white space and case |
| AiText.NormalHighlights | src/adapters/ai_analyst.py:466 | the highlights are compared stripped and lower-cased, one for one |
| AiText.TemplateRules | src/adapters/ai_analyst.py:453-474 | a reply is a template iff its summary is one of the two template sentences, it has no highlights, or some highlight is a placeholder |
| AiText.BreachEntry | src/adapters/ai_analyst.py:311-319 | a breach record has exactly the five fields |
| AiText.BreachFieldFallback | src/adapters/ai_analyst.py:313-317 | each of `title`, `domain`, `breach_date`, `pwn_count` and `data_classes` takes the snake-case value when it is truthy, otherwise the Pascal-case one |
| AiText.BreachEntries | src/adapters/ai_analyst.py:307-319 | five-field records, never more than the items |
| AiText.BreachEntriesOfDicts | src/adapters/ai_analyst.py:307-319 | the `k`-th record is `BreachEntry` of the `k`-th dictionary of the list, and there are as many records as dictionaries: anything else is skipped |
| AiText.HibpBreaches | src/adapters/ai_analyst.py:300-320 | a summary exists exactly when `breaches` is a dict holding a `breaches` list; its count is the number of dict items, and its top holds the first `min(count, 10)` records |
| AiText.ExtractHibpBreaches | src/adapters/ai_analyst.py:300-320 | the loop computes `HibpBreaches` |
| AiAnalyst.RemoveFirst | src/adapters/ai_analyst.py:495 | `list.remove(p)` drops one copy of `p` when it is present; for an absent `p`, where Python raises `ValueError`, the model returns the list unchanged, a case `RemoveEach` never reaches |
| AiAnalyst.RemoveUnconfirmedKeepsConfirmed | src/adapters/ai_analyst.py:493-495 | removing an unconfirmed profile leaves the confirmed ones, in order |
| AiAnalyst.ProfileList.Remove | src/adapters/ai_analyst.py:495 | the list object loses the first element equal to `p` |
| AiAnalyst.ModelCopy | src/adapters/ai_analyst.py:487 | the copy is a new person whose profile list is the same object as the original's |
| AiAnalyst.DropUnconfirmed | src/adapters/ai_analyst.py:489-495 | after the `while True` loop the list holds exactly the confirmed profiles, in their order |
| AiAnalyst.RemoveEach | src/adapters/ai_analyst.py:493-495 | one pass removes one profile per listed unconfirmed profile and keeps every confirmed one |
| AiAnalyst.CleanPersonAsWritten | src/adapters/ai_analyst.py:487-495 | the cleaned person shares the caller's list, and the caller's list loses its unconfirmed profiles |
| AiAnalyst.AsWrittenEmptiesCallerList | src/adapters/ai_analyst.py:487-495 | a caller's person with one unconfirmed profile has none left afterwards |
| AiAnalyst.CleanPerson | src/adapters/ai_analyst.py:487-495 | the cleaned person has a new list holding the confirmed profiles; the caller's person is untouched |
| AiAnalyst.CleanPersonKeepsCallerList | src/adapters/ai_analyst.py:487-495 | the same caller keeps its profile when the list is copied |
| AiAnalyst.BreachTitles | src/adapters/ai_analyst.py:383 | at most one title per breach |
| AiAnalyst.BreachTitlesOfTitled | src/adapters/ai_analyst.py:383 | the titles are `str` of the `title` of exactly the breaches whose `title` is truthy, one each and in the breaches' order |
| AiAnalyst.BreachLines | src/adapters/ai_analyst.py:361-385 | the `k`-th line is `BreachLine` of the `k`-th `hibp` profile, one line per such profile |
| AiAnalyst.CollectBreachLines | src/adapters/ai_analyst.py:361-385 | the loop computes `BreachLines` |
| AiAnalyst.ConfirmedNetworks | src/adapters/ai_analyst.py:357-358 | sorted without repeats: exactly the lower-cased non-empty network names of confirmed profiles |
| AiAnalyst.ObservedEmails | src/adapters/ai_analyst.py:359 | sorted without repeats: exactly the usernames that contain `@` |
| AiAnalyst.SectionLines | src/adapters/ai_analyst.py:388-402 | the fixed summary has 13 lines, a `## 1.` heading first and a `## 6.` heading on its own line |
| AiAnalyst.BreachBlock | src/adapters/ai_analyst.py:403-404 | the breach block is present exactly when there are breach lines |
| AiAnalyst.ClosingNote | src/adapters/ai_analyst.py:405 | the closing note ends the summary with a full stop |
| AiAnalyst.HeuristicLines | src/adapters/ai_analyst.py:387-405 | the summary lines keep both headings and end in a full stop |
| AiAnalyst.HeuristicHighlights | src/adapters/ai_analyst.py:406-411 | two highlights, three when there are breach lines |
| AiAnalyst.LinesHaveSixSections | src/adapters/ai_analyst.py:413 | joining and stripping such lines gives a summary with six sections |
| AiAnalyst.HeuristicSummary | src/adapters/ai_analyst.py:387-413 | every heuristic summary, in either language, passes the six-sections test |
| AiAnalyst.HeuristicAnalysis | src/adapters/ai_analyst.py:355-450 | the method computes `HeuristicReport` |
| AiAnalyst.HeuristicShape | src/adapters/ai_analyst.py:355-450 | the heuristic report is built exactly when its summary has at most 20000 characters; it then has model `heuristic`, confidence 0.25, `raw = {"reason": reason}`, six sections and 2 or 3 highlights by whether an `hibp` profile exists |
| AiAnalyst.HeuristicReportShape | src/adapters/ai_analyst.py:412-418 | the report built from a six-section summary holds exactly the given fields |
| AiAnalyst.EvidenceSignals | src/adapters/ai_analyst.py:562-564 | the evidence count is the number of profiles, capped at 30 |
| AiAnalyst.CappedConfidence | src/adapters/ai_analyst.py:686-690 | never above the parsed confidence; unchanged when there are text samples or timestamps; otherwise capped at 0.55 with at least 3 profiles and at 0.35 with fewer; stays in [0, 1] |
| AiAnalyst.Handles | src/adapters/ai_analyst.py:569-578 | the handles are non-empty and contain no `@` |
| AiAnalyst.OccurrencesPositive | src/adapters/ai_analyst.py:580-583 | a key has a positive count iff some handle lower-cases to it |
| AiAnalyst.HandleCounts | src/adapters/ai_analyst.py:580-583 | the counting loop keys exactly the lower-cased handles, each with its number of occurrences |
| AiAnalyst.ReusedHandles | src/adapters/ai_analyst.py:584 | sorted without repeats: exactly the keys counted at least twice |
| AiAnalyst.FallbackModel | src/adapters/ai_analyst.py:619-624 | a fallback model exists exactly on `api.groq.com`, in any case |
| AiAnalyst.Attempts | src/adapters/ai_analyst.py:626 | at least one attempt, and `ai_max_retries + 1` when that is not negative |
| AiAnalyst.InvalidReply | src/adapters/ai_analyst.py:732-743 | an invalid reply is retried only before the last attempt, and otherwise stops |
| AiAnalyst.ReplyStep | src/adapters/ai_analyst.py:636-693 | a reply never switches the model; it is retried only before the last attempt; an accepted reply is valid, has six sections, is not a template, and gives a report with the sanitised summary, the highlights, the capped confidence and the model used |
| AiAnalyst.AttemptStep | src/adapters/ai_analyst.py:626-747 | the model switches exactly on a 400/404 model rejection while the Groq fallback is not in use; non-429 status errors and unexpected exceptions stop; a retry happens only before the last attempt; only a completed call is accepted |
| AiAnalyst.ExtendChain | src/adapters/ai_analyst.py:626-747 | a call made with the model and messages the previous step left extends the chain of calls, and leaves the earlier calls' steps as they were |
| AiAnalyst.StepContinues | src/adapters/ai_analyst.py:700-747 | a switching or retrying step leaves the next call the fallback model with the system prompt rebuilt for it (lines 700-716), or the same model with the reply and a correction appended (lines 732-743) |
| AiAnalyst.ConversationStep | src/adapters/ai_analyst.py:626-747 | a switch or retry keeps the loop invariant: each call made with the model and messages the previous step left (the configured model and initial messages first), the last error being the last step's error, no call halting, and at most the recorded one switching |
| AiAnalyst.ConversationEnd | src/adapters/ai_analyst.py:683-747 | an accepting or stopping attempt ends the conversation: a reply is accepted exactly when this last step accepts it, with that step's report and payload; otherwise the last error is that step's error |
| AiAnalyst.FinalCall | src/adapters/ai_analyst.py:626-747 | adding the last call keeps the calls following the model, switching at most once and halting only at the end |
| AiAnalyst.ConversationExhausted | src/adapters/ai_analyst.py:626-747 | when every attempt switched or retried, no reply is accepted and the last error is the last call's error |
| AiAnalyst.Converse | src/adapters/ai_analyst.py:619-747 | between one and `max(1, ai_max_retries + 1)` calls; the first with the configured model and the initial messages, each later one with the model and messages the step before it left; each with its model's token budget; the fallback switch at most once; a halting outcome only last; a reply is accepted exactly when the last call's step accepts it, with that step's report and payload from a completed call; otherwise the last error is that step's error, and it stopped or the attempts ran out |
| AiAnalyst.KeylessDispatched | src/adapters/ai_analyst.py:498-505 | without a usable key, no call is made and the report is the heuristic one with reason `missing_ai_api_key` |
| AiAnalyst.ConversationDispatched | src/adapters/ai_analyst.py:749-752 | after a conversation, the report is the accepted one, or the heuristic one with reason `provider_failed:<last error>` |
| AiAnalyst.Dispatch | src/adapters/ai_analyst.py:498-752 | `MissingKey` exactly when no key is usable, with no call and the heuristic report `missing_ai_api_key`; otherwise the conversation as in `Converse`, and the report is the one it accepted, or the heuristic one with `provider_failed:` and the last step's error |
| AiAnalyst.DispatchToProvider | src/adapters/ai_analyst.py:507-752 | with a usable key, the conversation as in `Converse`; the report is the one it accepted, or the heuristic one with `provider_failed:` and the last step's error |
| AiAnalyst.AnalyzePerson | src/adapters/ai_analyst.py:477-752 | `analyze_person` with the corrected cleaning step (`CleanPerson`, see "## Findings") is `Dispatch` on the person's confirmed profiles, in order; the source as written also empties the caller's list of its unconfirmed profiles (`CleanPersonAsWritten`) |
| IdentityPipeline.SlugChar | src/core/services/identity_pipeline.py:155-160 | each character stays iff allowed (alphanumeric, `-`, `_`, `.`); `@` and `+` become `_`; everything else becomes `-` |
| IdentityPipeline.SlugShape | src/core/services/identity_pipeline.py:150-162 | the slug is non-empty, uses only allowed characters, and neither begins nor ends with `-` or `_` |
| IdentityPipeline.DefaultSlugShape | src/core/services/identity_pipeline.py:162 | the fallback name `target` uses only allowed characters |
| IdentityPipeline.SanitizeTargetForFilename | src/core/services/identity_pipeline.py:150-162 | the loop computes the slug, which has the shape above |
| IdentityPipeline.FirstIndex | src/core/services/identity_pipeline.py:170-175 | the first position holding a key |
| IdentityPipeline.DedupeKeys | src/core/services/identity_pipeline.py:165-176 | no two kept profiles share `(network_name, username, url)`, and every input key is kept |
| IdentityPipeline.DedupeFirstOccurrence | src/core/services/identity_pipeline.py:165-176 | each kept profile is its key's first occurrence, in input order |
| IdentityPipeline.DedupeOfDistinct | src/core/services/identity_pipeline.py:165-176 | a list without repeated keys is unchanged |
| IdentityPipeline.DedupeIdempotent | src/core/services/identity_pipeline.py:165-176 | de-duplicating twice equals de-duplicating once |
| IdentityPipeline.DedupeProfiles | src/core/services/identity_pipeline.py:165-176 | the `seen` loop computes `Dedupe`, with distinct keys and every input key |
| IdentityPipeline.StrictKeepRules | src/core/services/identity_pipeline.py:128-206 | an unconfirmed profile is dropped; a confirmed non-Sherlock profile is kept; a Sherlock profile is kept iff its network is not denylisted, its final URL has no suspicious part, and the lower-cased username occurs in the final URL, title or meta description |
| IdentityPipeline.StrictKeepIgnoresCase | src/core/services/identity_pipeline.py:194-204 | the username's case does not matter |
| IdentityPipeline.StrictFilter | src/core/services/identity_pipeline.py:429-433 | the kept profiles are, in order, exactly those some username keeps, and all are confirmed |
| IdentityPipeline.StrictFilterIdempotent | src/core/services/identity_pipeline.py:429-433 | filtering twice equals filtering once |
| IdentityPipeline.StrictStage | src/core/services/identity_pipeline.py:428-433 | the filter applies exactly when strict mode is on and some username is known |
| IdentityPipeline.FilterKeepsDistinctKeys | src/core/services/identity_pipeline.py:426-433 | filtering de-duplicated profiles keeps keys distinct |
| IdentityPipeline.FallbackUrlUniform | src/core/services/identity_pipeline.py:252-254 | the special case for `x` agrees with `https://{network}.com/{value}` |
| IdentityPipeline.WithOrigin | src/core/services/identity_pipeline.py:246-247 | `derived_from` is set to the given origin when there is one, and every other entry is kept |
| IdentityPipeline.SafeScan | src/core/services/identity_pipeline.py:230-266 | on success, the scanner's profiles one for one, with the same username, network, `existe`, bio and image, the origin tagged, and a URL with the `x` placeholder host rewritten to `x.com/` (any other URL kept); on an exception, exactly one unconfirmed profile: the value as username, the network as the class name without `Scanner` and lower-cased, the fallback URL, and `error`, `scanner` and `derived_from` metadata; it raises only when that profile is invalid |
| IdentityPipeline.SafeScanFails | src/core/services/identity_pipeline.py:251-266 | `safe_scan` raises exactly when the scanner raised and the error profile would be invalid |
| IdentityPipeline.ScanValueFails | src/core/services/identity_pipeline.py:303-311 | scanning a value with a scanner set fails exactly when one of its `safe_scan`s fails |
| IdentityPipeline.NonUrlStringsOf | src/core/services/identity_pipeline.py:285-292 | a website value that starts with `http` is never taken |
| IdentityPipeline.ExtraEmailsNormal | src/core/services/identity_pipeline.py:293 | every harvested e-mail contains `@` and is stripped and lower-case |
| IdentityPipeline.ExtraUsernamesNormal | src/core/services/identity_pipeline.py:294 | every harvested username is non-empty and stripped |
| IdentityPipeline.WebsitesSkipUrls | src/core/services/identity_pipeline.py:285-292 | nothing harvested from the website keys starts with `http` |
| IdentityPipeline.PaddedWebsiteBecomesUsername | src/core/services/identity_pipeline.py:285-294 | the `http` test runs before stripping, so the website `" http://a"` becomes the username `http://a` |
| IdentityPipeline.AddStrings | src/core/services/identity_pipeline.py:273-284 | the key loop adds exactly the strings found under those keys |
| IdentityPipeline.AddNonUrlItems | src/core/services/identity_pipeline.py:289-292 | the list loop adds exactly its non-`http` strings |
| IdentityPipeline.AddWebsites | src/core/services/identity_pipeline.py:285-292 | the website loop adds exactly the non-`http` strings under the website keys |
| IdentityPipeline.ExtractExtras | src/core/services/identity_pipeline.py:268-295 | `extract_extras` computes the harvested usernames and e-mails |
| IdentityPipeline.NormalisedUsernames | src/core/services/identity_pipeline.py:218 | the initial usernames are stripped and non-empty, and every non-blank input is among them, stripped |
| IdentityPipeline.NormalisedEmails | src/core/services/identity_pipeline.py:219 | the initial e-mails are stripped, lower-case and non-empty, and every non-blank input is among them |
| IdentityPipeline.SiteListStage | src/core/services/identity_pipeline.py:351-397 | with site lists disabled nothing is added; otherwise the missing-path warning for usernames (e-mails) is recorded exactly when there are usernames (e-mails) and no usable list, and a usable username list's profiles come first |
| IdentityPipeline.TargetLabel | src/core/services/identity_pipeline.py:445-450 | the target label is never empty |
| IdentityPipeline.TargetLabelJoinsAll | src/core/services/identity_pipeline.py:445-450 | with both kinds present, the label is all usernames then all e-mails joined by `/` |
| IdentityPipeline.KeptShape | src/core/services/identity_pipeline.py:426-433 | after de-duplication and strict filtering the keys are distinct, and in strict mode with usernames every profile is confirmed |
| IdentityPipeline.EnrichAll | src/core/services/identity_pipeline.py:435-439 | enrichment keeps each profile's key and `existe`, so distinct keys stay distinct |
| IdentityPipeline.FinishShape | src/core/services/identity_pipeline.py:341-459 | the result's profiles have distinct keys, its usernames and e-mails are sorted without repeats and include all discovered ones, strict mode leaves only confirmed profiles, and the target is valid |
| IdentityPipeline.FinishHunt | src/core/services/identity_pipeline.py:341-459 | the stages after the loop compute `Finish` |
| IdentityPipeline.Enumerate | src/core/services/identity_pipeline.py:298-299 | `list(a - b)` lists each element exactly once |
| IdentityPipeline.ScanAllJobs | src/core/services/identity_pipeline.py:303-312 | a scan batch (`ScanAll`, every value with every scanner of its set) is the run of one job per value, in order |
| IdentityPipeline.RunJobsAppend | src/core/services/identity_pipeline.py:309-311 | running two job lists one after the other gives the first failure, or the first list's profiles followed by the second's |
| IdentityPipeline.AppendBatch | src/core/services/identity_pipeline.py:303-335 | appending a batch's jobs: the run fails with the batch's failure or gives the batch's profiles after the earlier ones, and the batch's values follow the earlier values of their kind |
| IdentityPipeline.ScanNewUsernames | src/core/services/identity_pipeline.py:298-312 | the unscanned usernames are listed, each exactly once; the result is the first failure of their scan with the username scanners, or the batch's profiles appended to the loop's and every discovered username marked scanned |
| IdentityPipeline.ScanNewEmails | src/core/services/identity_pipeline.py:299-335 | the unscanned e-mails are listed, each exactly once; the result is the first failure of their scan with the e-mail scanners; otherwise, without `scan_localpart`, their profiles appended and every e-mail scanned; with it, the first failure of the scan of their local parts with the username scanners tagged `email_localpart`, or both batches' profiles appended, every e-mail scanned and the new e-mails' local parts added to the usernames |
| IdentityPipeline.ScanLocalparts | src/core/services/identity_pipeline.py:325-335 | the first failure of the local parts' scan with the username scanners tagged `email_localpart`, or its profiles together with exactly the e-mails' local parts |
| IdentityPipeline.Localparts | src/core/services/identity_pipeline.py:326 | the local part of each e-mail is the text before its first `@` |
| IdentityPipeline.RoundStart | src/core/services/identity_pipeline.py:217-227 | the loop starts with no profile, no job and nothing scanned, its discovered sets being the normalised inputs, and its bookkeeping holds |
| IdentityPipeline.UsernameHalf | src/core/services/identity_pipeline.py:303-312 | the username half keeps the bookkeeping with its jobs appended; a failure is the first failure of the jobs |
| IdentityPipeline.EmailBatch | src/core/services/identity_pipeline.py:314-323 | the e-mail scans with their jobs appended: a failure fails the jobs; otherwise the jobs give the loop's profiles and every e-mail is recorded as scanned exactly once |
| IdentityPipeline.LocalpartJobs | src/core/services/identity_pipeline.py:325-333 | the local-part scans with their jobs appended: a failure fails the jobs; otherwise the jobs give the loop's profiles and the local parts follow the e-mails, one for one |
| IdentityPipeline.LocalpartSets | src/core/services/identity_pipeline.py:325-335 | adding the new e-mails' local parts keeps the usernames equal to the inputs, the harvested identities and the local parts of the scanned e-mails |
| IdentityPipeline.EmailHalfLocal | src/core/services/identity_pipeline.py:314-335 | the e-mail half with `scan_localpart`, after its e-mail scans succeeded, keeps the bookkeeping; a failure is the first failure of the jobs |
| IdentityPipeline.EmailHalfPlain | src/core/services/identity_pipeline.py:314-323 | the e-mail half without local parts keeps the bookkeeping; a failure is the first failure of the jobs |
| IdentityPipeline.EmailHalf | src/core/services/identity_pipeline.py:314-335 | the e-mail half keeps the bookkeeping with its jobs appended, marks every e-mail scanned and leaves the scanned usernames alone; a failure is the first failure of the jobs |
| IdentityPipeline.HarvestSets | src/core/services/identity_pipeline.py:337-339 | adding the identities every profile names keeps the discovered sets equal to the inputs, the identities of all profiles and the local parts |
| IdentityPipeline.HarvestRound | src/core/services/identity_pipeline.py:337-339 | the same with the record of the scans unchanged |
| IdentityPipeline.BatchCaused | src/core/services/identity_pipeline.py:303-335 | appending a batch of jobs whose values are all known from the jobs before it keeps every job caused: each value known from the inputs, the profiles of the jobs before it, or an earlier e-mail |
| IdentityPipeline.DiscoveredAvailable | src/core/services/identity_pipeline.py:217-339 | every discovered username and e-mail is known from the inputs, the profiles the jobs gave and the e-mails scanned so far |
| IdentityPipeline.UsernamesCaused | src/core/services/identity_pipeline.py:303-312 | the username scans of a round only scan usernames already known |
| IdentityPipeline.EmailsCaused | src/core/services/identity_pipeline.py:314-335 | the e-mail scans of a round only scan known e-mails, and the local parts only those of e-mails scanned before them |
| IdentityPipeline.NothingFoundOnlyInputs | src/core/services/identity_pipeline.py:217-339 | a job started while the jobs before it had found nothing and scanned no e-mail is an input username or e-mail, never a local part: no identity comes out of nowhere |
| IdentityPipeline.LoopDone | src/core/services/identity_pipeline.py:298-301 | when nothing is unscanned, the usernames are exactly the inputs, the identities the profiles name and, with `scan_localpart`, the local parts of all e-mails; the e-mails likewise; each went to its scanners exactly once |
| IdentityPipeline.UsernameStage | src/core/services/identity_pipeline.py:303-312 | `if new_usernames:` keeps the bookkeeping and every job caused; afterwards every discovered username is scanned and the e-mails are untouched; a failure is the first failure of the jobs |
| IdentityPipeline.EmailStage | src/core/services/identity_pipeline.py:314-335 | `if new_emails:` keeps the bookkeeping and every job caused; afterwards every e-mail is scanned and the scanned usernames are untouched; a failure is the first failure of the jobs |
| IdentityPipeline.Round | src/core/services/identity_pipeline.py:298-339 | one round extends the jobs and keeps the bookkeeping, with every profile harvested, and every job caused; every identity discovered before the round is scanned after it; a failure is the first failure of the jobs |
| IdentityPipeline.Discover | src/core/services/identity_pipeline.py:217-339 | the loop stops on a rejected scan with the jobs' first failure, or when the rounds run out, or with the bookkeeping holding and nothing left unscanned; unless a scan was rejected, every job was caused |
| IdentityPipeline.Hunt | src/core/services/identity_pipeline.py:209-459 | a rejected scan ends the hunt with the first failure of its jobs; otherwise the loop's profiles are exactly what its jobs give, in order, and each job's value was known before it ran (an input, an identity named by the profiles of the jobs before it, or, for a local part or with `scan_localpart`, the local part of an earlier e-mail), so no job scans an identity the inputs do not lead to; a finished hunt's result is `Finish` of the loop's final state; the discovered usernames are exactly the inputs, the identities the profiles name and, with `scan_localpart`, every e-mail's local part, and the e-mails exactly the inputs and the e-mails the profiles name; every discovered username and e-mail went to its scanner set exactly once, and the local parts, in the e-mails' order, to the username scanners |

## Left out

- I/O, the clock and concurrency are left out:
  - `asyncio.gather` is a sequential map over the same list order. When several scans raise, Python propagates whichever exception is raised first in time; the model (`ScanAll`, `RunJobs`) reports the first in list order;
  - `generated_at` and `datetime.now` are not modelled;
  - the `asyncio.sleep` calls are not modelled.
- Backoff timing (`src/adapters/ai_analyst.py:323-334, 718-720, 728-730`) is not modelled. The Retry-After parsing and the random jitter only decide how long to wait, never which branch runs.
- The prompt texts (`src/adapters/ai_analyst.py:154-282`) and the correction texts are not modelled.
  - A message is represented by its kind: the system prompt (compact or not), the evidence payload, the assistant's reply, and which correction is asked for.
  - The `json.dumps` of the payload is left out.
  - The OpenAI client is an oracle of call outcomes.
- The evidence payload sent to the provider is one constant message in the model. Only two of its facts reach a decision, and both feed the confidence cap:
  - the number of profiles, capped at 30;
  - whether any profile has text samples or timestamps.

  The handle counts (`HandleCounts`, `ReusedHandles`) and the HIBP summary (`HibpBreaches`) are modelled on their own and do not enter the conversation. The other `profile_dict` fields are left out because nothing reads them back; their truncation helpers are modelled on their own.
- `json.loads` and the pydantic type checks of the payload are left out. They are a decoder parameter, and a JSON parse error raised there is a `ValueError`, as it is in Python.
- The regular expressions are written as position predicates over the text:
  - a line start;
  - `##`, optional white space, a digit and a dot;
  - the code fence;
  - a word boundary.
  
  No regex engine is modelled.
- `lower()` is ASCII-only, so non-ASCII case folding is not modelled. The same holds for the case-insensitive match of the junk headings (`(?im)^##\s*(highlights|confidence)\b`, `AiText.JunkHeadingAt`): Python's `re.IGNORECASE` also lets `ſ` match `s` and the Kelvin sign match `k`, and the model matches ASCII case only.
- `str.isalnum` on non-ASCII characters, and the word characters of `\b`, are a predicate parameter.
- `hashlib` digests and `urllib.parse.quote` are uninterpreted functions.
- The scanners, `run_username_sites`, `run_email_sites`, `run_sherlock_username`, `load_*_sites`, `get_default_list_path` and `enrich_profiles_from_html` are oracles.
  - The site-list and Sherlock engines' profiles are given.
  - Enrichment may change a profile's metadata, bio and image but not its key or `existe`.
  - The path checks reduce to whether a usable list exists.
- IdentityPipeline.Hunt: the Python `while True` loop need not end when the metadata keeps naming new identities. The model gives it a bound on the number of rounds, and `OutOfRounds` is returned when the bound is hit. Its promises about the final sets are stated for a hunt that finishes; those about the jobs hold when the rounds run out too.
- IdentityPipeline.SiteListStage: the profiles of an enabled stage are stated only as coming from the engines. The engines are oracles, and the stage only passes their profiles on.
- Values.Str: a list or a dict prints as the placeholder `[...]` or `{...}`, not as Python's `repr` of its items (`str(["a"])` is `['a']`). This shows in `ReportGrouping.SourceLabel` for a list- or dict-valued `source`, in the `status=` and `error=` text of `AiAnalyst.BreachLine`, and in `AiAnalyst.BreachTitles` for a title that is not a string. Element order and quoting of nested values are not part of the model.
- AiAnalyst.BreachLine: `status != 200` is modelled as "not the integer 200". A float status such as `200.0`, which Python counts as equal to 200, is a `VOther` and counts as not 200. Booleans are handled as Python does (`True == 1`, never 200).
- AiAnalyst.ReplyStep: the provider's JSON test `isJson` (the `json.loads` probe of `_extract_json_object`) and its decoder `decode` are independent oracles. The model does not require that a text the test accepts also decodes, or the reverse; its promises hold for any pair.
- AiText.TruncateStr: the length bound is stated only for a positive budget. For a budget of 0 or less, Python's negative slice makes the result longer than the budget (`TruncateZeroBudget`). Every call site passes a positive constant.
- The `provider_failed:unknown` reason at `src/adapters/ai_analyst.py:752` is unreachable. Every path that leaves the loop has set `last_error`, so the model has no such case.
- `scan_username` and `scan_email` (`src/core/services/identity_pipeline.py:462-494`) only build a fixed `HuntRequest` and call `hunt`, and `Hunt` models that call. They are not modelled separately.
- The template rendering of `render_person_html` is left out. So is the `setattr(p, "_source", ...)` at `src/adapters/report_exporter.py:49-54`: pydantic v2 lets it set the attribute on the caller's own profiles, but nothing in the core reads it back, so the model's profiles do not carry it. The label itself is modelled as `SourceLabel`.
- `hooks.warning`, the Sherlock progress callbacks and the Sherlock site total are left out. They only report progress; the warnings list itself is modelled.
- `AppSettings` is not modelled beyond the fields the dispatcher reads: the API key, base URL, model and `ai_max_retries`. `Attempts` handles any value of `ai_max_retries`, including the range the settings enforce.

## Findings

| source | as written | input that shows it | evidently intended | confidence | as-written member | corrected member |
|---|---|---|---|---|---|---|
| src/adapters/ai_analyst.py:487-495 | `person.model_copy()` is a shallow copy, so `clean_person.profiles` is the caller's own list, and the `remove` loop deletes the unconfirmed profiles from the caller's `PersonEntity` | a person with one profile whose `existe` is false: the caller's list goes from 1 profile to 0, so a report rendered from that person afterwards shows no unconfirmed profiles | analyse a cleaned copy and leave the caller's person intact (a deep copy, or a new list) | not executed; the model states pydantic v2's shallow-copy semantics | AiAnalyst.CleanPersonAsWritten, AiAnalyst.AsWrittenEmptiesCallerList | AiAnalyst.CleanPerson, AiAnalyst.CleanPersonKeepsCallerList |
