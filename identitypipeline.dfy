/** The identity-correlation pipeline: the report-name slug, duplicate removal,
    strict-mode filtering, the exception-proof scan wrapper, the harvesting of
    further identities from profile metadata, and the discovery loop of `hunt`
    that scans every username and email until no new one turns up.

    Scanners, site-list engines, the Sherlock runner and HTML enrichment are
    oracles: function-typed parameters whose results the model takes as given.
    The concurrent fan-out (`asyncio.gather`) is a sequential map in the order
    the tasks are listed. */
module IdentityPipeline {
  import opened Wrappers
  import opened PyText
  import opened Values
  import opened Domain
  import opened Seqs

  // ---------------------------------------------------------------------------
  // Report-name slug
  // ---------------------------------------------------------------------------

  /** The characters a slug keeps as they are. */
  predicate SlugAllowed(c: char, unicodeAlnum: char -> bool) {
    IsAlnum(c, unicodeAlnum) || c == '-' || c == '_' || c == '.'
  }

  predicate IsDashOrUnderscore(c: char) { c == '-' || c == '_' }

  /** What one character of the stripped target becomes: allowed characters
      stay, `@` and `+` become `_`, everything else becomes `-`. */
  function SlugChar(c: char, unicodeAlnum: char -> bool): (d: char)
    ensures SlugAllowed(d, unicodeAlnum)
    ensures d == c <==> SlugAllowed(c, unicodeAlnum)
    ensures d == '_' && c != '_' <==> c == '@' || c == '+'
    ensures d == '-' && c != '-' <==> !SlugAllowed(c, unicodeAlnum) && c != '@' && c != '+'
  {
    if SlugAllowed(c, unicodeAlnum) then c
    else if c == '@' || c == '+' then '_'
    else '-'
  }

  function SlugChars(t: string, unicodeAlnum: char -> bool): seq<char> {
    seq(|t|, i requires 0 <= i < |t| => SlugChar(t[i], unicodeAlnum))
  }

  /** The slug of a target, as a function of the target. */
  function Slug(value: string, unicodeAlnum: char -> bool): string {
    var cleaned := StripBy(SlugChars(Strip(value), unicodeAlnum), IsDashOrUnderscore);
    if cleaned == "" then "target" else cleaned
  }

  /** A slug is never empty, holds only allowed characters, and neither starts
      nor ends with `-` or `_`. */
  lemma SlugShape(value: string, unicodeAlnum: char -> bool)
    ensures var s := Slug(value, unicodeAlnum);
      && s != []
      && (forall k :: 0 <= k < |s| ==> SlugAllowed(s[k], unicodeAlnum))
      && !IsDashOrUnderscore(s[0]) && !IsDashOrUnderscore(s[|s| - 1])
  {
    var m := SlugChars(Strip(value), unicodeAlnum);
    if StripBy(m, IsDashOrUnderscore) == "" {
      DefaultSlugShape(unicodeAlnum);
    } else {
      CleanedSlugAllowed(m, unicodeAlnum);
    }
  }

  /** Stripping dashes and underscores off mapped characters keeps only
      allowed characters. */
  lemma CleanedSlugAllowed(m: seq<char>, unicodeAlnum: char -> bool)
    requires forall k :: 0 <= k < |m| ==> SlugAllowed(m[k], unicodeAlnum)
    ensures forall k :: 0 <= k < |StripBy(m, IsDashOrUnderscore)| ==>
              SlugAllowed(StripBy(m, IsDashOrUnderscore)[k], unicodeAlnum)
  {
    var cleaned := StripBy(m, IsDashOrUnderscore);
    var i :| 0 <= i <= |m| && cleaned <= m[i..];
    forall k | 0 <= k < |cleaned| ensures SlugAllowed(cleaned[k], unicodeAlnum) {
      assert cleaned[k] == m[i + k];
    }
  }

  lemma DefaultSlugShape(unicodeAlnum: char -> bool)
    ensures forall k :: 0 <= k < |"target"| ==> SlugAllowed("target"[k], unicodeAlnum)
  {
    var t := "target";
    assert t[0] == 't' && t[1] == 'a' && t[2] == 'r' && t[3] == 'g' && t[4] == 'e' && t[5] == 't';
  }

  /** `sanitize_target_for_filename(value)`. */
  method SanitizeTargetForFilename(value: string, unicodeAlnum: char -> bool) returns (slug: string)
    ensures slug == Slug(value, unicodeAlnum)
    ensures slug != []
    ensures forall k :: 0 <= k < |slug| ==> SlugAllowed(slug[k], unicodeAlnum)
    ensures !IsDashOrUnderscore(slug[0]) && !IsDashOrUnderscore(slug[|slug| - 1])
  {
    var t := Strip(value);
    var out: seq<char> := [];
    for i := 0 to |t|
      invariant out == SlugChars(t[..i], unicodeAlnum)
    {
      out := out + [SlugChar(t[i], unicodeAlnum)];
    }
    assert t[..|t|] == t;
    var cleaned := StripBy(out, IsDashOrUnderscore);
    slug := if cleaned == "" then "target" else cleaned;
    SlugShape(value, unicodeAlnum);
  }

  // ---------------------------------------------------------------------------
  // Duplicate removal
  // ---------------------------------------------------------------------------

  /** `(network_name, username, str(url))`. */
  datatype ProfileKey = ProfileKey(networkName: string, username: string, url: string)

  function KeyOf(p: SocialProfile): ProfileKey {
    ProfileKey(p.networkName, p.username, p.url)
  }

  function KeysOf(ps: seq<SocialProfile>): set<ProfileKey> {
    set i | 0 <= i < |ps| :: KeyOf(ps[i])
  }

  predicate DistinctKeys(ps: seq<SocialProfile>) {
    forall i, j :: 0 <= i < j < |ps| ==> KeyOf(ps[i]) != KeyOf(ps[j])
  }

  lemma KeysOfAppend(ps: seq<SocialProfile>, p: SocialProfile)
    ensures KeysOf(ps + [p]) == KeysOf(ps) + {KeyOf(p)}
  {
    var qs := ps + [p];
    forall k | k in KeysOf(qs) ensures k in KeysOf(ps) + {KeyOf(p)} {
      var i :| 0 <= i < |qs| && KeyOf(qs[i]) == k;
      if i < |ps| { assert qs[i] == ps[i]; }
    }
    forall k | k in KeysOf(ps) ensures k in KeysOf(qs) {
      var i :| 0 <= i < |ps| && KeyOf(ps[i]) == k;
      assert qs[i] == ps[i];
    }
    assert qs[|ps|] == p;
  }

  /** The profiles that survive duplicate removal: the first one of each key, in
      input order. */
  function Dedupe(ps: seq<SocialProfile>): seq<SocialProfile>
    decreases |ps|
  {
    if ps == [] then []
    else
      var d := Dedupe(ps[..|ps| - 1]);
      var p := ps[|ps| - 1];
      if KeyOf(p) in KeysOf(d) then d else d + [p]
  }

  /** The position of the first profile with key `k`. */
  function FirstIndex(ps: seq<SocialProfile>, k: ProfileKey): (r: nat)
    requires k in KeysOf(ps)
    ensures r < |ps| && KeyOf(ps[r]) == k
    ensures forall i :: 0 <= i < r ==> KeyOf(ps[i]) != k
    decreases |ps|
  {
    if KeyOf(ps[0]) == k then 0
    else
      assert k in KeysOf(ps[1..]) by {
        var i :| 0 <= i < |ps| && KeyOf(ps[i]) == k;
        assert ps[1..][i - 1] == ps[i];
      }
      1 + FirstIndex(ps[1..], k)
  }

  lemma FirstIndexIs(ps: seq<SocialProfile>, k: ProfileKey, i: nat)
    requires i < |ps| && KeyOf(ps[i]) == k
    requires forall j :: 0 <= j < i ==> KeyOf(ps[j]) != k
    ensures k in KeysOf(ps) && FirstIndex(ps, k) == i
  {
  }

  /** Appending a profile does not move the first occurrence of a key already
      present. */
  lemma FirstIndexAppend(ps: seq<SocialProfile>, p: SocialProfile, k: ProfileKey)
    requires k in KeysOf(ps)
    ensures k in KeysOf(ps + [p]) && FirstIndex(ps + [p], k) == FirstIndex(ps, k)
  {
    var i := FirstIndex(ps, k);
    assert (ps + [p])[i] == ps[i];
    FirstIndexIs(ps + [p], k, i);
  }

  /** No two surviving profiles share a key, and every key of the input
      survives. */
  lemma {:induction false} DedupeKeys(ps: seq<SocialProfile>)
    ensures DistinctKeys(Dedupe(ps))
    ensures KeysOf(Dedupe(ps)) == KeysOf(ps)
    decreases |ps|
  {
    if ps != [] {
      var q := ps[..|ps| - 1];
      var p := ps[|ps| - 1];
      DedupeKeys(q);
      assert ps == q + [p];
      KeysOfAppend(q, p);
      var d := Dedupe(q);
      if KeyOf(p) !in KeysOf(d) {
        KeysOfAppend(d, p);
        forall i | 0 <= i < |d| ensures KeyOf(d[i]) != KeyOf(p) {
          assert KeyOf(d[i]) in KeysOf(d);
        }
        assert forall i :: 0 <= i < |d| ==> (d + [p])[i] == d[i];
      }
    }
  }

  /** Each profile of `r` is the first one of its key in `ps`. */
  predicate AreFirstOccurrences(ps: seq<SocialProfile>, r: seq<SocialProfile>) {
    forall j :: 0 <= j < |r| ==>
      KeyOf(r[j]) in KeysOf(ps) && r[j] == ps[FirstIndex(ps, KeyOf(r[j]))]
  }

  /** The profiles of `r` come in the order of their first occurrences in `ps`. */
  predicate InFirstOccurrenceOrder(ps: seq<SocialProfile>, r: seq<SocialProfile>) {
    forall j1, j2 :: 0 <= j1 < j2 < |r| ==>
      KeyOf(r[j1]) in KeysOf(ps) && KeyOf(r[j2]) in KeysOf(ps) &&
      FirstIndex(ps, KeyOf(r[j1])) < FirstIndex(ps, KeyOf(r[j2]))
  }

  /** The output is the input with later duplicates deleted: each surviving
      profile is the first one of its key, and the survivors keep input order. */
  lemma {:induction false} DedupeFirstOccurrence(ps: seq<SocialProfile>)
    ensures AreFirstOccurrences(ps, Dedupe(ps))
    ensures InFirstOccurrenceOrder(ps, Dedupe(ps))
    decreases |ps|
  {
    if ps != [] {
      var q := ps[..|ps| - 1];
      var p := ps[|ps| - 1];
      assert ps == q + [p];
      DedupeFirstOccurrence(q);
      DedupeKeys(q);
      var d := Dedupe(q);
      SurvivorsStayFirst(q, p, d);
      if KeyOf(p) !in KeysOf(d) {
        NewKeyFirstAtEnd(q, p);
        assert p == ps[|q|];
        AppendNewKeyFirst(ps, p, d);
        AppendNewKeyOrder(ps, p, d, |q|);
      }
    }
  }

  /** Appending a profile keeps earlier first occurrences first, in order. */
  lemma SurvivorsStayFirst(q: seq<SocialProfile>, p: SocialProfile, d: seq<SocialProfile>)
    requires AreFirstOccurrences(q, d) && InFirstOccurrenceOrder(q, d)
    ensures AreFirstOccurrences(q + [p], d) && InFirstOccurrenceOrder(q + [p], d)
    ensures forall j :: 0 <= j < |d| ==> FirstIndex(q + [p], KeyOf(d[j])) < |q|
  {
    var ps := q + [p];
    forall j | 0 <= j < |d|
      ensures KeyOf(d[j]) in KeysOf(ps) && FirstIndex(ps, KeyOf(d[j])) == FirstIndex(q, KeyOf(d[j]))
      ensures d[j] == ps[FirstIndex(ps, KeyOf(d[j]))]
    {
      FirstIndexAppend(q, p, KeyOf(d[j]));
      assert ps[FirstIndex(q, KeyOf(d[j]))] == q[FirstIndex(q, KeyOf(d[j]))];
    }
  }

  /** A profile with a key new to `q` is the first of its key in `q + [p]`. */
  lemma NewKeyFirstAtEnd(q: seq<SocialProfile>, p: SocialProfile)
    requires KeyOf(p) !in KeysOf(q)
    ensures KeyOf(p) in KeysOf(q + [p]) && FirstIndex(q + [p], KeyOf(p)) == |q|
  {
    var ps := q + [p];
    assert ps[|q|] == p;
    forall j | 0 <= j < |q| ensures KeyOf(ps[j]) != KeyOf(p) {
      assert ps[j] == q[j];
      assert KeyOf(q[j]) in KeysOf(q);
    }
    FirstIndexIs(ps, KeyOf(p), |q|);
  }

  /** Appending the first profile of a new key keeps the survivors first
      occurrences. */
  lemma AppendNewKeyFirst(ps: seq<SocialProfile>, p: SocialProfile, d: seq<SocialProfile>)
    requires AreFirstOccurrences(ps, d)
    requires KeyOf(p) in KeysOf(ps) && p == ps[FirstIndex(ps, KeyOf(p))]
    ensures AreFirstOccurrences(ps, d + [p])
  {
    var r := d + [p];
    forall j | 0 <= j < |r| ensures KeyOf(r[j]) in KeysOf(ps) && r[j] == ps[FirstIndex(ps, KeyOf(r[j]))] {
      if j < |d| {
        assert r[j] == d[j];
      }
    }
  }

  /** Appending a profile whose first occurrence comes after all the others
      keeps the survivors in order. */
  lemma AppendNewKeyOrder(ps: seq<SocialProfile>, p: SocialProfile, d: seq<SocialProfile>, n: nat)
    requires InFirstOccurrenceOrder(ps, d)
    requires forall j :: 0 <= j < |d| ==> KeyOf(d[j]) in KeysOf(ps) && FirstIndex(ps, KeyOf(d[j])) < n
    requires KeyOf(p) in KeysOf(ps) && FirstIndex(ps, KeyOf(p)) == n
    ensures InFirstOccurrenceOrder(ps, d + [p])
  {
    var r := d + [p];
    forall j1, j2 | 0 <= j1 < j2 < |r|
      ensures KeyOf(r[j1]) in KeysOf(ps) && KeyOf(r[j2]) in KeysOf(ps)
              && FirstIndex(ps, KeyOf(r[j1])) < FirstIndex(ps, KeyOf(r[j2]))
    {
      assert r[j1] == d[j1];
      if j2 < |d| {
        assert r[j2] == d[j2];
      }
    }
  }

  /** A list without duplicate keys passes through unchanged. */
  lemma {:induction false} DedupeOfDistinct(ps: seq<SocialProfile>)
    requires DistinctKeys(ps)
    ensures Dedupe(ps) == ps
    decreases |ps|
  {
    if ps != [] {
      var q := ps[..|ps| - 1];
      var p := ps[|ps| - 1];
      assert ps == q + [p];
      DedupeOfDistinct(q);
      assert KeyOf(p) !in KeysOf(q) by {
        forall i | 0 <= i < |q| ensures KeyOf(q[i]) != KeyOf(p) {
          assert ps[i] == q[i];
        }
      }
    }
  }

  /** Removing duplicates twice is removing them once. */
  lemma DedupeIdempotent(ps: seq<SocialProfile>)
    ensures Dedupe(Dedupe(ps)) == Dedupe(ps)
  {
    DedupeKeys(ps);
    DedupeOfDistinct(Dedupe(ps));
  }

  /** `dedupe_profiles(profiles)`. */
  method DedupeProfiles(profiles: seq<SocialProfile>) returns (deduped: seq<SocialProfile>)
    ensures deduped == Dedupe(profiles)
    ensures DistinctKeys(deduped)
    ensures KeysOf(deduped) == KeysOf(profiles)
  {
    var seen: set<ProfileKey> := {};
    deduped := [];
    for i := 0 to |profiles|
      invariant deduped == Dedupe(profiles[..i])
      invariant seen == KeysOf(deduped)
    {
      var key := KeyOf(profiles[i]);
      assert profiles[..i + 1][..i] == profiles[..i];
      if key in seen {
        continue;
      }
      KeysOfAppend(deduped, profiles[i]);
      seen := seen + {key};
      deduped := deduped + [profiles[i]];
    }
    assert profiles[..|profiles|] == profiles;
    DedupeKeys(profiles);
  }

  // ---------------------------------------------------------------------------
  // Strict mode
  // ---------------------------------------------------------------------------

  const STRICT_SHERLOCK_DENYLIST: set<string> := {"avizo", "fanpop", "hubski"}

  const STRICT_SUSPICIOUS_URL_PARTS: seq<string> := [
    "login", "sign_in", "consent", "privacy", "cookie", "redirect",
    "return_url=", "callbackurl=", "search?", "search/?",
    "vendor_not_found", "nastaveni-souhlasu"
  ]

  /** `str(metadata.get("final_url") or profile.url).lower()`. */
  function FinalUrl(p: SocialProfile): string {
    Lower(Str(Or(Get(p.metadata, "final_url"), VStr(p.url))))
  }

  predicate HasSuspiciousPart(url: string) {
    exists k :: 0 <= k < |STRICT_SUSPICIOUS_URL_PARTS| && Contains(url, STRICT_SUSPICIOUS_URL_PARTS[k])
  }

  /** A metadata value that is a string mentioning `needle` once lower-cased. */
  predicate Mentions(v: Value, needle: string) {
    v.VStr? && Contains(Lower(v.s), needle)
  }

  predicate FromSherlock(p: SocialProfile) {
    Get(p.metadata, "source") == VStr("sherlock")
  }

  /** `_strict_keep_profile(profile=p, username=username)`. */
  predicate StrictKeepProfile(p: SocialProfile, username: string) {
    if !p.existe then false
    else if !FromSherlock(p) then true
    else if p.networkName in STRICT_SHERLOCK_DENYLIST then false
    else if HasSuspiciousPart(FinalUrl(p)) then false
    else
      var needle := Lower(username);
      Contains(FinalUrl(p), needle)
      || Mentions(Get(p.metadata, "title"), needle)
      || Mentions(Get(p.metadata, "meta_description"), needle)
  }

  /** Missing profiles are always dropped; existing profiles from any source but
      Sherlock are always kept; a Sherlock hit is kept exactly when its network
      is not deny-listed, its final URL has no suspicious part, and the
      username shows up in the final URL, the title or the meta description. */
  lemma StrictKeepRules(p: SocialProfile, username: string)
    ensures !p.existe ==> !StrictKeepProfile(p, username)
    ensures p.existe && !FromSherlock(p) ==> StrictKeepProfile(p, username)
    ensures p.existe && FromSherlock(p) ==>
      (StrictKeepProfile(p, username) <==>
        && p.networkName !in STRICT_SHERLOCK_DENYLIST
        && !HasSuspiciousPart(FinalUrl(p))
        && (Contains(FinalUrl(p), Lower(username))
            || Mentions(Get(p.metadata, "title"), Lower(username))
            || Mentions(Get(p.metadata, "meta_description"), Lower(username))))
  {
  }

  /** The username is compared case-insensitively. */
  lemma StrictKeepIgnoresCase(p: SocialProfile, username: string)
    ensures StrictKeepProfile(p, Lower(username)) == StrictKeepProfile(p, username)
  {
    LowerIdempotent(username);
  }

  predicate KeptByAny(p: SocialProfile, usernames: seq<string>) {
    exists k :: 0 <= k < |usernames| && StrictKeepProfile(p, usernames[k])
  }

  function KeepFor(usernames: seq<string>): SocialProfile -> bool {
    p => KeptByAny(p, usernames)
  }

  /** `[p for p in profiles if any(_strict_keep_profile(p, u) for u in usernames)]`:
      it never adds a profile, keeps the order, and keeps exactly the profiles
      some username vouches for, all of which exist. */
  function StrictFilter(profiles: seq<SocialProfile>, usernames: seq<string>): (r: seq<SocialProfile>)
    ensures IsSubsequence(r, profiles)
    ensures forall p :: p in r <==> p in profiles && KeptByAny(p, usernames)
    ensures forall i :: 0 <= i < |r| ==> r[i].existe
  {
    FilterIsSubsequence(profiles, KeepFor(usernames));
    var r := Filter(profiles, KeepFor(usernames));
    assert forall i :: 0 <= i < |r| ==> r[i] in r;
    r
  }

  lemma StrictFilterIdempotent(profiles: seq<SocialProfile>, usernames: seq<string>)
    ensures StrictFilter(StrictFilter(profiles, usernames), usernames) == StrictFilter(profiles, usernames)
  {
    FilterIdempotent(profiles, KeepFor(usernames));
  }

  /** The strict stage of `hunt`, which only runs when strict mode is on and
      there is at least one username. */
  function StrictStage(profiles: seq<SocialProfile>, strict: bool, usernames: seq<string>): (r: seq<SocialProfile>)
    ensures !strict || usernames == [] ==> r == profiles
    ensures strict && usernames != [] ==> r == StrictFilter(profiles, usernames)
  {
    if strict && usernames != [] then StrictFilter(profiles, usernames) else profiles
  }

  /** Filtering keeps a list free of duplicate keys. */
  lemma {:induction false} FilterKeepsDistinctKeys(ps: seq<SocialProfile>, f: SocialProfile -> bool)
    requires DistinctKeys(ps)
    ensures DistinctKeys(Filter(ps, f))
    decreases |ps|
  {
    if ps != [] {
      var tail := ps[1..];
      assert DistinctKeys(tail) by {
        forall i, j | 0 <= i < j < |tail| ensures KeyOf(tail[i]) != KeyOf(tail[j]) {
          assert tail[i] == ps[i + 1] && tail[j] == ps[j + 1];
        }
      }
      FilterKeepsDistinctKeys(tail, f);
      var rest := Filter(tail, f);
      if f(ps[0]) {
        forall j | 0 <= j < |rest| ensures KeyOf(rest[j]) != KeyOf(ps[0]) {
          assert rest[j] in tail;
          var m :| 0 <= m < |tail| && tail[m] == rest[j];
          assert ps[m + 1] == tail[m];
        }
        var r := [ps[0]] + rest;
        forall i, j | 0 <= i < j < |r| ensures KeyOf(r[i]) != KeyOf(r[j]) {
          if i > 0 { assert r[i] == rest[i - 1] && r[j] == rest[j - 1]; }
          else { assert r[j] == rest[j - 1]; }
        }
      }
    }
  }

  // ---------------------------------------------------------------------------
  // The exception-proof scan wrapper
  // ---------------------------------------------------------------------------

  /** A scanner, known by its class name. */
  datatype Scanner = Scanner(className: string)

  /** What `await scanner.scan(value)` did: returned profiles (a single profile
      stands for a one-element list) or raised an exception with this `str()`. */
  datatype ScanOutcome = Returned(profiles: seq<SocialProfile>) | Raised(message: string)

  type ScanOracle = (Scanner, string) -> ScanOutcome

  const USERNAME_SCANNERS: seq<Scanner> := [
    Scanner("GitHubScanner"), Scanner("GitHubGistScanner"), Scanner("GitLabScanner"),
    Scanner("KeybaseScanner"), Scanner("DevToScanner"), Scanner("MediumScanner"),
    Scanner("NpmScanner"), Scanner("ProductHuntScanner"), Scanner("RedditScanner"),
    Scanner("TwitchScanner"), Scanner("TelegramScanner"), Scanner("AboutMeScanner"),
    Scanner("PinterestScanner"), Scanner("SoundCloudScanner"), Scanner("KaggleScanner"),
    Scanner("DribbbleScanner"), Scanner("BehanceScanner"), Scanner("XScanner")
  ]

  const EMAIL_SCANNERS: seq<Scanner> := [
    Scanner("GravatarScanner"), Scanner("GravatarProfileScanner"),
    Scanner("OpenPGPKeysScanner"), Scanner("UbuntuKeyserverScanner")
  ]

  /** `name.removesuffix("Scanner").lower()`. */
  function ScannerNetwork(s: Scanner): string {
    Lower(RemoveSuffix(s.className, "Scanner"))
  }

  /** The URL recorded for a failed scan. */
  function FallbackUrl(network: string, value: string): string {
    if network == "x" then "https://x.com/" + value
    else "https://" + network + ".com/" + value
  }

  /** The special case for `x` spells out what the general rule already gives. */
  lemma FallbackUrlUniform(network: string, value: string)
    ensures FallbackUrl(network, value) == "https://" + network + ".com/" + value
  {
  }

  const X_PLACEHOLDER: string := "example.invalid/x/"

  /** The metadata with `derived_from` added when a non-empty origin is given. */
  function WithOrigin(md: Metadata, derivedFrom: Option<string>): (r: Metadata)
    ensures "derived_from" in r <==> "derived_from" in md || (derivedFrom.Some? && derivedFrom.value != "")
    ensures derivedFrom.Some? && derivedFrom.value != "" ==> r["derived_from"] == VStr(derivedFrom.value)
    ensures forall k :: k in md && k != "derived_from" ==> k in r && r[k] == md[k]
    ensures forall k :: k in r && k != "derived_from" ==> k in md
  {
    if derivedFrom.Some? && derivedFrom.value != "" then md["derived_from" := VStr(derivedFrom.value)] else md
  }

  /** A returned profile after the wrapper's touch-ups. */
  function Retouched(p: SocialProfile, derivedFrom: Option<string>): SocialProfile {
    p.(metadata := WithOrigin(p.metadata, derivedFrom),
       url := if Contains(p.url, X_PLACEHOLDER) then ReplaceAll(p.url, X_PLACEHOLDER, "x.com/") else p.url)
  }

  /** `safe_scan(scanner, value, derived_from=...)`. A scanner's exception
      becomes a single missing profile; that profile is itself validated, so a
      value that is not a valid username turns the exception into a
      validation error that escapes the wrapper. */
  function SafeScan(scan: ScanOracle, scanner: Scanner, value: string, derivedFrom: Option<string>)
    : (r: Result<seq<SocialProfile>, ValidationError>)
    ensures scan(scanner, value).Returned? ==>
      && r.Ok? && |r.value| == |scan(scanner, value).profiles|
      && forall i :: 0 <= i < |r.value| ==>
           var q := scan(scanner, value).profiles[i];
           && r.value[i].username == q.username && r.value[i].networkName == q.networkName
           && r.value[i].existe == q.existe && r.value[i].bio == q.bio
           && r.value[i].imagenUrl == q.imagenUrl
           && r.value[i].metadata == WithOrigin(q.metadata, derivedFrom)
           && (!Contains(q.url, X_PLACEHOLDER) ==> r.value[i].url == q.url)
           && (Contains(q.url, X_PLACEHOLDER) ==> r.value[i].url == ReplaceAll(q.url, X_PLACEHOLDER, "x.com/"))
    ensures scan(scanner, value).Raised? ==>
      (r.Ok? <==> ValidUsername(value) && ValidNetworkName(ScannerNetwork(scanner)))
    ensures scan(scanner, value).Raised? && r.Ok? ==>
      && |r.value| == 1
      && var p := r.value[0];
      && !p.existe && p.username == value && p.networkName == ScannerNetwork(scanner)
      && p.url == "https://" + ScannerNetwork(scanner) + ".com/" + value
      && "error" in p.metadata && p.metadata["error"] == VStr(scan(scanner, value).message)
      && "scanner" in p.metadata && p.metadata["scanner"] == VStr(scanner.className)
      && ("derived_from" in p.metadata <==> derivedFrom.Some? && derivedFrom.value != "")
  {
    match scan(scanner, value)
    case Returned(ps) =>
      Ok(seq(|ps|, i requires 0 <= i < |ps| => Retouched(ps[i], derivedFrom)))
    case Raised(message) =>
      var network := ScannerNetwork(scanner);
      var md := WithOrigin(map["error" := VStr(message), "scanner" := VStr(scanner.className)], derivedFrom);
      match NewSocialProfile(FallbackUrl(network, value), value, network, false, md)
      case Ok(p) => Ok([p])
      case Err(e) => Err(e)
  }

  /** The wrapper fails exactly when the scanner raises and the value or the
      network name is not acceptable in a profile. */
  lemma SafeScanFails(scan: ScanOracle, scanner: Scanner, value: string, derivedFrom: Option<string>)
    ensures SafeScan(scan, scanner, value, derivedFrom).Err? <==>
      scan(scanner, value).Raised? && !(ValidUsername(value) && ValidNetworkName(ScannerNetwork(scanner)))
  {
  }

  /** The scans of one value by each scanner in turn, concatenated; the first
      failure aborts the whole batch as `gather` does. */
  function ScanValue(scan: ScanOracle, scanners: seq<Scanner>, value: string, derivedFrom: Option<string>)
    : Result<seq<SocialProfile>, ValidationError>
    decreases |scanners|
  {
    if scanners == [] then Ok([])
    else match SafeScan(scan, scanners[0], value, derivedFrom)
      case Err(e) => Err(e)
      case Ok(ps) =>
        match ScanValue(scan, scanners[1..], value, derivedFrom)
        case Err(e) => Err(e)
        case Ok(rest) => Ok(ps + rest)
  }

  /** `[safe_scan(s, v) for v in values for s in scanners]`, gathered and
      flattened. */
  function ScanAll(scan: ScanOracle, scanners: seq<Scanner>, values: seq<string>, derivedFrom: Option<string>)
    : Result<seq<SocialProfile>, ValidationError>
    decreases |values|
  {
    if values == [] then Ok([])
    else match ScanValue(scan, scanners, values[0], derivedFrom)
      case Err(e) => Err(e)
      case Ok(ps) =>
        match ScanAll(scan, scanners, values[1..], derivedFrom)
        case Err(e) => Err(e)
        case Ok(rest) => Ok(ps + rest)
  }

  /** A batch fails exactly when one of its scans fails. */
  lemma {:induction false} ScanValueFails(scan: ScanOracle, scanners: seq<Scanner>, value: string, derivedFrom: Option<string>)
    ensures ScanValue(scan, scanners, value, derivedFrom).Err? <==>
      exists k :: 0 <= k < |scanners| && SafeScan(scan, scanners[k], value, derivedFrom).Err?
    decreases |scanners|
  {
    if scanners != [] {
      ScanValueFails(scan, scanners[1..], value, derivedFrom);
      if SafeScan(scan, scanners[0], value, derivedFrom).Ok? {
        if exists k :: 0 <= k < |scanners| && SafeScan(scan, scanners[k], value, derivedFrom).Err? {
          var k :| 0 <= k < |scanners| && SafeScan(scan, scanners[k], value, derivedFrom).Err?;
          assert scanners[1..][k - 1] == scanners[k];
        }
        forall k | 0 <= k < |scanners[1..]| && SafeScan(scan, scanners[1..][k], value, derivedFrom).Err?
          ensures exists k :: 0 <= k < |scanners| && SafeScan(scan, scanners[k], value, derivedFrom).Err?
        {
          assert scanners[1..][k] == scanners[k + 1];
        }
      }
    }
  }

  // ---------------------------------------------------------------------------
  // Identities harvested from metadata
  // ---------------------------------------------------------------------------

  const EMAIL_KEYS: seq<string> := ["other_emails", "emails", "email"]
  const USERNAME_KEYS: seq<string> := ["other_users", "usernames"]
  const WEBSITE_KEYS: seq<string> := ["other_websites", "websites", "website"]

  /** A string value, or the strings of a list value. */
  function StringsOf(v: Value): set<string> {
    match v
    case VStr(s) => {s}
    case VList(items) => StringItems(items)
    case _ => {}
  }

  /** Like `StringsOf`, but leaving out strings that start with `http`. */
  function NonUrlStringsOf(v: Value): (r: set<string>)
    ensures forall s :: s in r ==> !StartsWith(s, "http")
  {
    match v
    case VStr(s) => if StartsWith(s, "http") then {} else {s}
    case VList(items) => set s | s in StringItems(items) && !StartsWith(s, "http")
    case _ => {}
  }

  /** The strings `pick` finds under each of `keys`. */
  function Harvest(md: Metadata, keys: seq<string>, pick: Value -> set<string>): set<string>
    decreases |keys|
  {
    if keys == [] then {}
    else Harvest(md, keys[..|keys| - 1], pick) + pick(Get(md, keys[|keys| - 1]))
  }

  /** The raw email candidates of a list of profiles. */
  function RawEmails(ps: seq<SocialProfile>): set<string>
    decreases |ps|
  {
    if ps == [] then {}
    else RawEmails(ps[..|ps| - 1]) + Harvest(ps[|ps| - 1].metadata, EMAIL_KEYS, StringsOf)
  }

  function UsernameCandidates(md: Metadata): set<string> {
    Harvest(md, USERNAME_KEYS, StringsOf) + Harvest(md, WEBSITE_KEYS, NonUrlStringsOf)
  }

  /** The raw username candidates of a list of profiles. */
  function RawUsernames(ps: seq<SocialProfile>): set<string>
    decreases |ps|
  {
    if ps == [] then {}
    else RawUsernames(ps[..|ps| - 1]) + UsernameCandidates(ps[|ps| - 1].metadata)
  }

  /** `{e.strip().lower() for e in raw if e and "@" in e}`. */
  function CleanEmails(raw: set<string>): set<string> {
    set e | e in raw && e != "" && Contains(e, "@") :: Lower(Strip(e))
  }

  /** `{u.strip() for u in raw if u.strip()}`. */
  function CleanUsernames(raw: set<string>): set<string> {
    set u | u in raw && Strip(u) != "" :: Strip(u)
  }

  function ExtraEmails(ps: seq<SocialProfile>): set<string> { CleanEmails(RawEmails(ps)) }

  function ExtraUsernames(ps: seq<SocialProfile>): set<string> { CleanUsernames(RawUsernames(ps)) }

  /** A stripped, lower-cased string stays so under stripping and lower-casing. */
  lemma LowerStripNormal(e: string)
    ensures Strip(Lower(Strip(e))) == Lower(Strip(e))
    ensures Lower(Lower(Strip(e))) == Lower(Strip(e))
  {
    LowerStripCommute(Strip(e));
    StripIdempotent(e);
    LowerIdempotent(Strip(e));
  }

  /** Harvested emails contain `@` and are stripped and lower-case. */
  lemma ExtraEmailsNormal(ps: seq<SocialProfile>)
    ensures forall e :: e in ExtraEmails(ps) ==> Contains(e, "@") && Strip(e) == e && Lower(e) == e
  {
    forall e | e in ExtraEmails(ps) ensures Contains(e, "@") && Strip(e) == e && Lower(e) == e {
      var raw :| raw in RawEmails(ps) && raw != "" && Contains(raw, "@") && e == Lower(Strip(raw));
      StripLowerKeepsChar(raw, '@');
      LowerStripNormal(raw);
    }
  }

  /** Harvested usernames are non-empty and stripped. */
  lemma ExtraUsernamesNormal(ps: seq<SocialProfile>)
    ensures forall u :: u in ExtraUsernames(ps) ==> u != "" && Strip(u) == u
  {
    forall u | u in ExtraUsernames(ps) ensures u != "" && Strip(u) == u {
      var raw :| raw in RawUsernames(ps) && Strip(raw) != "" && u == Strip(raw);
      StripIdempotent(raw);
    }
  }

  /** A website value that starts with `http` is never a username candidate. */
  lemma {:induction false} WebsitesSkipUrls(md: Metadata, keys: seq<string>)
    ensures forall s :: s in Harvest(md, keys, NonUrlStringsOf) ==> !StartsWith(s, "http")
    decreases |keys|
  {
    if keys != [] {
      WebsitesSkipUrls(md, keys[..|keys| - 1]);
    }
  }

  /** The `http` test is made before stripping, so a website written with
      leading whitespace in front of the scheme still ends up as a username. */
  lemma PaddedWebsiteBecomesUsername(p: SocialProfile)
    requires p.metadata == map["website" := VStr(" http://a")]
    ensures "http://a" in ExtraUsernames([p])
  {
    var md := p.metadata;
    var w := " http://a";
    assert !StartsWith(w, "http") by { assert w[0] == ' '; }
    assert w in Harvest(md, WEBSITE_KEYS, NonUrlStringsOf) by {
      assert WEBSITE_KEYS[..|WEBSITE_KEYS| - 1] == ["other_websites", "websites"];
    }
    assert [p][..0] == [];
    assert w in RawUsernames([p]);
    assert SkipForward(w, 0, IsSpace) == 1 by { assert IsSpace(w[0]) && !IsSpace(w[1]); }
    assert SkipBackward(w, 9, 1, IsSpace) == 9 by { assert !IsSpace(w[8]); }
    assert Strip(w) == "http://a";
  }

  /** The loop over `keys` that adds a string value, or the strings of a list
      value, found under each key. */
  method AddStrings(md: Metadata, keys: seq<string>, acc: set<string>) returns (r: set<string>)
    ensures r == acc + Harvest(md, keys, StringsOf)
  {
    r := acc;
    for k := 0 to |keys|
      invariant r == acc + Harvest(md, keys[..k], StringsOf)
    {
      assert keys[..k + 1][..k] == keys[..k];
      var val := Get(md, keys[k]);
      if val.VStr? {
        r := r + {val.s};
      } else if val.VList? {
        r := r + StringItems(val.items);
      }
    }
    assert keys[..|keys|] == keys;
  }

  /** The inner loop over a list of websites. */
  method AddNonUrlItems(items: seq<Value>, acc: set<string>) returns (r: set<string>)
    ensures r == acc + NonUrlStringsOf(VList(items))
  {
    r := acc;
    for j := 0 to |items|
      invariant r == acc + set s | s in StringItems(items[..j]) && !StartsWith(s, "http")
    {
      assert items[..j + 1] == items[..j] + [items[j]];
      var v := items[j];
      if v.VStr? && !StartsWith(v.s, "http") {
        r := r + {v.s};
      }
    }
    assert items[..|items|] == items;
  }

  /** The loop over the website keys. */
  method AddWebsites(md: Metadata, acc: set<string>) returns (r: set<string>)
    ensures r == acc + Harvest(md, WEBSITE_KEYS, NonUrlStringsOf)
  {
    r := acc;
    for k := 0 to |WEBSITE_KEYS|
      invariant r == acc + Harvest(md, WEBSITE_KEYS[..k], NonUrlStringsOf)
    {
      assert WEBSITE_KEYS[..k + 1][..k] == WEBSITE_KEYS[..k];
      var val := Get(md, WEBSITE_KEYS[k]);
      if val.VStr? && !StartsWith(val.s, "http") {
        r := r + {val.s};
      } else if val.VList? {
        r := AddNonUrlItems(val.items, r);
      }
    }
    assert WEBSITE_KEYS[..|WEBSITE_KEYS|] == WEBSITE_KEYS;
  }

  /** `extract_extras(perfiles)`. */
  method ExtractExtras(perfiles: seq<SocialProfile>) returns (usernames: set<string>, emails: set<string>)
    ensures usernames == ExtraUsernames(perfiles)
    ensures emails == ExtraEmails(perfiles)
  {
    var extraU: set<string> := {};
    var extraE: set<string> := {};
    for i := 0 to |perfiles|
      invariant extraE == RawEmails(perfiles[..i])
      invariant extraU == RawUsernames(perfiles[..i])
    {
      assert perfiles[..i + 1][..i] == perfiles[..i];
      var md := perfiles[i].metadata;
      extraE := AddStrings(md, EMAIL_KEYS, extraE);
      extraU := AddStrings(md, USERNAME_KEYS, extraU);
      extraU := AddWebsites(md, extraU);
    }
    assert perfiles[..|perfiles|] == perfiles;
    emails := set e | e in extraE && e != "" && Contains(e, "@") :: Lower(Strip(e));
    usernames := set u | u in extraU && Strip(u) != "" :: Strip(u);
  }

  // ---------------------------------------------------------------------------
  // The hunt
  // ---------------------------------------------------------------------------

  /** The input sets of `hunt`: `{u.strip() for u in usernames if u.strip()}`. */
  function NormalisedUsernames(xs: seq<string>): (r: set<string>)
    ensures forall u :: u in r ==> u != "" && Strip(u) == u
    ensures forall i :: 0 <= i < |xs| && Strip(xs[i]) != "" ==> Strip(xs[i]) in r
  {
    var r := set u | u in xs && Strip(u) != "" :: Strip(u);
    forall u | u in r ensures u != "" && Strip(u) == u {
      var x :| x in xs && Strip(x) != "" && u == Strip(x);
      StripIdempotent(x);
    }
    assert forall i :: 0 <= i < |xs| ==> xs[i] in xs;
    r
  }

  /** `{e.strip().lower() for e in emails if e.strip()}`. */
  function NormalisedEmails(xs: seq<string>): (r: set<string>)
    ensures forall e :: e in r ==> e != "" && Strip(e) == e && Lower(e) == e
    ensures forall i :: 0 <= i < |xs| && Strip(xs[i]) != "" ==> Lower(Strip(xs[i])) in r
  {
    var r := set e | e in xs && Strip(e) != "" :: Lower(Strip(e));
    forall e | e in r ensures e != "" && Strip(e) == e && Lower(e) == e {
      var x :| x in xs && Strip(x) != "" && e == Lower(Strip(x));
      LowerStripNormal(x);
    }
    assert forall i :: 0 <= i < |xs| ==> xs[i] in xs;
    r
  }

  /** The options of a hunt (the site-list paths, concurrency and category
      filters are folded into the engines below). */
  datatype HuntRequest = HuntRequest(
    usernames: Option<seq<string>>,
    emails: Option<seq<string>>,
    scanLocalpart: bool,
    siteListsEnabled: bool,
    useSherlock: bool,
    strict: bool)

  /** The fields HTML enrichment may set on a profile. */
  datatype Enrichment = Enrichment(metadata: Metadata, bio: Option<string>, imagenUrl: Option<string>)

  /** The outside world of a hunt. A site-list engine is `None` when its list
      file is not configured or missing. */
  datatype Engines = Engines(
    scan: ScanOracle,
    usernameSites: Option<seq<string> -> seq<SocialProfile>>,
    emailSites: Option<seq<string> -> seq<SocialProfile>>,
    sherlock: seq<string> -> seq<SocialProfile>,
    enrich: SocialProfile -> Enrichment)

  datatype PipelineResult = PipelineResult(
    person: PersonEntity,
    usernames: seq<string>,
    emails: seq<string>,
    warnings: seq<string>)

  /** Why a hunt ends without a result: a scan wrapper's fallback profile or the
      person entity failed validation, or the discovery loop did not settle
      within the given number of rounds. */
  datatype HuntError = ScanRejected(error: ValidationError) | TargetRejected(error: ValidationError) | OutOfRounds

  const USERNAME_SITES_MISSING: string := "Site-lists for usernames not configured (missing path)."
  const EMAIL_SITES_MISSING: string := "Site-lists for emails not configured (missing path)."

  /** The site-list stage: the profiles it adds and the warnings it records. */
  function SiteListStage(request: HuntRequest, engines: Engines, us: seq<string>, es: seq<string>)
    : (r: (seq<SocialProfile>, seq<string>))
    ensures !request.siteListsEnabled ==> r == ([], [])
    ensures |r.1| <= 2
    ensures USERNAME_SITES_MISSING in r.1 <==>
      request.siteListsEnabled && us != [] && engines.usernameSites.None?
    ensures EMAIL_SITES_MISSING in r.1 <==>
      request.siteListsEnabled && es != [] && engines.emailSites.None?
    ensures request.siteListsEnabled && us != [] && engines.usernameSites.Some? ==>
      engines.usernameSites.value(us) <= r.0
  {
    if !request.siteListsEnabled then ([], [])
    else
      var (up, uw) :=
        if us == [] then ([], [])
        else match engines.usernameSites
          case None => ([], [USERNAME_SITES_MISSING])
          case Some(run) => (run(us), []);
      var (ep, ew) :=
        if es == [] then ([], [])
        else match engines.emailSites
          case None => ([], [EMAIL_SITES_MISSING])
          case Some(run) => (run(es), []);
      (up + ep, uw + ew)
  }

  function Enriched(p: SocialProfile, e: Enrichment): SocialProfile {
    p.(metadata := e.metadata, bio := e.bio, imagenUrl := e.imagenUrl)
  }

  /** `"/".join(target_parts) or "target"`. */
  function TargetLabel(us: seq<string>, es: seq<string>): (r: string)
    ensures r != ""
  {
    var parts := (if us == [] then [] else [Join("/", us)]) + (if es == [] then [] else [Join("/", es)]);
    var joined := Join("/", parts);
    if joined == "" then "target" else joined
  }

  /** With both kinds of identity present, the label lists all of them,
      usernames first, separated by `/`. */
  lemma TargetLabelJoinsAll(us: seq<string>, es: seq<string>)
    requires us != [] && es != []
    ensures TargetLabel(us, es) == Join("/", us + es)
  {
    JoinSplit("/", us, es);
    var parts := [Join("/", us), Join("/", es)];
    assert parts[1..] == [Join("/", es)];
    assert Join("/", parts) == Join("/", us) + "/" + Join("/", es);
  }

  /** The profiles collected after the loop: the loop's, then the site lists',
      then Sherlock's. */
  function Collected(request: HuntRequest, engines: Engines, profiles: seq<SocialProfile>,
                     us: seq<string>, es: seq<string>): seq<SocialProfile>
  {
    profiles + SiteListStage(request, engines, us, es).0
    + (if request.useSherlock && us != [] then engines.sherlock(us) else [])
  }

  /** The profiles that survive duplicate removal and strict mode. */
  function Kept(request: HuntRequest, engines: Engines, profiles: seq<SocialProfile>,
                allUsernames: set<string>, allEmails: set<string>): seq<SocialProfile>
  {
    var us := SortedSet(allUsernames);
    StrictStage(Dedupe(Collected(request, engines, profiles, us, SortedSet(allEmails))), request.strict, us)
  }

  /** No two kept profiles share a key, and in strict mode with a username
      every kept profile exists. */
  lemma KeptShape(request: HuntRequest, engines: Engines, profiles: seq<SocialProfile>,
                  allUsernames: set<string>, allEmails: set<string>)
    ensures DistinctKeys(Kept(request, engines, profiles, allUsernames, allEmails))
    ensures request.strict && allUsernames != {} ==>
      forall i :: 0 <= i < |Kept(request, engines, profiles, allUsernames, allEmails)| ==>
        Kept(request, engines, profiles, allUsernames, allEmails)[i].existe
  {
    var us := SortedSet(allUsernames);
    var all := Collected(request, engines, profiles, us, SortedSet(allEmails));
    DedupeKeys(all);
    if request.strict && us != [] {
      FilterKeepsDistinctKeys(Dedupe(all), KeepFor(us));
    }
    if allUsernames != {} {
      var u :| u in allUsernames;
      assert u in us;
    }
  }

  /** Enrichment of every profile in place: it touches neither the key nor
      `existe` of any profile. */
  function EnrichAll(ps: seq<SocialProfile>, enrich: SocialProfile -> Enrichment): (r: seq<SocialProfile>)
    ensures |r| == |ps|
    ensures forall i :: 0 <= i < |ps| ==> KeyOf(r[i]) == KeyOf(ps[i]) && r[i].existe == ps[i].existe
    ensures DistinctKeys(ps) ==> DistinctKeys(r)
  {
    seq(|ps|, i requires 0 <= i < |ps| => Enriched(ps[i], enrich(ps[i])))
  }

  /** Everything `hunt` does after the discovery loop, from the loop's profiles
      and identity sets. */
  function Finish(request: HuntRequest, engines: Engines, profiles: seq<SocialProfile>,
                  allUsernames: set<string>, allEmails: set<string>): Result<PipelineResult, HuntError>
  {
    var enriched := EnrichAll(Kept(request, engines, profiles, allUsernames, allEmails), engines.enrich);
    var finalUs := SortedSet(allUsernames + ExtraUsernames(enriched));
    var finalEs := SortedSet(allEmails + ExtraEmails(enriched));
    var warnings := SiteListStage(request, engines, SortedSet(allUsernames), SortedSet(allEmails)).1;
    match NewPersonEntity(TargetLabel(finalUs, finalEs), enriched)
    case Err(e) => Err(TargetRejected(e))
    case Ok(person) => Ok(PipelineResult(person, finalUs, finalEs, warnings))
  }

  /** The report of a finished hunt holds no two profiles with one key; every
      identity of the loop is listed, in ascending order; in strict mode with a
      username every profile exists; and the target is a valid label. */
  lemma FinishShape(request: HuntRequest, engines: Engines, profiles: seq<SocialProfile>,
                    allUsernames: set<string>, allEmails: set<string>)
    requires Finish(request, engines, profiles, allUsernames, allEmails).Ok?
    ensures var r := Finish(request, engines, profiles, allUsernames, allEmails).value;
      && DistinctKeys(r.person.profiles)
      && StrictlySorted(r.usernames) && StrictlySorted(r.emails)
      && (forall u :: u in allUsernames ==> u in r.usernames)
      && (forall e :: e in allEmails ==> e in r.emails)
      && (request.strict && allUsernames != {} ==>
            forall i :: 0 <= i < |r.person.profiles| ==> r.person.profiles[i].existe)
      && ValidTarget(r.person.target)
  {
    KeptShape(request, engines, profiles, allUsernames, allEmails);
  }

  /** The post-loop part of `hunt`. */
  method FinishHunt(request: HuntRequest, engines: Engines, profiles: seq<SocialProfile>,
                    allUsernames: set<string>, allEmails: set<string>)
    returns (outcome: Result<PipelineResult, HuntError>)
    ensures outcome == Finish(request, engines, profiles, allUsernames, allEmails)
  {
    var us := SortedSet(allUsernames);
    var es := SortedSet(allEmails);
    var (siteProfiles, warnings) := SiteListStage(request, engines, us, es);
    var collected := profiles + siteProfiles;
    if request.useSherlock && us != [] {
      collected := collected + engines.sherlock(us);
    } else {
      assert collected + [] == collected;
    }
    var deduped := DedupeProfiles(collected);
    var kept := StrictStage(deduped, request.strict, us);
    var enriched := EnrichAll(kept, engines.enrich);
    var extraU, extraE := ExtractExtras(enriched);
    var finalUs := SortedSet(allUsernames + extraU);
    var finalEs := SortedSet(allEmails + extraE);
    match NewPersonEntity(TargetLabel(finalUs, finalEs), enriched) {
      case Err(e) =>
        outcome := Err(TargetRejected(e));
      case Ok(person) =>
        outcome := Ok(PipelineResult(person, finalUs, finalEs, warnings));
    }
  }

  /** `list(s)`: the elements of a set in some order. */
  method Enumerate(s: set<string>) returns (xs: seq<string>)
    ensures Distinct(xs)
    ensures forall x :: x in xs <==> x in s
  {
    xs := [];
    var rest := s;
    while rest != {}
      invariant Distinct(xs)
      invariant forall x :: x in xs <==> x in s && x !in rest
      invariant rest <= s
      decreases |rest|
    {
      var x :| x in rest;
      xs := xs + [x];
      rest := rest - {x};
    }
  }

  /** The variables the discovery loop updates. */
  datatype Discovery = Discovery(
    profiles: seq<SocialProfile>,
    allUsernames: set<string>,
    allEmails: set<string>,
    scannedUsernames: set<string>,
    scannedEmails: set<string>)

  /** Which `safe_scan` batch a value goes to: a username to the username
      scanners, an email to the email scanners, or an email's local part to
      the username scanners with `derived_from="email_localpart"`. */
  datatype ScanKind = UsernameScan | EmailScan | LocalpartScan

  /** One value handed to the scanners of its kind. */
  datatype ScanJob = ScanJob(kind: ScanKind, value: string)

  function KindScanners(kind: ScanKind): seq<Scanner> {
    if kind == EmailScan then EMAIL_SCANNERS else USERNAME_SCANNERS
  }

  function KindOrigin(kind: ScanKind): Option<string> {
    if kind == LocalpartScan then Some("email_localpart") else None
  }

  /** The jobs of a list of values of one kind. */
  function JobsOf(kind: ScanKind, values: seq<string>): (r: seq<ScanJob>)
    ensures |r| == |values|
    ensures forall i :: 0 <= i < |values| ==> r[i] == ScanJob(kind, values[i])
  {
    seq(|values|, i requires 0 <= i < |values| => ScanJob(kind, values[i]))
  }

  /** Two gathered batches one after the other: the first failure, or the
      profiles of both in order. */
  function Joined<T>(a: Result<seq<T>, ValidationError>, b: Result<seq<T>, ValidationError>)
    : Result<seq<T>, ValidationError>
  {
    if a.Err? then a else if b.Err? then b else Ok(a.value + b.value)
  }

  /** The profiles the jobs give, in order, or the first failure. */
  function RunJobs(scan: ScanOracle, jobs: seq<ScanJob>): Result<seq<SocialProfile>, ValidationError>
    decreases |jobs|
  {
    if jobs == [] then Ok([])
    else Joined(ScanValue(scan, KindScanners(jobs[0].kind), jobs[0].value, KindOrigin(jobs[0].kind)),
                RunJobs(scan, jobs[1..]))
  }

  /** No profiles joined in front change nothing. */
  lemma JoinedUnit<T>(r: Result<seq<T>, ValidationError>)
    ensures Joined(Ok([]), r) == r
  {
    if r.Ok? {
      assert [] + r.value == r.value;
    }
  }

  /** Joining is associative. */
  lemma JoinedAssoc<T>(a: Result<seq<T>, ValidationError>, b: Result<seq<T>, ValidationError>,
                       c: Result<seq<T>, ValidationError>)
    ensures Joined(a, Joined(b, c)) == Joined(Joined(a, b), c)
  {
    if a.Ok? && b.Ok? && c.Ok? {
      assert a.value + (b.value + c.value) == (a.value + b.value) + c.value;
    }
  }

  /** Running two lists of jobs one after the other is running their
      concatenation. */
  lemma {:induction false} RunJobsAppend(scan: ScanOracle, a: seq<ScanJob>, b: seq<ScanJob>)
    ensures RunJobs(scan, a + b) == Joined(RunJobs(scan, a), RunJobs(scan, b))
    decreases |a|
  {
    if a == [] {
      assert a + b == b;
      JoinedUnit(RunJobs(scan, b));
    } else {
      var first := ScanValue(scan, KindScanners(a[0].kind), a[0].value, KindOrigin(a[0].kind));
      assert (a + b)[0] == a[0];
      assert (a + b)[1..] == a[1..] + b;
      assert RunJobs(scan, a + b) == Joined(first, RunJobs(scan, a[1..] + b));
      assert RunJobs(scan, a) == Joined(first, RunJobs(scan, a[1..]));
      RunJobsAppend(scan, a[1..], b);
      JoinedAssoc(first, RunJobs(scan, a[1..]), RunJobs(scan, b));
    }
  }

  /** A batch of `ScanAll` is the run of its jobs. */
  lemma {:induction false} ScanAllJobs(scan: ScanOracle, kind: ScanKind, values: seq<string>)
    ensures ScanAll(scan, KindScanners(kind), values, KindOrigin(kind)) == RunJobs(scan, JobsOf(kind, values))
    decreases |values|
  {
    if values != [] {
      ScanAllJobs(scan, kind, values[1..]);
      assert JobsOf(kind, values)[1..] == JobsOf(kind, values[1..]);
    }
  }

  /** The values of the jobs of one kind, in order. */
  function ValuesOf(jobs: seq<ScanJob>, kind: ScanKind): seq<string>
    decreases |jobs|
  {
    if jobs == [] then []
    else (if jobs[0].kind == kind then [jobs[0].value] else []) + ValuesOf(jobs[1..], kind)
  }

  lemma {:induction false} ValuesOfAppend(a: seq<ScanJob>, b: seq<ScanJob>, kind: ScanKind)
    ensures ValuesOf(a + b, kind) == ValuesOf(a, kind) + ValuesOf(b, kind)
    decreases |a|
  {
    if a == [] {
      assert a + b == b;
    } else {
      assert (a + b)[0] == a[0];
      assert (a + b)[1..] == a[1..] + b;
      ValuesOfAppend(a[1..], b, kind);
    }
  }

  /** The jobs of one kind give back their values under that kind, and
      nothing under another. */
  lemma {:induction false} ValuesOfJobs(kind: ScanKind, values: seq<string>, k: ScanKind)
    ensures ValuesOf(JobsOf(kind, values), k) == if k == kind then values else []
    decreases |values|
  {
    if values != [] {
      assert JobsOf(kind, values)[1..] == JobsOf(kind, values[1..]);
      ValuesOfJobs(kind, values[1..], k);
      if k == kind {
        assert values == [values[0]] + values[1..];
      }
    }
  }

  /** The local parts of a set of emails. */
  function LocalpartSet(emails: set<string>): set<string> {
    set e | e in emails :: BeforeFirst(e, '@')
  }

  /** The candidates of a list of profiles are those of its two halves. */
  lemma {:induction false} RawAppend(a: seq<SocialProfile>, b: seq<SocialProfile>)
    ensures RawEmails(a + b) == RawEmails(a) + RawEmails(b)
    ensures RawUsernames(a + b) == RawUsernames(a) + RawUsernames(b)
    decreases |b|
  {
    if b == [] {
      assert a + b == a;
    } else {
      var b' := b[..|b| - 1];
      assert (a + b)[..|a + b| - 1] == a + b';
      assert (a + b)[|a + b| - 1] == b[|b| - 1];
      RawAppend(a, b');
    }
  }

  /** More profiles never take a harvested identity away. */
  lemma ExtrasGrow(a: seq<SocialProfile>, b: seq<SocialProfile>)
    ensures ExtraEmails(a) <= ExtraEmails(a + b)
    ensures ExtraUsernames(a) <= ExtraUsernames(a + b)
  {
    RawAppend(a, b);
  }

  /** The facts each round of the loop keeps: the scanned sets are part of the
      discovered ones, and each scanned value went to its scanner set exactly
      once. */
  ghost predicate ScansRecorded(d: Discovery, usernameScans: seq<string>, emailScans: seq<string>) {
    && d.scannedUsernames <= d.allUsernames && d.scannedEmails <= d.allEmails
    && (forall u :: u in d.scannedUsernames <==> u in usernameScans)
    && (forall e :: e in d.scannedEmails <==> e in emailScans)
    && Distinct(usernameScans) && Distinct(emailScans)
  }

  /** The loop's record of its scans: the jobs started give exactly the
      loop's profiles; each value marked scanned went to its scanners exactly
      once; and, with local-part scanning, the local part of each scanned
      email went to the username scanners, in the same order, and nothing
      else did. */
  ghost predicate JobsState(scanLocalpart: bool, engines: Engines, d: Discovery, jobs: seq<ScanJob>) {
    && RunJobs(engines.scan, jobs) == Ok(d.profiles)
    && ScansRecorded(d, ValuesOf(jobs, UsernameScan), ValuesOf(jobs, EmailScan))
    && ValuesOf(jobs, LocalpartScan)
       == (if scanLocalpart then Localparts(ValuesOf(jobs, EmailScan)) else [])
  }

  /** The loop's discovered sets, with `harvested` the profiles whose
      identities have been added so far: the input usernames `u0` and emails
      `e0`, the identities the harvested profiles name and, with local-part
      scanning, the local parts of the scanned emails. */
  ghost predicate SetsState(u0: set<string>, e0: set<string>, scanLocalpart: bool, d: Discovery,
                            harvested: seq<SocialProfile>) {
    && harvested <= d.profiles
    && d.allUsernames
       == u0 + ExtraUsernames(harvested) + (if scanLocalpart then LocalpartSet(d.scannedEmails) else {})
    && d.allEmails == e0 + ExtraEmails(harvested)
  }

  /** The loop's bookkeeping: its record of the scans and its discovered sets. */
  ghost predicate RoundState(request: HuntRequest, engines: Engines, d: Discovery, jobs: seq<ScanJob>,
                             harvested: seq<SocialProfile>) {
    && JobsState(request.scanLocalpart, engines, d, jobs)
    && SetsState(NormalisedUsernames(request.usernames.GetOr([])), NormalisedEmails(request.emails.GetOr([])),
                 request.scanLocalpart, d, harvested)
  }

  /** What the username half makes of the loop state `d`, with `order` the
      unscanned usernames: the first failure of their scans, or their
      profiles appended and every username scanned. */
  predicate UsernameHalfResult(engines: Engines, d: Discovery, order: seq<string>,
                               r: Result<Discovery, ValidationError>) {
    var found := ScanAll(engines.scan, USERNAME_SCANNERS, order, None);
    && (found.Err? ==> r == Err(found.error))
    && (found.Ok? ==> r == Ok(d.(profiles := d.profiles + found.value, scannedUsernames := d.allUsernames)))
  }

  /** What the email half makes of the loop state `d`, with `order` the
      unscanned emails: the first failure of their scans; or their profiles
      appended and every email scanned, and, with local-part scanning, the
      first failure of the scans of their local parts, or those profiles
      appended too and the local parts added to the usernames.
      `localScanned` tells whether the local parts were scanned. */
  predicate EmailHalfResult(scanLocalpart: bool, engines: Engines, d: Discovery, order: seq<string>,
                            localScanned: bool, r: Result<Discovery, ValidationError>) {
    var found := ScanAll(engines.scan, EMAIL_SCANNERS, order, None);
    && (localScanned <==> scanLocalpart && found.Ok?)
    && (found.Err? ==> r == Err(found.error))
    && (found.Ok? && !scanLocalpart ==>
          r == Ok(d.(profiles := d.profiles + found.value, scannedEmails := d.allEmails)))
    && (found.Ok? && scanLocalpart ==>
          var derived := ScanAll(engines.scan, USERNAME_SCANNERS, Localparts(order), Some("email_localpart"));
          && (derived.Err? ==> r == Err(derived.error))
          && (derived.Ok? ==>
                r == Ok(d.(profiles := d.profiles + found.value + derived.value,
                           scannedEmails := d.allEmails,
                           allUsernames := d.allUsernames + LocalpartSet(d.allEmails - d.scannedEmails)))))
  }

  /** The username half of a round: the unscanned usernames, in the order
      `list` gives them, go to the username scanners; their profiles are
      appended and they become scanned, or the first failure is returned. */
  method ScanNewUsernames(engines: Engines, d: Discovery)
    returns (r: Result<Discovery, ValidationError>, order: seq<string>)
    ensures Distinct(order)
    ensures forall u :: u in order <==> u in d.allUsernames - d.scannedUsernames
    ensures UsernameHalfResult(engines, d, order, r)
  {
    var newU := d.allUsernames - d.scannedUsernames;
    order := Enumerate(newU);
    var found := ScanAll(engines.scan, USERNAME_SCANNERS, order, None);
    if found.Err? {
      return Err(found.error), order;
    }
    r := Ok(d.(profiles := d.profiles + found.value, scannedUsernames := d.allUsernames));
  }

  /** The email half of a round: the unscanned emails go to the email
      scanners, and then, with local-part scanning, their local parts to the
      username scanners; the profiles of both are appended, the emails become
      scanned and the local parts join the usernames, or the first failure is
      returned. `localScanned` tells whether the local parts were scanned. */
  method ScanNewEmails(scanLocalpart: bool, engines: Engines, d: Discovery)
    returns (r: Result<Discovery, ValidationError>, order: seq<string>, localScanned: bool)
    ensures Distinct(order)
    ensures forall e :: e in order <==> e in d.allEmails - d.scannedEmails
    ensures EmailHalfResult(scanLocalpart, engines, d, order, localScanned, r)
  {
    var newE := d.allEmails - d.scannedEmails;
    order := Enumerate(newE);
    localScanned := false;
    var found := ScanAll(engines.scan, EMAIL_SCANNERS, order, None);
    if found.Err? {
      return Err(found.error), order, localScanned;
    }
    var next := d.(profiles := d.profiles + found.value, scannedEmails := d.allEmails);
    if scanLocalpart {
      localScanned := true;
      var derived := ScanLocalparts(engines, order);
      if derived.Err? {
        return Err(derived.error), order, localScanned;
      }
      assert derived.value.1 == LocalpartSet(newE) by {
        forall x | x in derived.value.1 ensures x in LocalpartSet(newE) {
          var e :| e in order && x == BeforeFirst(e, '@');
        }
      }
      next := next.(profiles := next.profiles + derived.value.0,
                    allUsernames := next.allUsernames + derived.value.1);
    }
    r := Ok(next);
  }

  /** The scans of the local parts of a round's new emails: the profiles the
      username scanners give for them, tagged as derived from an email's
      local part, and the set of the local parts. */
  method ScanLocalparts(engines: Engines, emails: seq<string>)
    returns (r: Result<(seq<SocialProfile>, set<string>), ValidationError>)
    ensures var derived := ScanAll(engines.scan, USERNAME_SCANNERS, Localparts(emails), Some("email_localpart"));
      && (derived.Err? ==> r == Err(derived.error))
      && (derived.Ok? ==> r.Ok? && r.value.0 == derived.value)
    ensures r.Ok? ==> forall x :: x in r.value.1 <==> exists e :: e in emails && x == BeforeFirst(e, '@')
  {
    var localparts := Localparts(emails);
    var derived := ScanAll(engines.scan, USERNAME_SCANNERS, localparts, Some("email_localpart"));
    if derived.Err? {
      return Err(derived.error);
    }
    var names := set i | 0 <= i < |localparts| :: localparts[i];
    forall x ensures x in names <==> exists e :: e in emails && x == BeforeFirst(e, '@') {
      if exists e :: e in emails && x == BeforeFirst(e, '@') {
        var e :| e in emails && x == BeforeFirst(e, '@');
        var i :| 0 <= i < |emails| && emails[i] == e;
        assert localparts[i] == x;
      }
    }
    r := Ok((derived.value, names));
  }

  /** `[email.split("@", 1)[0] for email in emails]`. */
  function Localparts(emails: seq<string>): (r: seq<string>)
    ensures |r| == |emails|
    ensures forall i :: 0 <= i < |emails| ==> r[i] == BeforeFirst(emails[i], '@')
  {
    seq(|emails|, i requires 0 <= i < |emails| => BeforeFirst(emails[i], '@'))
  }

  /** The start of the loop: nothing scanned, nothing harvested. */
  lemma RoundStart(request: HuntRequest, engines: Engines)
    ensures RoundState(request, engines,
                       Discovery([], NormalisedUsernames(request.usernames.GetOr([])),
                                 NormalisedEmails(request.emails.GetOr([])), {}, {}), [], [])
  {
    assert ExtraUsernames([]) == {} && ExtraEmails([]) == {};
    assert LocalpartSet({}) == {};
  }

  /** Appending a batch of `ScanAll` as jobs: the run fails with the batch's
      failure, or gives the batch's profiles after the earlier ones; the
      batch's values follow the earlier ones of their kind. */
  lemma AppendBatch(scan: ScanOracle, jobs: seq<ScanJob>, profiles: seq<SocialProfile>, kind: ScanKind,
                    values: seq<string>)
    requires RunJobs(scan, jobs) == Ok(profiles)
    ensures var found := ScanAll(scan, KindScanners(kind), values, KindOrigin(kind));
      RunJobs(scan, jobs + JobsOf(kind, values))
      == if found.Err? then Err(found.error) else Ok(profiles + found.value)
    ensures forall k :: ValuesOf(jobs + JobsOf(kind, values), k)
                        == ValuesOf(jobs, k) + (if k == kind then values else [])
  {
    ScanAllJobs(scan, kind, values);
    RunJobsAppend(scan, jobs, JobsOf(kind, values));
    forall k ensures ValuesOf(jobs + JobsOf(kind, values), k) == ValuesOf(jobs, k) + (if k == kind then values else []) {
      ValuesOfAppend(jobs, JobsOf(kind, values), k);
      ValuesOfJobs(kind, values, k);
      assert ValuesOf(jobs, k) + [] == ValuesOf(jobs, k);
    }
  }

  /** The username half keeps the bookkeeping, with its jobs appended; on a
      failure, the jobs fail with that error. */
  lemma UsernameHalf(request: HuntRequest, engines: Engines, d: Discovery, jobs: seq<ScanJob>,
                     harvested: seq<SocialProfile>, order: seq<string>, r: Result<Discovery, ValidationError>)
    requires RoundState(request, engines, d, jobs, harvested)
    requires Distinct(order)
    requires forall u :: u in order <==> u in d.allUsernames - d.scannedUsernames
    requires UsernameHalfResult(engines, d, order, r)
    ensures r.Err? ==> RunJobs(engines.scan, jobs + JobsOf(UsernameScan, order)) == Err(r.error)
    ensures r.Ok? ==> RoundState(request, engines, r.value, jobs + JobsOf(UsernameScan, order), harvested)
  {
    var found := ScanAll(engines.scan, USERNAME_SCANNERS, order, None);
    AppendBatch(engines.scan, jobs, d.profiles, UsernameScan, order);
    if found.Ok? {
      var d1 := d.(profiles := d.profiles + found.value, scannedUsernames := d.allUsernames);
      var jobs' := jobs + JobsOf(UsernameScan, order);
      var vu := ValuesOf(jobs, UsernameScan);
      assert r.value == d1;
      DistinctAppend(vu, order);
      assert ValuesOf(jobs', UsernameScan) == vu + order;
      assert ValuesOf(jobs', EmailScan) == ValuesOf(jobs, EmailScan);
      assert ValuesOf(jobs', LocalpartScan) == ValuesOf(jobs, LocalpartScan);
      assert forall u :: u in d1.scannedUsernames <==> u in vu + order;
      assert harvested <= d1.profiles;
      assert ScansRecorded(d1, ValuesOf(jobs', UsernameScan), ValuesOf(jobs', EmailScan));
    }
  }

  /** A part whose difference from the whole is empty is the whole. */
  lemma EmptyDifference<T>(whole: set<T>, part: set<T>)
    requires part <= whole && whole - part == {}
    ensures part == whole
  {
    forall x | x in whole ensures x in part {
      assert x !in whole - part;
    }
  }

  /** The local parts of a set are those of a part and of the rest. */
  lemma LocalpartSplit(whole: set<string>, part: set<string>)
    requires part <= whole
    ensures LocalpartSet(whole) == LocalpartSet(part) + LocalpartSet(whole - part)
  {
    forall x | x in LocalpartSet(whole) ensures x in LocalpartSet(part) + LocalpartSet(whole - part) {
      var e :| e in whole && x == BeforeFirst(e, '@');
      if e in part {
        assert x in LocalpartSet(part);
      } else {
        assert x in LocalpartSet(whole - part);
      }
    }
  }

  /** The local parts of two lists of emails are those of their concatenation. */
  lemma LocalpartsAppend(a: seq<string>, b: seq<string>)
    ensures Localparts(a + b) == Localparts(a) + Localparts(b)
  {
  }

  /** The email scans of the email half, with their jobs appended: a failure
      fails the jobs; otherwise the profiles are appended and the emails are
      recorded as scanned, the local parts still to come. */
  lemma EmailBatch(engines: Engines, d: Discovery, jobs: seq<ScanJob>, order: seq<string>)
    requires RunJobs(engines.scan, jobs) == Ok(d.profiles)
    requires ScansRecorded(d, ValuesOf(jobs, UsernameScan), ValuesOf(jobs, EmailScan))
    requires Distinct(order)
    requires forall e :: e in order <==> e in d.allEmails - d.scannedEmails
    ensures var found := ScanAll(engines.scan, EMAIL_SCANNERS, order, None);
      var jobs' := jobs + JobsOf(EmailScan, order);
      && (found.Err? ==> RunJobs(engines.scan, jobs') == Err(found.error))
      && (found.Ok? ==>
            var d' := d.(profiles := d.profiles + found.value, scannedEmails := d.allEmails);
            && RunJobs(engines.scan, jobs') == Ok(d'.profiles)
            && ScansRecorded(d', ValuesOf(jobs', UsernameScan), ValuesOf(jobs', EmailScan))
            && ValuesOf(jobs', LocalpartScan) == ValuesOf(jobs, LocalpartScan)
            && ValuesOf(jobs', EmailScan) == ValuesOf(jobs, EmailScan) + order)
  {
    AppendBatch(engines.scan, jobs, d.profiles, EmailScan, order);
    DistinctAppend(ValuesOf(jobs, EmailScan), order);
  }

  /** The record of the scans after the local parts of the email half: a
      failure fails the jobs; otherwise the profiles of the emails and then
      of their local parts are the jobs' profiles, and the local parts follow
      the emails. */
  lemma LocalpartJobs(scanLocalpart: bool, engines: Engines, d: Discovery, jobs: seq<ScanJob>,
                      order: seq<string>, d2: Discovery, jobs': seq<ScanJob>)
    requires scanLocalpart
    requires JobsState(scanLocalpart, engines, d, jobs)
    requires Distinct(order)
    requires forall e :: e in order <==> e in d.allEmails - d.scannedEmails
    requires ScanAll(engines.scan, EMAIL_SCANNERS, order, None).Ok?
    requires jobs' == jobs + JobsOf(EmailScan, order) + JobsOf(LocalpartScan, Localparts(order))
    requires var found := ScanAll(engines.scan, EMAIL_SCANNERS, order, None);
      var derived := ScanAll(engines.scan, USERNAME_SCANNERS, Localparts(order), Some("email_localpart"));
      derived.Ok? ==>
        && d2.profiles == d.profiles + found.value + derived.value
        && d2.scannedEmails == d2.allEmails == d.allEmails
        && d2.scannedUsernames == d.scannedUsernames && d.allUsernames <= d2.allUsernames
    ensures var derived := ScanAll(engines.scan, USERNAME_SCANNERS, Localparts(order), Some("email_localpart"));
      && (derived.Err? ==> RunJobs(engines.scan, jobs') == Err(derived.error))
      && (derived.Ok? ==> JobsState(scanLocalpart, engines, d2, jobs'))
  {
    var found := ScanAll(engines.scan, EMAIL_SCANNERS, order, None);
    var derived := ScanAll(engines.scan, USERNAME_SCANNERS, Localparts(order), Some("email_localpart"));
    var emailJobs := jobs + JobsOf(EmailScan, order);
    EmailBatch(engines, d, jobs, order);
    AppendBatch(engines.scan, emailJobs, d.profiles + found.value, LocalpartScan, Localparts(order));
    if derived.Ok? {
      assert ValuesOf(jobs', EmailScan) == ValuesOf(jobs, EmailScan) + order;
      assert ValuesOf(jobs', UsernameScan) == ValuesOf(emailJobs, UsernameScan);
      assert ValuesOf(jobs', LocalpartScan) == Localparts(ValuesOf(jobs', EmailScan)) by {
        LocalpartsAppend(ValuesOf(jobs, EmailScan), order);
      }
    }
  }

  /** The discovered sets after the local parts of the new emails join the
      usernames and every email is scanned: the local parts of the scanned
      emails are still exactly those among the usernames. */
  lemma LocalpartSets(u0: set<string>, e0: set<string>, scanLocalpart: bool, d: Discovery,
                      harvested: seq<SocialProfile>, d2: Discovery)
    requires SetsState(u0, e0, scanLocalpart, d, harvested)
    requires scanLocalpart && d.scannedEmails <= d.allEmails
    requires d.profiles <= d2.profiles
    requires d2.scannedEmails == d2.allEmails == d.allEmails
    requires d2.allUsernames == d.allUsernames + LocalpartSet(d.allEmails - d.scannedEmails)
    ensures SetsState(u0, e0, scanLocalpart, d2, harvested)
  {
    LocalpartSplit(d.allEmails, d.scannedEmails);
  }

  /** The email half when its email scans succeed and local-part scanning is
      on. */
  lemma EmailHalfLocal(request: HuntRequest, engines: Engines, d: Discovery, jobs: seq<ScanJob>,
                       harvested: seq<SocialProfile>, order: seq<string>,
                       r: Result<Discovery, ValidationError>, jobs': seq<ScanJob>)
    requires RoundState(request, engines, d, jobs, harvested)
    requires Distinct(order)
    requires forall e :: e in order <==> e in d.allEmails - d.scannedEmails
    requires request.scanLocalpart && ScanAll(engines.scan, EMAIL_SCANNERS, order, None).Ok?
    requires EmailHalfResult(true, engines, d, order, true, r)
    requires jobs' == jobs + JobsOf(EmailScan, order) + JobsOf(LocalpartScan, Localparts(order))
    ensures r.Err? ==> RunJobs(engines.scan, jobs') == Err(r.error)
    ensures r.Ok? ==> RoundState(request, engines, r.value, jobs', harvested)
    ensures r.Ok? ==>
      && d.profiles <= r.value.profiles
      && r.value.scannedEmails == r.value.allEmails == d.allEmails
      && r.value.scannedUsernames == d.scannedUsernames
  {
    var found := ScanAll(engines.scan, EMAIL_SCANNERS, order, None);
    var derived := ScanAll(engines.scan, USERNAME_SCANNERS, Localparts(order), Some("email_localpart"));
    if r.Ok? {
      assert derived.Ok?;
      var d2 := r.value;
      LocalpartJobs(request.scanLocalpart, engines, d, jobs, order, d2, jobs');
      PrefixOfTwoAppends(d.profiles, found.value, derived.value);
      LocalpartSets(NormalisedUsernames(request.usernames.GetOr([])), NormalisedEmails(request.emails.GetOr([])),
                    request.scanLocalpart, d, harvested, d2);
    } else {
      assert derived.Err?;
      LocalpartJobs(request.scanLocalpart, engines, d, jobs, order, d, jobs');
    }
  }

  /** The email half when its email scans fail or local-part scanning is
      off. */
  lemma EmailHalfPlain(request: HuntRequest, engines: Engines, d: Discovery, jobs: seq<ScanJob>,
                       harvested: seq<SocialProfile>, order: seq<string>, localScanned: bool,
                       r: Result<Discovery, ValidationError>, jobs': seq<ScanJob>)
    requires RoundState(request, engines, d, jobs, harvested)
    requires Distinct(order)
    requires forall e :: e in order <==> e in d.allEmails - d.scannedEmails
    requires EmailHalfResult(request.scanLocalpart, engines, d, order, localScanned, r)
    requires !localScanned
    requires jobs' == jobs + JobsOf(EmailScan, order)
    ensures r.Err? ==> RunJobs(engines.scan, jobs') == Err(r.error)
    ensures r.Ok? ==> RoundState(request, engines, r.value, jobs', harvested)
    ensures r.Ok? ==>
      && d.profiles <= r.value.profiles
      && r.value.scannedEmails == r.value.allEmails == d.allEmails
      && r.value.scannedUsernames == d.scannedUsernames
  {
    EmailBatch(engines, d, jobs, order);
  }

  /** The email half keeps the bookkeeping, with its jobs appended; on a
      failure, the jobs fail with that error. */
  lemma EmailHalf(request: HuntRequest, engines: Engines, d: Discovery, jobs: seq<ScanJob>,
                  harvested: seq<SocialProfile>, order: seq<string>, localScanned: bool,
                  r: Result<Discovery, ValidationError>, jobs': seq<ScanJob>)
    requires RoundState(request, engines, d, jobs, harvested)
    requires Distinct(order)
    requires forall e :: e in order <==> e in d.allEmails - d.scannedEmails
    requires EmailHalfResult(request.scanLocalpart, engines, d, order, localScanned, r)
    requires jobs' == jobs + JobsOf(EmailScan, order)
                      + (if localScanned then JobsOf(LocalpartScan, Localparts(order)) else [])
    ensures r.Err? ==> RunJobs(engines.scan, jobs') == Err(r.error)
    ensures r.Ok? ==> RoundState(request, engines, r.value, jobs', harvested)
    ensures r.Ok? ==>
      && d.profiles <= r.value.profiles
      && r.value.scannedEmails == r.value.allEmails == d.allEmails
      && r.value.scannedUsernames == d.scannedUsernames
  {
    if localScanned {
      EmailHalfLocal(request, engines, d, jobs, harvested, order, r, jobs');
    } else {
      assert jobs' == jobs + JobsOf(EmailScan, order);
      EmailHalfPlain(request, engines, d, jobs, harvested, order, localScanned, r, jobs');
    }
  }

  /** Adding the identities of every profile found so far keeps the
      discovered sets, with all profiles harvested. */
  lemma HarvestSets(u0: set<string>, e0: set<string>, scanLocalpart: bool, d: Discovery,
                    harvested: seq<SocialProfile>)
    requires SetsState(u0, e0, scanLocalpart, d, harvested)
    ensures SetsState(u0, e0, scanLocalpart,
                      d.(allUsernames := d.allUsernames + ExtraUsernames(d.profiles),
                         allEmails := d.allEmails + ExtraEmails(d.profiles)),
                      d.profiles)
  {
    PrefixThenRest(harvested, d.profiles);
    ExtrasGrow(harvested, d.profiles[|harvested|..]);
  }

  /** Adding the identities of every profile found so far keeps the
      bookkeeping, with all profiles harvested. */
  lemma HarvestRound(request: HuntRequest, engines: Engines, d: Discovery, jobs: seq<ScanJob>,
                     harvested: seq<SocialProfile>)
    requires RoundState(request, engines, d, jobs, harvested)
    ensures RoundState(request, engines,
                       d.(allUsernames := d.allUsernames + ExtraUsernames(d.profiles),
                          allEmails := d.allEmails + ExtraEmails(d.profiles)),
                       jobs, d.profiles)
  {
    HarvestSets(NormalisedUsernames(request.usernames.GetOr([])), NormalisedEmails(request.emails.GetOr([])),
                request.scanLocalpart, d, harvested);
  }

  /** When no identity is left unscanned, the bookkeeping gives the loop's
      promises. */
  lemma LoopDone(request: HuntRequest, engines: Engines, d: Discovery, jobs: seq<ScanJob>)
    requires RoundState(request, engines, d, jobs, d.profiles)
    requires d.allUsernames - d.scannedUsernames == {} && d.allEmails - d.scannedEmails == {}
    ensures d.allUsernames
            == NormalisedUsernames(request.usernames.GetOr([])) + ExtraUsernames(d.profiles)
               + (if request.scanLocalpart then LocalpartSet(d.allEmails) else {})
    ensures d.allEmails == NormalisedEmails(request.emails.GetOr([])) + ExtraEmails(d.profiles)
    ensures forall u :: u in d.allUsernames <==> u in ValuesOf(jobs, UsernameScan)
    ensures forall e :: e in d.allEmails <==> e in ValuesOf(jobs, EmailScan)
    ensures Distinct(ValuesOf(jobs, UsernameScan)) && Distinct(ValuesOf(jobs, EmailScan))
  {
    EmptyDifference(d.allUsernames, d.scannedUsernames);
    EmptyDifference(d.allEmails, d.scannedEmails);
  }

  /** Where a job's value may come from, given the profiles and the email
      jobs before it: a username from the input usernames `u0`, the
      identities those profiles name or, with local-part scanning, the local
      part of an earlier email; an email from the input emails `e0` or the
      identities those profiles name; a local part from an earlier email. */
  ghost predicate Available(u0: set<string>, e0: set<string>, scanLocalpart: bool,
                            profiles: seq<SocialProfile>, emails: seq<string>, job: ScanJob) {
    match job.kind
    case UsernameScan =>
      job.value in u0 + ExtraUsernames(profiles)
                   + (if scanLocalpart then LocalpartSet(set e | e in emails) else {})
    case EmailScan => job.value in e0 + ExtraEmails(profiles)
    case LocalpartScan => job.value in LocalpartSet(set e | e in emails)
  }

  /** A job's value was known before it ran: the jobs `before` it ran
      without a failure, and the value came from the inputs or from them. */
  ghost predicate Known(u0: set<string>, e0: set<string>, scanLocalpart: bool, scan: ScanOracle,
                        before: seq<ScanJob>, job: ScanJob) {
    RunJobs(scan, before).Ok?
    && Available(u0, e0, scanLocalpart, RunJobs(scan, before).value, ValuesOf(before, EmailScan), job)
  }

  /** Every job's value was known before it ran. */
  ghost predicate Caused(u0: set<string>, e0: set<string>, scanLocalpart: bool, scan: ScanOracle,
                         jobs: seq<ScanJob>) {
    forall k :: 0 <= k < |jobs| ==> Known(u0, e0, scanLocalpart, scan, jobs[..k], jobs[k])
  }

  /** A job started while the jobs before it had found nothing and scanned no
      email is an input: no identity comes out of nowhere. */
  lemma NothingFoundOnlyInputs(u0: set<string>, e0: set<string>, scanLocalpart: bool, scan: ScanOracle,
                               jobs: seq<ScanJob>, k: nat)
    requires Caused(u0, e0, scanLocalpart, scan, jobs)
    requires k < |jobs|
    requires RunJobs(scan, jobs[..k]) == Ok([]) && ValuesOf(jobs[..k], EmailScan) == []
    ensures jobs[k].kind == UsernameScan ==> jobs[k].value in u0
    ensures jobs[k].kind == EmailScan ==> jobs[k].value in e0
    ensures jobs[k].kind != LocalpartScan
  {
    assert Known(u0, e0, scanLocalpart, scan, jobs[..k], jobs[k]);
    assert ExtraUsernames([]) == {} && ExtraEmails([]) == {};
    assert (set e: string | e in [] :: e) == {};
    assert LocalpartSet({}) == {};
  }

  /** More emails never take a local part away. */
  lemma LocalpartSetGrows(a: set<string>, b: set<string>)
    requires a <= b
    ensures LocalpartSet(a) <= LocalpartSet(b)
  {
    forall x | x in LocalpartSet(a) ensures x in LocalpartSet(b) {
      var e :| e in a && x == BeforeFirst(e, '@');
    }
  }

  /** A value known from some profiles and emails stays known when more
      profiles follow and more emails are scanned. */
  lemma AvailableGrows(u0: set<string>, e0: set<string>, scanLocalpart: bool,
                       p: seq<SocialProfile>, q: seq<SocialProfile>, em: seq<string>, fm: seq<string>,
                       job: ScanJob)
    requires Available(u0, e0, scanLocalpart, p, em, job)
    requires p <= q
    requires forall e :: e in em ==> e in fm
    ensures Available(u0, e0, scanLocalpart, q, fm, job)
  {
    PrefixThenRest(p, q);
    ExtrasGrow(p, q[|p|..]);
    LocalpartSetGrows(set e | e in em, set e | e in fm);
  }

  /** The jobs before the `i`-th of a batch run without a failure when the
      batch does, their profiles extending those of the jobs before the batch
      and their emails including those. */
  lemma BatchPrefix(scan: ScanOracle, jobs: seq<ScanJob>, batch: seq<ScanJob>, i: nat)
    requires i < |batch|
    requires RunJobs(scan, jobs).Ok? && RunJobs(scan, batch).Ok?
    ensures RunJobs(scan, jobs + batch[..i]).Ok?
    ensures RunJobs(scan, jobs).value <= RunJobs(scan, jobs + batch[..i]).value
    ensures forall e :: e in ValuesOf(jobs, EmailScan) ==> e in ValuesOf(jobs + batch[..i], EmailScan)
  {
    assert batch == batch[..i] + batch[i..];
    RunJobsAppend(scan, batch[..i], batch[i..]);
    RunJobsAppend(scan, jobs, batch[..i]);
    ValuesOfAppend(jobs, batch[..i], EmailScan);
    var p := RunJobs(scan, jobs).value;
    assert p <= p + RunJobs(scan, batch[..i]).value;
  }

  /** A job before a batch is known before it runs as it was without the
      batch. */
  lemma EarlierKnown(u0: set<string>, e0: set<string>, scanLocalpart: bool, scan: ScanOracle,
                     jobs: seq<ScanJob>, batch: seq<ScanJob>, k: nat)
    requires k < |jobs|
    requires Known(u0, e0, scanLocalpart, scan, jobs[..k], jobs[k])
    ensures Known(u0, e0, scanLocalpart, scan, (jobs + batch)[..k], (jobs + batch)[k])
  {
    assert (jobs + batch)[..k] == jobs[..k];
    assert (jobs + batch)[k] == jobs[k];
  }

  /** The `i`-th job of a batch was known before it ran when it is known
      from the jobs before the batch and the batch runs without a failure. */
  lemma BatchJobCaused(u0: set<string>, e0: set<string>, scanLocalpart: bool, scan: ScanOracle,
                       jobs: seq<ScanJob>, batch: seq<ScanJob>, i: nat)
    requires i < |batch|
    requires RunJobs(scan, jobs).Ok? && RunJobs(scan, batch).Ok?
    requires Available(u0, e0, scanLocalpart, RunJobs(scan, jobs).value, ValuesOf(jobs, EmailScan), batch[i])
    ensures Known(u0, e0, scanLocalpart, scan, jobs + batch[..i], batch[i])
  {
    BatchPrefix(scan, jobs, batch, i);
    AvailableGrows(u0, e0, scanLocalpart, RunJobs(scan, jobs).value, RunJobs(scan, jobs + batch[..i]).value,
                   ValuesOf(jobs, EmailScan), ValuesOf(jobs + batch[..i], EmailScan), batch[i]);
  }

  /** The same, indexed in the whole list of jobs. */
  lemma BatchJobKnown(u0: set<string>, e0: set<string>, scanLocalpart: bool, scan: ScanOracle,
                      jobs: seq<ScanJob>, batch: seq<ScanJob>, k: nat)
    requires |jobs| <= k < |jobs| + |batch|
    requires RunJobs(scan, jobs).Ok? && RunJobs(scan, batch).Ok?
    requires Available(u0, e0, scanLocalpart, RunJobs(scan, jobs).value, ValuesOf(jobs, EmailScan),
                       batch[k - |jobs|])
    ensures Known(u0, e0, scanLocalpart, scan, (jobs + batch)[..k], (jobs + batch)[k])
  {
    var i := k - |jobs|;
    BatchJobCaused(u0, e0, scanLocalpart, scan, jobs, batch, i);
    assert (jobs + batch)[..k] == jobs + batch[..i];
    assert (jobs + batch)[k] == batch[i];
  }

  /** Appending a batch whose values are all known from the jobs so far keeps
      every job caused, when the whole run succeeds. */
  lemma BatchCaused(u0: set<string>, e0: set<string>, scanLocalpart: bool, scan: ScanOracle,
                    jobs: seq<ScanJob>, batch: seq<ScanJob>)
    requires Caused(u0, e0, scanLocalpart, scan, jobs)
    requires RunJobs(scan, jobs).Ok? && RunJobs(scan, jobs + batch).Ok?
    requires forall i :: 0 <= i < |batch| ==>
      Available(u0, e0, scanLocalpart, RunJobs(scan, jobs).value, ValuesOf(jobs, EmailScan), batch[i])
    ensures Caused(u0, e0, scanLocalpart, scan, jobs + batch)
  {
    RunJobsAppend(scan, jobs, batch);
    forall k | 0 <= k < |jobs + batch|
      ensures Known(u0, e0, scanLocalpart, scan, (jobs + batch)[..k], (jobs + batch)[k])
    {
      if k < |jobs| {
        EarlierKnown(u0, e0, scanLocalpart, scan, jobs, batch, k);
      } else {
        BatchJobKnown(u0, e0, scanLocalpart, scan, jobs, batch, k);
      }
    }
  }

  /** Every discovered identity is known from the inputs, the profiles so far
      and the emails scanned so far. */
  lemma DiscoveredAvailable(u0: set<string>, e0: set<string>, scanLocalpart: bool, scan: ScanOracle,
                            d: Discovery, harvested: seq<SocialProfile>, jobs: seq<ScanJob>)
    requires SetsState(u0, e0, scanLocalpart, d, harvested)
    requires forall e :: e in d.scannedEmails <==> e in ValuesOf(jobs, EmailScan)
    ensures forall u :: u in d.allUsernames ==>
      Available(u0, e0, scanLocalpart, d.profiles, ValuesOf(jobs, EmailScan), ScanJob(UsernameScan, u))
    ensures forall e :: e in d.allEmails ==>
      Available(u0, e0, scanLocalpart, d.profiles, ValuesOf(jobs, EmailScan), ScanJob(EmailScan, e))
  {
    PrefixThenRest(harvested, d.profiles);
    ExtrasGrow(harvested, d.profiles[|harvested|..]);
    assert d.scannedEmails == set e | e in ValuesOf(jobs, EmailScan);
  }

  /** The username scans of a round keep every job caused. */
  lemma UsernamesCaused(u0: set<string>, e0: set<string>, scanLocalpart: bool, scan: ScanOracle,
                        d: Discovery, harvested: seq<SocialProfile>, jobs: seq<ScanJob>, order: seq<string>)
    requires SetsState(u0, e0, scanLocalpart, d, harvested)
    requires RunJobs(scan, jobs) == Ok(d.profiles)
    requires forall e :: e in d.scannedEmails <==> e in ValuesOf(jobs, EmailScan)
    requires Caused(u0, e0, scanLocalpart, scan, jobs)
    requires forall u :: u in order ==> u in d.allUsernames
    requires RunJobs(scan, jobs + JobsOf(UsernameScan, order)).Ok?
    ensures Caused(u0, e0, scanLocalpart, scan, jobs + JobsOf(UsernameScan, order))
  {
    DiscoveredAvailable(u0, e0, scanLocalpart, scan, d, harvested, jobs);
    var batch := JobsOf(UsernameScan, order);
    forall i | 0 <= i < |batch|
      ensures Available(u0, e0, scanLocalpart, d.profiles, ValuesOf(jobs, EmailScan), batch[i])
    {
      assert batch[i] == ScanJob(UsernameScan, order[i]) && order[i] in order;
    }
    BatchCaused(u0, e0, scanLocalpart, scan, jobs, batch);
  }

  /** The email scans of a round keep every job caused. */
  lemma EmailJobsCaused(u0: set<string>, e0: set<string>, scanLocalpart: bool, scan: ScanOracle,
                        d: Discovery, harvested: seq<SocialProfile>, jobs: seq<ScanJob>, order: seq<string>)
    requires SetsState(u0, e0, scanLocalpart, d, harvested)
    requires RunJobs(scan, jobs) == Ok(d.profiles)
    requires forall e :: e in d.scannedEmails <==> e in ValuesOf(jobs, EmailScan)
    requires Caused(u0, e0, scanLocalpart, scan, jobs)
    requires forall e :: e in order ==> e in d.allEmails
    requires RunJobs(scan, jobs + JobsOf(EmailScan, order)).Ok?
    ensures Caused(u0, e0, scanLocalpart, scan, jobs + JobsOf(EmailScan, order))
  {
    DiscoveredAvailable(u0, e0, scanLocalpart, scan, d, harvested, jobs);
    var batch := JobsOf(EmailScan, order);
    forall i | 0 <= i < |batch|
      ensures Available(u0, e0, scanLocalpart, d.profiles, ValuesOf(jobs, EmailScan), batch[i])
    {
      assert batch[i] == ScanJob(EmailScan, order[i]) && order[i] in order;
    }
    BatchCaused(u0, e0, scanLocalpart, scan, jobs, batch);
  }

  /** The scans of the local parts of a round's emails, after the emails'
      own scans, keep every job caused. */
  lemma LocalpartJobsCaused(u0: set<string>, e0: set<string>, scanLocalpart: bool, scan: ScanOracle,
                            jobs: seq<ScanJob>, order: seq<string>)
    requires Caused(u0, e0, scanLocalpart, scan, jobs + JobsOf(EmailScan, order))
    requires RunJobs(scan, jobs + JobsOf(EmailScan, order) + JobsOf(LocalpartScan, Localparts(order))).Ok?
    ensures Caused(u0, e0, scanLocalpart, scan,
                   jobs + JobsOf(EmailScan, order) + JobsOf(LocalpartScan, Localparts(order)))
  {
    var mid := jobs + JobsOf(EmailScan, order);
    var rest := JobsOf(LocalpartScan, Localparts(order));
    RunJobsAppend(scan, mid, rest);
    ValuesOfAppend(jobs, JobsOf(EmailScan, order), EmailScan);
    ValuesOfJobs(EmailScan, order, EmailScan);
    var emails := ValuesOf(mid, EmailScan);
    forall i | 0 <= i < |rest|
      ensures Available(u0, e0, scanLocalpart, RunJobs(scan, mid).value, emails, rest[i])
    {
      assert order[i] in emails;
      assert order[i] in (set e | e in emails);
      assert rest[i] == ScanJob(LocalpartScan, BeforeFirst(order[i], '@'));
    }
    BatchCaused(u0, e0, scanLocalpart, scan, mid, rest);
  }

  /** The email half of a round, with or without the scans of the local
      parts, keeps every job caused. */
  lemma EmailsCaused(u0: set<string>, e0: set<string>, scanLocalpart: bool, scan: ScanOracle,
                     d: Discovery, harvested: seq<SocialProfile>, jobs: seq<ScanJob>, order: seq<string>,
                     localScanned: bool, jobs': seq<ScanJob>)
    requires SetsState(u0, e0, scanLocalpart, d, harvested)
    requires RunJobs(scan, jobs) == Ok(d.profiles)
    requires forall e :: e in d.scannedEmails <==> e in ValuesOf(jobs, EmailScan)
    requires Caused(u0, e0, scanLocalpart, scan, jobs)
    requires forall e :: e in order ==> e in d.allEmails
    requires jobs' == jobs + JobsOf(EmailScan, order)
                      + (if localScanned then JobsOf(LocalpartScan, Localparts(order)) else [])
    requires RunJobs(scan, jobs').Ok?
    ensures Caused(u0, e0, scanLocalpart, scan, jobs')
  {
    var mid := jobs + JobsOf(EmailScan, order);
    var rest := if localScanned then JobsOf(LocalpartScan, Localparts(order)) else [];
    RunJobsAppend(scan, mid, rest);
    EmailJobsCaused(u0, e0, scanLocalpart, scan, d, harvested, jobs, order);
    if localScanned {
      LocalpartJobsCaused(u0, e0, scanLocalpart, scan, jobs, order);
    } else {
      assert jobs' == mid;
    }
  }

  /** `if new_usernames:` — the username half of a round, when any username
      is unscanned. Its jobs are appended to `jobs`; the emails are left
      alone. */
  method UsernameStage(request: HuntRequest, engines: Engines, d: Discovery, jobs: seq<ScanJob>,
                       harvested: seq<SocialProfile>)
    returns (r: Result<Discovery, ValidationError>, jobs': seq<ScanJob>)
    requires RoundState(request, engines, d, jobs, harvested)
    requires Caused(NormalisedUsernames(request.usernames.GetOr([])), NormalisedEmails(request.emails.GetOr([])),
                   request.scanLocalpart, engines.scan, jobs)
    ensures jobs <= jobs'
    ensures r.Err? ==> RunJobs(engines.scan, jobs') == Err(r.error)
    ensures r.Ok? ==> Caused(NormalisedUsernames(request.usernames.GetOr([])), NormalisedEmails(request.emails.GetOr([])),
                   request.scanLocalpart, engines.scan, jobs')
    ensures r.Ok? ==>
      && RoundState(request, engines, r.value, jobs', harvested)
      && d.profiles <= r.value.profiles
      && r.value.scannedUsernames == r.value.allUsernames == d.allUsernames
      && r.value.allEmails == d.allEmails && r.value.scannedEmails == d.scannedEmails
  {
    if d.allUsernames - d.scannedUsernames == {} {
      EmptyDifference(d.allUsernames, d.scannedUsernames);
      return Ok(d), jobs;
    }
    var order;
    r, order := ScanNewUsernames(engines, d);
    UsernameHalf(request, engines, d, jobs, harvested, order, r);
    jobs' := jobs + JobsOf(UsernameScan, order);
    if r.Ok? {
      UsernamesCaused(NormalisedUsernames(request.usernames.GetOr([])), NormalisedEmails(request.emails.GetOr([])),
                      request.scanLocalpart, engines.scan, d, harvested, jobs, order);
    }
  }

  /** `if new_emails:` — the email half of a round, when any email is
      unscanned. Its jobs are appended to `jobs`; the usernames marked
      scanned are left alone. */
  method EmailStage(request: HuntRequest, engines: Engines, d: Discovery, jobs: seq<ScanJob>,
                    harvested: seq<SocialProfile>)
    returns (r: Result<Discovery, ValidationError>, jobs': seq<ScanJob>)
    requires RoundState(request, engines, d, jobs, harvested)
    requires Caused(NormalisedUsernames(request.usernames.GetOr([])), NormalisedEmails(request.emails.GetOr([])),
                   request.scanLocalpart, engines.scan, jobs)
    ensures jobs <= jobs'
    ensures r.Err? ==> RunJobs(engines.scan, jobs') == Err(r.error)
    ensures r.Ok? ==> Caused(NormalisedUsernames(request.usernames.GetOr([])), NormalisedEmails(request.emails.GetOr([])),
                   request.scanLocalpart, engines.scan, jobs')
    ensures r.Ok? ==>
      && RoundState(request, engines, r.value, jobs', harvested)
      && d.profiles <= r.value.profiles
      && r.value.scannedEmails == r.value.allEmails == d.allEmails
      && r.value.scannedUsernames == d.scannedUsernames
  {
    if d.allEmails - d.scannedEmails == {} {
      EmptyDifference(d.allEmails, d.scannedEmails);
      return Ok(d), jobs;
    }
    var order, localScanned;
    r, order, localScanned := ScanNewEmails(request.scanLocalpart, engines, d);
    jobs' := jobs + JobsOf(EmailScan, order)
             + (if localScanned then JobsOf(LocalpartScan, Localparts(order)) else []);
    EmailHalf(request, engines, d, jobs, harvested, order, localScanned, r, jobs');
    if r.Ok? {
      EmailsCaused(NormalisedUsernames(request.usernames.GetOr([])), NormalisedEmails(request.emails.GetOr([])),
                   request.scanLocalpart, engines.scan, d, harvested, jobs, order, localScanned, jobs');
    }
  }

  /** One round of the discovery loop: the unscanned usernames, then the
      unscanned emails (and their local parts), go to their scanners, and the
      identities the profiles name join the discovered ones. The round's jobs
      are appended to `jobs`; a rejected scan ends the round with the failure
      of the jobs. */
  method Round(request: HuntRequest, engines: Engines, d: Discovery, jobs: seq<ScanJob>)
    returns (next: Result<Discovery, ValidationError>, jobs': seq<ScanJob>)
    requires RoundState(request, engines, d, jobs, d.profiles)
    requires Caused(NormalisedUsernames(request.usernames.GetOr([])), NormalisedEmails(request.emails.GetOr([])),
                   request.scanLocalpart, engines.scan, jobs)
    ensures jobs <= jobs'
    ensures next.Err? ==> RunJobs(engines.scan, jobs') == Err(next.error)
    ensures next.Ok? ==> Caused(NormalisedUsernames(request.usernames.GetOr([])), NormalisedEmails(request.emails.GetOr([])),
                   request.scanLocalpart, engines.scan, jobs')
    ensures next.Ok? ==>
      && RoundState(request, engines, next.value, jobs', next.value.profiles)
      && d.profiles <= next.value.profiles
      && next.value.scannedUsernames == d.allUsernames && next.value.scannedEmails == d.allEmails
  {
    var afterUsernames, jobs1 := UsernameStage(request, engines, d, jobs, d.profiles);
    if afterUsernames.Err? {
      return afterUsernames, jobs1;
    }
    var afterEmails, jobs2 := EmailStage(request, engines, afterUsernames.value, jobs1, d.profiles);
    jobs' := jobs2;
    if afterEmails.Err? {
      return afterEmails, jobs';
    }
    var cur := afterEmails.value;
    HarvestRound(request, engines, cur, jobs', d.profiles);
    var extraU, extraE := ExtractExtras(cur.profiles);
    next := Ok(cur.(allUsernames := cur.allUsernames + extraU, allEmails := cur.allEmails + extraE));
  }

  /** The discovery loop ran to completion: neither did the scanners reject
      a value nor did the rounds run out. */
  predicate LoopCompleted(outcome: Result<PipelineResult, HuntError>) {
    outcome != Err(OutOfRounds) && !(outcome.Err? && outcome.error.ScanRejected?)
  }

  /** The discovery loop of `hunt`: rounds run until no username or email is
      left unscanned. As nothing bounds how many identities the scanners may
      report, at most `rounds` rounds run, and `OutOfRounds` is reported past
      that; a rejected scan stops the loop. */
  method Discover(request: HuntRequest, engines: Engines, rounds: nat)
    returns (stop: Option<HuntError>, d: Discovery, jobs: seq<ScanJob>)
    ensures stop.Some? ==> stop.value.ScanRejected? || stop.value == OutOfRounds
    ensures stop.Some? && stop.value.ScanRejected? ==> RunJobs(engines.scan, jobs) == Err(stop.value.error)
    ensures stop == Some(OutOfRounds) ==> RunJobs(engines.scan, jobs) == Ok(d.profiles)
    ensures stop.None? || stop == Some(OutOfRounds) ==> Caused(NormalisedUsernames(request.usernames.GetOr([])), NormalisedEmails(request.emails.GetOr([])),
                   request.scanLocalpart, engines.scan, jobs)
    ensures stop.None? ==>
      && RoundState(request, engines, d, jobs, d.profiles)
      && d.allUsernames - d.scannedUsernames == {} && d.allEmails - d.scannedEmails == {}
  {
    jobs := [];
    var usernames := NormalisedUsernames(request.usernames.GetOr([]));
    var emails := NormalisedEmails(request.emails.GetOr([]));
    d := Discovery([], usernames, emails, {}, {});
    RoundStart(request, engines);
    var round := 0;
    while true
      invariant round <= rounds
      invariant RoundState(request, engines, d, jobs, d.profiles)
      invariant Caused(NormalisedUsernames(request.usernames.GetOr([])), NormalisedEmails(request.emails.GetOr([])),
                          request.scanLocalpart, engines.scan, jobs)
      decreases rounds - round
    {
      if d.allUsernames - d.scannedUsernames == {} && d.allEmails - d.scannedEmails == {} {
        break;
      }
      if round == rounds {
        return Some(OutOfRounds), d, jobs;
      }
      var next, jobs' := Round(request, engines, d, jobs);
      jobs := jobs';
      if next.Err? {
        return Some(ScanRejected(next.error)), d, jobs;
      }
      d := next.value;
      round := round + 1;
    }
    stop := None;
  }

  /** `hunt(request=...)`: the discovery loop, then the site-list, Sherlock
      and target steps. The other outputs are the loop's final state and
      every value it handed to the scanners, in order. */
  method Hunt(request: HuntRequest, engines: Engines, rounds: nat)
    returns (outcome: Result<PipelineResult, HuntError>, loop: Discovery, jobs: seq<ScanJob>)
    // A rejected scan aborts the hunt with the first failure of the jobs.
    ensures outcome.Err? && outcome.error.ScanRejected? ==>
      RunJobs(engines.scan, jobs) == Err(outcome.error.error)
    // Otherwise the loop's profiles are exactly what the jobs gave, in order.
    ensures !(outcome.Err? && outcome.error.ScanRejected?) ==> RunJobs(engines.scan, jobs) == Ok(loop.profiles)
    // Each value went to the scanners only once the loop knew it: a username
    // from the inputs, the profiles the jobs before it gave or, with
    // local-part scanning, the local part of an earlier email; an email from
    // the inputs or those profiles; a local part from an earlier email.
    ensures !(outcome.Err? && outcome.error.ScanRejected?) ==>
      Caused(NormalisedUsernames(request.usernames.GetOr([])), NormalisedEmails(request.emails.GetOr([])),
              request.scanLocalpart, engines.scan, jobs)
    ensures LoopCompleted(outcome) ==>
      outcome == Finish(request, engines, loop.profiles, loop.allUsernames, loop.allEmails)
    // The discovered identities are the inputs, everything the profiles name
    // and, with local-part scanning, the local part of every email.
    ensures LoopCompleted(outcome) ==>
      && loop.allUsernames
         == NormalisedUsernames(request.usernames.GetOr([])) + ExtraUsernames(loop.profiles)
            + (if request.scanLocalpart then LocalpartSet(loop.allEmails) else {})
      && loop.allEmails == NormalisedEmails(request.emails.GetOr([])) + ExtraEmails(loop.profiles)
    // Every discovered identity went to its scanner set exactly once, and
    // the local parts of the emails, in their order, to the username
    // scanners.
    ensures LoopCompleted(outcome) ==>
      && (forall u :: u in loop.allUsernames <==> u in ValuesOf(jobs, UsernameScan))
      && (forall e :: e in loop.allEmails <==> e in ValuesOf(jobs, EmailScan))
      && Distinct(ValuesOf(jobs, UsernameScan)) && Distinct(ValuesOf(jobs, EmailScan))
      && ValuesOf(jobs, LocalpartScan)
         == (if request.scanLocalpart then Localparts(ValuesOf(jobs, EmailScan)) else [])
  {
    var stop;
    stop, loop, jobs := Discover(request, engines, rounds);
    if stop.Some? {
      return Err(stop.value), loop, jobs;
    }
    LoopDone(request, engines, loop, jobs);
    outcome := FinishHunt(request, engines, loop.profiles, loop.allUsernames, loop.allEmails);
  }
}
