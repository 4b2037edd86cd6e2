/** Candidate-link search: the five-platform table, the case-insensitive
    URL substring filter, the per-platform search that swallows search
    errors, and the markdown report built from all five platforms.
    The web-search service is a parameter `ddgs`: it maps a query and a
    result bound to what the search call produced. */
module SearchUtils {
  import opened Wrappers
  import opened Text

  /** One entry of the platform table: its key, its search name (unused by
      the search itself) and the URL substrings that identify it. */
  datatype Platform = Platform(name: string, searchName: string, urlPatterns: seq<string>)

  /** The platform table, in its declaration order. */
  const Platforms: seq<Platform> := [
    Platform("X (Twitter)", "X (Twitter)", ["twitter.com", "x.com"]),
    Platform("LinkedIn", "LinkedIn", ["linkedin.com"]),
    Platform("Doximity", "Doximity", ["doximity.com"]),
    Platform("Google Scholar", "Google Scholar", ["scholar.google.com", "scholar.google"]),
    Platform("Facebook", "Facebook", ["facebook.com"])
  ]

  predicate IsPlatformName(name: string) {
    exists i :: 0 <= i < |Platforms| && Platforms[i].name == name
  }

  /** The table entry with key `name` (the table lookup `SOCIAL_MEDIA_PLATFORMS[name]`). */
  function ConfigOf(name: string): (p: Platform)
    requires IsPlatformName(name)
    ensures p in Platforms && p.name == name
  {
    if Platforms[0].name == name then Platforms[0]
    else if Platforms[1].name == name then Platforms[1]
    else if Platforms[2].name == name then Platforms[2]
    else if Platforms[3].name == name then Platforms[3]
    else Platforms[4]
  }

  /** The keys of the table are distinct, so looking up an entry's own key
      finds that entry. */
  lemma ConfigOfEntry(i: nat)
    requires i < |Platforms|
    ensures IsPlatformName(Platforms[i].name) && ConfigOf(Platforms[i].name) == Platforms[i]
  {
    assert Platforms[0].name[0] == 'X' && Platforms[1].name[0] == 'L' && Platforms[2].name[0] == 'D';
    assert Platforms[3].name[0] == 'G' && Platforms[4].name[0] == 'F';
  }

  // ---------------------------------------------------------------------
  // URL matching

  /** `_matches_platform(url, patterns)`: some pattern, lower-cased, is a
      substring of the lower-cased URL. */
  predicate MatchesPlatform(url: string, patterns: seq<string>) {
    exists i :: 0 <= i < |patterns| && Contains(Lower(url), Lower(patterns[i]))
  }

  /** The match is a plain substring test at any position of the URL, not a
      test of the host name. */
  lemma MatchesPlatformIff(url: string, patterns: seq<string>)
    ensures MatchesPlatform(url, patterns) <==>
      exists i, j :: 0 <= i < |patterns| && OccursAt(Lower(url), Lower(patterns[i]), j)
  {
    forall i | 0 <= i < |patterns| {
      ContainsIff(Lower(url), Lower(patterns[i]));
    }
  }

  /** Because the test is a substring test, "x.com" inside "netflix.com" makes
      a Netflix URL count as an X (Twitter) link. */
  lemma NetflixCountsAsX()
    ensures MatchesPlatform("https://netflix.com/title", Platforms[0].urlPatterns)
  {
    var url := "https://netflix.com/title";
    var pattern := "x.com";
    LowerOfLiteral(url, url);
    LowerOfLiteral(pattern, pattern);
    assert url[14..19] == pattern;
    MatchedAt(url, Platforms[0].urlPatterns, 1, 14);
  }

  /** One pattern occurring anywhere in the lower-cased URL is a match. */
  lemma MatchedAt(url: string, patterns: seq<string>, i: nat, j: int)
    requires i < |patterns| && OccursAt(Lower(url), Lower(patterns[i]), j)
    ensures MatchesPlatform(url, patterns)
  {
    ContainsIff(Lower(url), Lower(patterns[i]));
  }

  // ---------------------------------------------------------------------
  // One platform's search

  /** A value read with `result.get(key, "")`: the key is missing, or holds
      JSON null, or holds a string. */
  datatype Field = Absent | Null | Str(value: string)

  /** One search result as the search service returns it. */
  datatype RawResult = RawResult(title: Field, href: Field, body: Field)

  /** What one search call did: it raised, or it returned its results. */
  datatype SearchResponse = Raised | Returned(results: seq<RawResult>)

  /** The search service: the response to `ddgs.text(query, max_results)`. */
  type Ddgs = (string, int) -> SearchResponse

  /** A result kept by the filter. `None` stands for a JSON null title or body. */
  datatype Match = Match(title: Option<string>, href: string, body: Option<string>)

  /** `result.get(key, "")`. */
  function GetText(f: Field): Option<string> {
    match f
    case Absent => Some("")
    case Null => None
    case Str(s) => Some(s)
  }

  /** The query sent for one platform. */
  function Query(fullName: string, platformName: string): string {
    fullName + ", radiology, " + platformName
  }

  function HrefOf(r: RawResult): string
    requires r.href != Null
  {
    GetText(r.href).value
  }

  /** The dictionary appended for a kept result: title, href and body, with
      a missing key read as "". */
  function ToMatch(r: RawResult): Match
    requires r.href != Null
  {
    Match(GetText(r.title), HrefOf(r), GetText(r.body))
  }

  predicate NoNullHref(rs: seq<RawResult>) {
    forall j :: 0 <= j < |rs| ==> rs[j].href != Null
  }

  /** How many results the loop gets through: a null href makes
      `None.lower()` raise, and the handler ends the search there. */
  function Reached(rs: seq<RawResult>): (n: nat)
    ensures n <= |rs| && NoNullHref(rs[..n])
    ensures n < |rs| ==> rs[n].href == Null
    decreases |rs|
  {
    if rs == [] || rs[0].href == Null then 0
    else
      var n := 1 + Reached(rs[1..]);
      assert rs[..n] == [rs[0]] + rs[1..][..n - 1];
      n
  }

  /** The kept results of a prefix the loop finished, in order. */
  function Matching(rs: seq<RawResult>, patterns: seq<string>): seq<Match>
    requires NoNullHref(rs)
    decreases |rs|
  {
    if rs == [] then []
    else
      var last := rs[|rs| - 1];
      Matching(rs[..|rs| - 1], patterns)
      + (if MatchesPlatform(HrefOf(last), patterns) then [ToMatch(last)] else [])
  }

  /** What `_search_platform` returns for a search response: nothing when the
      search call raised, otherwise the matches found before the loop ended. */
  function Collected(response: SearchResponse, patterns: seq<string>): seq<Match> {
    match response
    case Raised => []
    case Returned(rs) => Matching(rs[..Reached(rs)], patterns)
  }

  /** `_search_platform`: search once, keep the results whose href matches the
      platform, and return what was kept even when the search raises. */
  method SearchPlatform(ddgs: Ddgs, fullName: string, platformName: string, maxResults: int)
    returns (matchingResults: seq<Match>)
    requires IsPlatformName(platformName)
    ensures matchingResults
      == Collected(ddgs(Query(fullName, platformName), maxResults), ConfigOf(platformName).urlPatterns)
    ensures forall m :: m in matchingResults ==> MatchesPlatform(m.href, ConfigOf(platformName).urlPatterns)
  {
    var query := Query(fullName, platformName);
    matchingResults := [];
    var urlPatterns := ConfigOf(platformName).urlPatterns;
    var response := ddgs(query, maxResults);
    if response.Returned? {
      var results := response.results;
      var i := 0;
      while i < |results|
        invariant i <= Reached(results)
        invariant matchingResults == Matching(results[..i], urlPatterns)
      {
        var result := results[i];
        var href := GetText(result.href);
        if href.None? {
          // None.lower() raises AttributeError; the handler keeps what was collected.
          ReachedStops(results, i);
          break;
        }
        ReachedGoesOn(results, i);
        MatchingSnoc(results, i, urlPatterns);
        if MatchesPlatform(href.value, urlPatterns) {
          matchingResults := matchingResults
            + [Match(GetText(result.title), href.value, GetText(result.body))];
        }
        i := i + 1;
      }
    }
    CollectedMatch(response, urlPatterns);
  }

  /** The loop stops at the first null href. */
  lemma ReachedStops(rs: seq<RawResult>, i: nat)
    requires i <= Reached(rs) && i < |rs| && rs[i].href == Null
    ensures i == Reached(rs)
  {
    assert forall j :: 0 <= j < Reached(rs) ==> rs[..Reached(rs)][j] == rs[j];
  }

  /** The loop gets past every result whose href is not null. */
  lemma ReachedGoesOn(rs: seq<RawResult>, i: nat)
    requires i <= Reached(rs) && i < |rs| && rs[i].href != Null
    ensures i + 1 <= Reached(rs)
  {
  }

  /** One more result through the filter. */
  lemma MatchingSnoc(rs: seq<RawResult>, i: nat, patterns: seq<string>)
    requires i < Reached(rs)
    ensures NoNullHref(rs[..i]) && NoNullHref(rs[..i + 1])
    ensures Matching(rs[..i + 1], patterns) == Matching(rs[..i], patterns)
      + (if MatchesPlatform(HrefOf(rs[i]), patterns) then [ToMatch(rs[i])] else [])
  {
    assert forall j :: 0 <= j <= i ==> rs[..i + 1][j] == rs[..Reached(rs)][j];
    assert rs[..i + 1][..i] == rs[..i];
  }

  /** The indices of the kept results of a finished prefix. */
  ghost function MatchingIndices(rs: seq<RawResult>, patterns: seq<string>): seq<nat>
    requires NoNullHref(rs)
    decreases |rs|
  {
    if rs == [] then []
    else
      var last := rs[|rs| - 1];
      MatchingIndices(rs[..|rs| - 1], patterns)
      + (if MatchesPlatform(HrefOf(last), patterns) then [|rs| - 1] else [])
  }

  /** The filter keeps exactly the results whose href matches, in their
      original order: the matches are the results at a strictly increasing
      run of indices, every one of which matches, and every matching index
      is among them. */
  lemma {:induction false} MatchingIsOrderedSubsequence(rs: seq<RawResult>, patterns: seq<string>)
    requires NoNullHref(rs)
    ensures var idx := MatchingIndices(rs, patterns); var ms := Matching(rs, patterns);
      && |idx| == |ms|
      && (forall k :: 0 <= k < |idx| ==>
            idx[k] < |rs| && MatchesPlatform(HrefOf(rs[idx[k]]), patterns) && ms[k] == ToMatch(rs[idx[k]]))
      && (forall k, l :: 0 <= k < l < |idx| ==> idx[k] < idx[l])
      && (forall j :: 0 <= j < |rs| && MatchesPlatform(HrefOf(rs[j]), patterns) ==> j in idx)
    decreases |rs|
  {
    if rs != [] {
      var prefix := rs[..|rs| - 1];
      assert NoNullHref(prefix);
      MatchingIsOrderedSubsequence(prefix, patterns);
      forall j | 0 <= j < |prefix| ensures prefix[j] == rs[j] { }
    }
  }

  /** Every collected match has an href that matches the platform. */
  lemma {:induction false} CollectedMatch(response: SearchResponse, patterns: seq<string>)
    ensures forall m :: m in Collected(response, patterns) ==> MatchesPlatform(m.href, patterns)
  {
    if response.Returned? {
      var rs := response.results[..Reached(response.results)];
      MatchingIsOrderedSubsequence(rs, patterns);
      forall m | m in Matching(rs, patterns) ensures MatchesPlatform(m.href, patterns) {
        var k :| 0 <= k < |Matching(rs, patterns)| && Matching(rs, patterns)[k] == m;
      }
    }
  }

  // ---------------------------------------------------------------------
  // The markdown report

  /** The results kept for one platform, in the order the report lists them. */
  datatype PlatformMatches = PlatformMatches(name: string, matches: seq<Match>)

  /** The results gathered for the five platforms, in table order, each from
      its own query. */
  function PlatformResults(ddgs: Ddgs, fullName: string, maxLinks: int): (bp: seq<PlatformMatches>)
    ensures |bp| == |Platforms|
  {
    seq(|Platforms|, i requires 0 <= i < |Platforms| =>
      PlatformMatches(Platforms[i].name,
        Collected(ddgs(Query(fullName, Platforms[i].name), maxLinks), Platforms[i].urlPatterns)))
  }

  /** The body is truthy: present and non-empty. */
  predicate HasBody(m: Match) {
    m.body.Some? && m.body.value != ""
  }

  /** The lines of entry number `idx`. Every kept dictionary has a "title" key,
      so the "No title" default of the report is never used. */
  function EntryLines(idx: nat, m: Match): seq<string> {
    ["### " + NatToString(idx) + ". " + Show(m.title), "", "**URL:** " + m.href, ""]
    + (if HasBody(m) then ["**Description:** " + m.body.value, ""] else [])
    + ["---", ""]
  }

  /** The entries of a platform, numbered from 1. */
  function Entries(ms: seq<Match>): seq<string>
    decreases |ms|
  {
    if ms == [] then [] else Entries(ms[..|ms| - 1]) + EntryLines(|ms|, ms[|ms| - 1])
  }

  const NoMatchesLine := "*No matching links found.*"

  function FoundLine(n: nat): string {
    "**Found " + NatToString(n) + " matching link(s):**"
  }

  /** The section of one platform. */
  function SectionLines(p: PlatformMatches): seq<string> {
    ["## " + p.name, ""]
    + (if p.matches != [] then [FoundLine(|p.matches|), ""] + Entries(p.matches)
       else [NoMatchesLine, ""])
    + [""]
  }

  function Sections(bp: seq<PlatformMatches>): seq<string>
    decreases |bp|
  {
    if bp == [] then [] else Sections(bp[..|bp| - 1]) + SectionLines(bp[|bp| - 1])
  }

  function HeaderLines(fullName: string, maxLinks: int): seq<string> {
    [ "# Social Media Profile Search Results for " + fullName,
      "",
      "**Search Parameters:**",
      "- Name: " + fullName,
      "- Maximum results per platform: " + IntToString(maxLinks),
      "",
      "---",
      "" ]
  }

  /** `sum(len(results) for results in results_by_platform.values())`. */
  function TotalLinks(bp: seq<PlatformMatches>): nat
    decreases |bp|
  {
    if bp == [] then 0 else TotalLinks(bp[..|bp| - 1]) + |bp[|bp| - 1].matches|
  }

  function BreakdownLine(p: PlatformMatches): string {
    "- " + p.name + ": " + NatToString(|p.matches|) + " link(s)"
  }

  function Breakdown(bp: seq<PlatformMatches>): (r: seq<string>)
    ensures |r| == |bp|
    ensures forall i :: 0 <= i < |bp| ==> r[i] == BreakdownLine(bp[i])
    decreases |bp|
  {
    if bp == [] then [] else Breakdown(bp[..|bp| - 1]) + [BreakdownLine(bp[|bp| - 1])]
  }

  function TotalLine(bp: seq<PlatformMatches>): string {
    "**Total links found:** " + NatToString(TotalLinks(bp))
  }

  function SummaryLines(bp: seq<PlatformMatches>): seq<string> {
    ["## Summary", "", TotalLine(bp), "", "**Breakdown by platform:**"] + Breakdown(bp)
  }

  /** The lines of the report for the gathered results. */
  function ReportLines(fullName: string, maxLinks: int, bp: seq<PlatformMatches>): seq<string> {
    HeaderLines(fullName, maxLinks) + Sections(bp) + SummaryLines(bp)
  }

  /** `search_social_media_profiles`: search every platform in table order,
      then write the header, one section per platform and the summary, and
      join the lines with newlines. */
  method SearchSocialMediaProfiles(ddgs: Ddgs, fullName: string, maxLinks: int) returns (report: string)
    ensures report == Join(ReportLines(fullName, maxLinks, PlatformResults(ddgs, fullName, maxLinks)), "\n")
  {
    var resultsByPlatform: seq<PlatformMatches> := [];
    var i := 0;
    while i < |Platforms|
      invariant i <= |Platforms|
      invariant resultsByPlatform == PlatformResults(ddgs, fullName, maxLinks)[..i]
    {
      var platformName := Platforms[i].name;
      ConfigOfEntry(i);
      var results := SearchPlatform(ddgs, fullName, platformName, maxLinks);
      PlatformResultsSnoc(ddgs, fullName, maxLinks, i);
      resultsByPlatform := resultsByPlatform + [PlatformMatches(platformName, results)];
      i := i + 1;
    }
    assert resultsByPlatform == PlatformResults(ddgs, fullName, maxLinks);

    var markdownLines := HeaderLines(fullName, maxLinks);
    markdownLines := AppendSections(markdownLines, resultsByPlatform);
    markdownLines := AppendSummary(markdownLines, resultsByPlatform);
    report := Join(markdownLines, "\n");
  }

  lemma PlatformResultsSnoc(ddgs: Ddgs, fullName: string, maxLinks: int, i: nat)
    requires i < |Platforms|
    ensures var bp := PlatformResults(ddgs, fullName, maxLinks);
      bp[..i + 1] == bp[..i] + [PlatformMatches(Platforms[i].name,
        Collected(ddgs(Query(fullName, Platforms[i].name), maxLinks), Platforms[i].urlPatterns))]
  {
  }

  /** The platform sections of the report, in the order of `resultsByPlatform`,
      appended to `lines`. */
  method AppendSections(lines: seq<string>, resultsByPlatform: seq<PlatformMatches>) returns (out: seq<string>)
    ensures out == lines + Sections(resultsByPlatform)
  {
    out := lines;
    var k := 0;
    while k < |resultsByPlatform|
      invariant k <= |resultsByPlatform|
      invariant out == lines + Sections(resultsByPlatform[..k])
    {
      out := AppendSection(out, resultsByPlatform[k]);
      SectionsSnoc(resultsByPlatform, k);
      AppendAfter(lines, Sections(resultsByPlatform[..k]), SectionLines(resultsByPlatform[k]));
      k := k + 1;
    }
    assert resultsByPlatform[..k] == resultsByPlatform;
  }

  /** Appending to an extended list of lines extends it further. */
  lemma AppendAfter(lines: seq<string>, done: seq<string>, next: seq<string>)
    ensures (lines + done) + next == lines + (done + next)
  {
  }

  lemma SectionsSnoc(bp: seq<PlatformMatches>, k: nat)
    requires k < |bp|
    ensures Sections(bp[..k + 1]) == Sections(bp[..k]) + SectionLines(bp[k])
  {
    assert bp[..k + 1][..k] == bp[..k];
  }

  /** The summary of the report: the total over all platforms, then one
      breakdown line per platform, appended to `lines`. */
  method AppendSummary(lines: seq<string>, resultsByPlatform: seq<PlatformMatches>) returns (out: seq<string>)
    ensures out == lines + SummaryLines(resultsByPlatform)
  {
    var totalLinks := TotalLinks(resultsByPlatform);
    out := lines
      + ["## Summary", "", "**Total links found:** " + NatToString(totalLinks), "", "**Breakdown by platform:**"];
    var withTotal := out;
    var b := 0;
    while b < |resultsByPlatform|
      invariant b <= |resultsByPlatform|
      invariant out == withTotal + Breakdown(resultsByPlatform[..b])
    {
      var p := resultsByPlatform[b];
      out := out + ["- " + p.name + ": " + NatToString(|p.matches|) + " link(s)"];
      assert resultsByPlatform[..b + 1][..b] == resultsByPlatform[..b];
      b := b + 1;
    }
    assert resultsByPlatform[..b] == resultsByPlatform;
  }

  /** The body of the section loop of the report: append the section of one
      platform to `lines`. */
  method AppendSection(lines: seq<string>, p: PlatformMatches) returns (out: seq<string>)
    ensures out == lines + SectionLines(p)
  {
    out := lines + ["## " + p.name, ""];
    if p.matches != [] {
      out := out + [FoundLine(|p.matches|), ""];
      out := AppendEntries(out, p.matches);
    } else {
      out := out + [NoMatchesLine, ""];
    }
    out := out + [""];
  }

  /** The inner loop of the report: append the numbered entries of `ms` to
      `lines`. */
  method AppendEntries(lines: seq<string>, ms: seq<Match>) returns (out: seq<string>)
    ensures out == lines + Entries(ms)
  {
    out := lines;
    var j := 0;
    while j < |ms|
      invariant j <= |ms|
      invariant out == lines + Entries(ms[..j])
    {
      var entry := EntryOf(j + 1, ms[j]);
      EntriesSnoc(ms, j);
      AppendAfter(lines, Entries(ms[..j]), entry);
      out := out + entry;
      j := j + 1;
    }
    assert ms[..j] == ms;
  }

  /** The lines the report appends for one result. */
  method EntryOf(idx: nat, result: Match) returns (entry: seq<string>)
    ensures entry == EntryLines(idx, result)
  {
    entry := ["### " + NatToString(idx) + ". " + Show(result.title), "", "**URL:** " + result.href, ""];
    if HasBody(result) {
      entry := entry + ["**Description:** " + result.body.value, ""];
    }
    entry := entry + ["---", ""];
  }

  lemma EntriesSnoc(ms: seq<Match>, j: nat)
    requires j < |ms|
    ensures Entries(ms[..j + 1]) == Entries(ms[..j]) + EntryLines(j + 1, ms[j])
  {
    assert ms[..j + 1][..j] == ms[..j];
  }

  // ---------------------------------------------------------------------
  // What the report says

  /** The lines of `lines` that start with `prefix`, in order. */
  function LinesWith(lines: seq<string>, prefix: string): seq<string>
    decreases |lines|
  {
    if lines == [] then []
    else
      var last := lines[|lines| - 1];
      LinesWith(lines[..|lines| - 1], prefix) + (if StartsWith(last, prefix) then [last] else [])
  }

  lemma {:induction false} LinesWithAppend(a: seq<string>, b: seq<string>, p: string)
    ensures LinesWith(a + b, p) == LinesWith(a, p) + LinesWith(b, p)
    decreases |b|
  {
    if b == [] {
      assert a + b == a;
    } else {
      LinesWithAppend(a, b[..|b| - 1], p);
      assert (a + b)[..|a + b| - 1] == a + b[..|b| - 1];
    }
  }

  lemma {:induction false} LinesWithNone(lines: seq<string>, p: string)
    requires forall i :: 0 <= i < |lines| ==> !StartsWith(lines[i], p)
    ensures LinesWith(lines, p) == []
    decreases |lines|
  {
    if lines != [] {
      LinesWithNone(lines[..|lines| - 1], p);
    }
  }

  lemma LinesWithOne(lines: seq<string>, p: string, i: nat)
    requires i < |lines| && StartsWith(lines[i], p)
    requires forall j :: 0 <= j < |lines| && j != i ==> !StartsWith(lines[j], p)
    ensures LinesWith(lines, p) == [lines[i]]
  {
    var a, b := lines[..i], lines[i + 1..];
    assert lines == a + [lines[i]] + b;
    LinesWithNone(a, p);
    LinesWithNone(b, p);
    LinesWithAppend(a + [lines[i]], b, p);
    LinesWithAppend(a, [lines[i]], p);
  }

  /** A line of `lines` that starts with `p` is among `LinesWith(lines, p)`. */
  lemma {:induction false} LinesWithHas(lines: seq<string>, p: string, x: string)
    requires x in lines && StartsWith(x, p)
    ensures x in LinesWith(lines, p)
    decreases |lines|
  {
    if lines[|lines| - 1] != x {
      assert x in lines[..|lines| - 1];
      LinesWithHas(lines[..|lines| - 1], p, x);
    }
  }

  lemma DiffersAt(a: string, x: string, p: string, i: nat)
    requires i < |a| && i < |p| && a[i] != p[i]
    ensures !StartsWith(a + x, p)
  {
    assert (a + x)[i] == a[i];
  }

  lemma NotPrefix(a: string, p: string, i: nat)
    requires i < |a| && i < |p| && a[i] != p[i]
    ensures !StartsWith(a, p)
  {
    assert |p| <= |a| ==> a[..|p|][i] == a[i];
  }

  lemma PrefixOf(p: string, x: string)
    ensures StartsWith(p + x, p)
  {
    assert (p + x)[..|p|] == p;
  }

  const HeadingMark := "## "
  const UrlMark := "**URL:** "
  const TitleMark := "### "
  const DescriptionMark := "**Description:** "
  const MarkerMark := "*N"

  function TitleLine(idx: nat, m: Match): string {
    TitleMark + NatToString(idx) + ". " + Show(m.title)
  }

  /** Each line of an entry is its title, its URL line, its description,
      a blank or the rule. */
  lemma EntryLineForms(idx: nat, m: Match)
    ensures var lines := EntryLines(idx, m);
      && lines[0] == TitleMark + (NatToString(idx) + ". " + Show(m.title))
      && lines[2] == UrlMark + m.href
      && (forall j :: 0 <= j < |lines| ==>
            lines[j] in {lines[0], "", lines[2], DescriptionMark + m.body.GetOr(""), "---"})
      && (forall j :: 0 <= j < |lines| && j != 4 ==> lines[j] in {lines[0], "", lines[2], "---"})
      && (HasBody(m) <==> |lines| == 8)
      && (HasBody(m) ==> lines[4] == DescriptionMark + m.body.value)
  {
  }

  /** No entry line is a section heading. */
  lemma EntryNoHeading(idx: nat, m: Match)
    ensures LinesWith(EntryLines(idx, m), HeadingMark) == []
  {
    EntryLineForms(idx, m);
    DiffersAt(TitleMark, NatToString(idx) + ". " + Show(m.title), HeadingMark, 2);
    DiffersAt(UrlMark, m.href, HeadingMark, 0);
    DiffersAt(DescriptionMark, m.body.GetOr(""), HeadingMark, 0);
    LinesWithNone(EntryLines(idx, m), HeadingMark);
  }

  /** No entry line is the "no matches" marker. */
  lemma EntryNoMarker(idx: nat, m: Match)
    ensures LinesWith(EntryLines(idx, m), MarkerMark) == []
  {
    EntryLineForms(idx, m);
    DiffersAt(TitleMark, NatToString(idx) + ". " + Show(m.title), MarkerMark, 0);
    DiffersAt(UrlMark, m.href, MarkerMark, 1);
    DiffersAt(DescriptionMark, m.body.GetOr(""), MarkerMark, 1);
    LinesWithNone(EntryLines(idx, m), MarkerMark);
  }

  /** An entry has exactly one URL line, that of its href. */
  lemma EntryUrl(idx: nat, m: Match)
    ensures LinesWith(EntryLines(idx, m), UrlMark) == [UrlMark + m.href]
  {
    EntryLineForms(idx, m);
    PrefixOf(UrlMark, m.href);
    DiffersAt(TitleMark, NatToString(idx) + ". " + Show(m.title), UrlMark, 0);
    DiffersAt(DescriptionMark, m.body.GetOr(""), UrlMark, 2);
    LinesWithOne(EntryLines(idx, m), UrlMark, 2);
  }

  /** An entry has exactly one title line, carrying its number. */
  lemma EntryTitle(idx: nat, m: Match)
    ensures LinesWith(EntryLines(idx, m), TitleMark) == [TitleLine(idx, m)]
  {
    EntryLineForms(idx, m);
    PrefixOf(TitleMark, NatToString(idx) + ". " + Show(m.title));
    DiffersAt(UrlMark, m.href, TitleMark, 0);
    DiffersAt(DescriptionMark, m.body.GetOr(""), TitleMark, 0);
    LinesWithOne(EntryLines(idx, m), TitleMark, 0);
  }

  /** An entry has a description line exactly when its body is non-empty. */
  lemma EntryDescription(idx: nat, m: Match)
    ensures LinesWith(EntryLines(idx, m), DescriptionMark)
         == if HasBody(m) then [DescriptionMark + m.body.value] else []
  {
    EntryLineForms(idx, m);
    DiffersAt(TitleMark, NatToString(idx) + ". " + Show(m.title), DescriptionMark, 0);
    DiffersAt(UrlMark, m.href, DescriptionMark, 2);
    if HasBody(m) {
      PrefixOf(DescriptionMark, m.body.value);
      LinesWithOne(EntryLines(idx, m), DescriptionMark, 4);
    } else {
      LinesWithNone(EntryLines(idx, m), DescriptionMark);
    }
  }

  /** The URL lines of some matches, in order. */
  function UrlLines(ms: seq<Match>): (r: seq<string>)
    ensures |r| == |ms|
  {
    seq(|ms|, k requires 0 <= k < |ms| => UrlMark + ms[k].href)
  }

  /** The numbered title lines of some matches: 1, 2, ... in order. */
  function TitleLines(ms: seq<Match>): (r: seq<string>)
    ensures |r| == |ms|
  {
    seq(|ms|, k requires 0 <= k < |ms| => TitleLine(k + 1, ms[k]))
  }

  /** The entries of a platform hold no section heading. */
  lemma {:induction false} EntriesNoHeading(ms: seq<Match>)
    ensures LinesWith(Entries(ms), HeadingMark) == []
    decreases |ms|
  {
    if ms != [] {
      var n := |ms|;
      EntriesNoHeading(ms[..n - 1]);
      EntryNoHeading(n, ms[n - 1]);
      LinesWithAppend(Entries(ms[..n - 1]), EntryLines(n, ms[n - 1]), HeadingMark);
    }
  }

  /** The entries of a platform never hold the "no matches" marker. */
  lemma {:induction false} EntriesNoMarker(ms: seq<Match>)
    ensures LinesWith(Entries(ms), MarkerMark) == []
    decreases |ms|
  {
    if ms != [] {
      var n := |ms|;
      EntriesNoMarker(ms[..n - 1]);
      EntryNoMarker(n, ms[n - 1]);
      LinesWithAppend(Entries(ms[..n - 1]), EntryLines(n, ms[n - 1]), MarkerMark);
    }
  }

  /** The URL lines of the entries are the matches' hrefs, in order. */
  lemma {:induction false} EntriesUrls(ms: seq<Match>)
    ensures LinesWith(Entries(ms), UrlMark) == UrlLines(ms)
    decreases |ms|
  {
    if ms != [] {
      var n := |ms|;
      var pre := ms[..n - 1];
      EntriesUrls(pre);
      EntryUrl(n, ms[n - 1]);
      LinesWithAppend(Entries(pre), EntryLines(n, ms[n - 1]), UrlMark);
      assert UrlLines(ms) == UrlLines(pre) + [UrlMark + ms[n - 1].href];
    }
  }

  /** The title lines of the entries are numbered 1, 2, ... in the order of
      the matches. */
  lemma {:induction false} EntriesNumbered(ms: seq<Match>)
    ensures LinesWith(Entries(ms), TitleMark) == TitleLines(ms)
    decreases |ms|
  {
    if ms != [] {
      var n := |ms|;
      var pre := ms[..n - 1];
      EntriesNumbered(pre);
      EntryTitle(n, ms[n - 1]);
      LinesWithAppend(Entries(pre), EntryLines(n, ms[n - 1]), TitleMark);
      assert TitleLines(ms) == TitleLines(pre) + [TitleLine(n, ms[n - 1])];
    }
  }

  /** The lines of a section, taken apart: its heading, then either the
      count line and the entries or the "no matches" marker. */
  lemma SectionParts(p: PlatformMatches)
    ensures p.matches != [] ==>
      SectionLines(p) == [HeadingMark + p.name, ""] + ([FoundLine(|p.matches|), ""] + Entries(p.matches)) + [""]
    ensures p.matches == [] ==>
      SectionLines(p) == [HeadingMark + p.name, "", NoMatchesLine, "", ""]
  {
  }

  /** The heading lines of a section hold its heading and nothing else marked. */
  lemma SectionHeadLines(p: PlatformMatches)
    ensures LinesWith([HeadingMark + p.name, ""], HeadingMark) == [HeadingMark + p.name]
    ensures LinesWith([HeadingMark + p.name, ""], UrlMark) == []
    ensures LinesWith([HeadingMark + p.name, ""], MarkerMark) == []
    ensures LinesWith([""], HeadingMark) == [] && LinesWith([""], UrlMark) == [] && LinesWith([""], MarkerMark) == []
  {
    PrefixOf(HeadingMark, p.name);
    DiffersAt(HeadingMark, p.name, UrlMark, 0);
    DiffersAt(HeadingMark, p.name, MarkerMark, 0);
    LinesWithOne([HeadingMark + p.name, ""], HeadingMark, 0);
    LinesWithNone([HeadingMark + p.name, ""], UrlMark);
    LinesWithNone([HeadingMark + p.name, ""], MarkerMark);
    LinesWithNone([""], HeadingMark);
    LinesWithNone([""], UrlMark);
    LinesWithNone([""], MarkerMark);
  }

  /** The count line of a section is not a heading, URL line or marker. */
  lemma SectionFoundLines(p: PlatformMatches)
    ensures LinesWith([FoundLine(|p.matches|), ""], HeadingMark) == []
    ensures LinesWith([FoundLine(|p.matches|), ""], UrlMark) == []
    ensures LinesWith([FoundLine(|p.matches|), ""], MarkerMark) == []
  {
    var rest := NatToString(|p.matches|) + " matching link(s):**";
    assert FoundLine(|p.matches|) == "**Found " + rest;
    DiffersAt("**Found ", rest, HeadingMark, 0);
    DiffersAt("**Found ", rest, UrlMark, 2);
    DiffersAt("**Found ", rest, MarkerMark, 1);
    LinesWithNone([FoundLine(|p.matches|), ""], HeadingMark);
    LinesWithNone([FoundLine(|p.matches|), ""], UrlMark);
    LinesWithNone([FoundLine(|p.matches|), ""], MarkerMark);
  }

  /** `LinesWith` over the three pieces of a section with matches. */
  lemma LinesWithThree(a: seq<string>, b: seq<string>, c: seq<string>, d: seq<string>, p: string)
    ensures LinesWith(a + (b + c) + d, p) == LinesWith(a, p) + (LinesWith(b, p) + LinesWith(c, p)) + LinesWith(d, p)
  {
    LinesWithAppend(b, c, p);
    LinesWithAppend(a, b + c, p);
    LinesWithAppend(a + (b + c), d, p);
  }

  /** A section has exactly one heading, its platform's. */
  lemma SectionHeading(p: PlatformMatches)
    ensures LinesWith(SectionLines(p), HeadingMark) == [HeadingMark + p.name]
  {
    SectionParts(p);
    SectionHeadLines(p);
    SectionFoundLines(p);
    if p.matches != [] {
      EntriesNoHeading(p.matches);
      LinesWithThree([HeadingMark + p.name, ""], [FoundLine(|p.matches|), ""], Entries(p.matches), [""], HeadingMark);
    } else {
      DiffersAt(MarkerMark, NoMatchesLine[2..], HeadingMark, 0);
      assert NoMatchesLine == MarkerMark + NoMatchesLine[2..];
      LinesWithOne(SectionLines(p), HeadingMark, 0);
    }
  }

  /** The URL lines of a section are its matches' hrefs, in order. */
  lemma SectionUrls(p: PlatformMatches)
    ensures LinesWith(SectionLines(p), UrlMark) == UrlLines(p.matches)
  {
    SectionParts(p);
    SectionHeadLines(p);
    SectionFoundLines(p);
    if p.matches != [] {
      EntriesUrls(p.matches);
      LinesWithThree([HeadingMark + p.name, ""], [FoundLine(|p.matches|), ""], Entries(p.matches), [""], UrlMark);
    } else {
      DiffersAt(MarkerMark, NoMatchesLine[2..], UrlMark, 1);
      assert NoMatchesLine == MarkerMark + NoMatchesLine[2..];
      DiffersAt(HeadingMark, p.name, UrlMark, 0);
      LinesWithNone(SectionLines(p), UrlMark);
    }
  }

  /** A section shows the "no matches" marker exactly when the platform kept
      no result. */
  lemma SectionMarker(p: PlatformMatches)
    ensures NoMatchesLine in SectionLines(p) <==> p.matches == []
  {
    SectionParts(p);
    if p.matches != [] {
      SectionHeadLines(p);
    SectionFoundLines(p);
      EntriesNoMarker(p.matches);
      LinesWithThree([HeadingMark + p.name, ""], [FoundLine(|p.matches|), ""], Entries(p.matches), [""], MarkerMark);
      if NoMatchesLine in SectionLines(p) {
        assert NoMatchesLine == MarkerMark + NoMatchesLine[2..];
        PrefixOf(MarkerMark, NoMatchesLine[2..]);
        LinesWithHas(SectionLines(p), MarkerMark, NoMatchesLine);
        assert false;
      }
    } else {
      assert SectionLines(p)[2] == NoMatchesLine;
    }
  }

  /** The "## " headings of the platform sections, in order. */
  function SectionHeadings(bp: seq<PlatformMatches>): (r: seq<string>)
    ensures |r| == |bp|
  {
    seq(|bp|, i requires 0 <= i < |bp| => HeadingMark + bp[i].name)
  }

  /** All URL lines of all platforms, platform by platform. */
  function AllUrlLines(bp: seq<PlatformMatches>): (r: seq<string>)
    ensures |r| == TotalLinks(bp)
    decreases |bp|
  {
    if bp == [] then [] else AllUrlLines(bp[..|bp| - 1]) + UrlLines(bp[|bp| - 1].matches)
  }

  lemma {:induction false} SectionsMarks(bp: seq<PlatformMatches>)
    ensures LinesWith(Sections(bp), HeadingMark) == SectionHeadings(bp)
    ensures LinesWith(Sections(bp), UrlMark) == AllUrlLines(bp)
    decreases |bp|
  {
    if bp != [] {
      var pre := bp[..|bp| - 1];
      SectionsMarks(pre);
      SectionHeading(bp[|bp| - 1]);
      SectionUrls(bp[|bp| - 1]);
      LinesWithAppend(Sections(pre), SectionLines(bp[|bp| - 1]), HeadingMark);
      LinesWithAppend(Sections(pre), SectionLines(bp[|bp| - 1]), UrlMark);
      assert SectionHeadings(bp) == SectionHeadings(pre) + [HeadingMark + bp[|bp| - 1].name];
    }
  }

  /** The header holds no section heading and no URL line. */
  lemma HeaderMarks(fullName: string, maxLinks: int)
    ensures LinesWith(HeaderLines(fullName, maxLinks), HeadingMark) == []
    ensures LinesWith(HeaderLines(fullName, maxLinks), UrlMark) == []
  {
    var h := HeaderLines(fullName, maxLinks);
    forall j | 0 <= j < |h| ensures !StartsWith(h[j], HeadingMark) && !StartsWith(h[j], UrlMark) {
      if j == 0 {
        assert h[0] == "# Social Media Profile Search Results for " + fullName;
        DiffersAt("# Social Media Profile Search Results for ", fullName, HeadingMark, 1);
        DiffersAt("# Social Media Profile Search Results for ", fullName, UrlMark, 0);
      } else if j == 3 {
        DiffersAt("- Name: ", fullName, HeadingMark, 0);
        DiffersAt("- Name: ", fullName, UrlMark, 0);
      } else if j == 4 {
        DiffersAt("- Maximum results per platform: ", IntToString(maxLinks), HeadingMark, 0);
        DiffersAt("- Maximum results per platform: ", IntToString(maxLinks), UrlMark, 0);
      } else if j == 2 {
        NotPrefix("**Search Parameters:**", HeadingMark, 0);
        NotPrefix("**Search Parameters:**", UrlMark, 2);
      } else if j == 6 {
        NotPrefix("---", HeadingMark, 0);
        NotPrefix("---", UrlMark, 0);
      }
    }
    LinesWithNone(h, HeadingMark);
    LinesWithNone(h, UrlMark);
  }

  /** The breakdown lines are neither headings nor URL lines. */
  lemma BreakdownMarks(bp: seq<PlatformMatches>)
    ensures LinesWith(Breakdown(bp), HeadingMark) == []
    ensures LinesWith(Breakdown(bp), UrlMark) == []
  {
    var bd := Breakdown(bp);
    forall j | 0 <= j < |bd| ensures !StartsWith(bd[j], HeadingMark) && !StartsWith(bd[j], UrlMark) {
      var rest := bp[j].name + ": " + NatToString(|bp[j].matches|) + " link(s)";
      assert bd[j] == "- " + rest;
      DiffersAt("- ", rest, HeadingMark, 0);
      DiffersAt("- ", rest, UrlMark, 0);
    }
    LinesWithNone(bd, HeadingMark);
    LinesWithNone(bd, UrlMark);
  }

  /** The summary holds one heading, its own, and no URL line. */
  lemma SummaryMarks(bp: seq<PlatformMatches>)
    ensures LinesWith(SummaryLines(bp), HeadingMark) == [HeadingMark + "Summary"]
    ensures LinesWith(SummaryLines(bp), UrlMark) == []
  {
    var top := ["## Summary", "", TotalLine(bp), "", "**Breakdown by platform:**"];
    var bd := Breakdown(bp);
    forall j | 0 <= j < |top| ensures j != 0 ==> !StartsWith(top[j], HeadingMark)
      ensures !StartsWith(top[j], UrlMark)
    {
      if j == 2 {
        assert TotalLine(bp) == "**Total links found:** " + NatToString(TotalLinks(bp));
        DiffersAt("**Total links found:** ", NatToString(TotalLinks(bp)), HeadingMark, 0);
        DiffersAt("**Total links found:** ", NatToString(TotalLinks(bp)), UrlMark, 2);
      } else if j == 0 {
        NotPrefix("## Summary", UrlMark, 0);
      } else if j == 4 {
        NotPrefix("**Breakdown by platform:**", HeadingMark, 0);
        NotPrefix("**Breakdown by platform:**", UrlMark, 2);
      }
    }
    assert "## Summary" == HeadingMark + "Summary";
    PrefixOf(HeadingMark, "Summary");
    LinesWithOne(top, HeadingMark, 0);
    LinesWithNone(top, UrlMark);
    BreakdownMarks(bp);
    LinesWithAppend(top, bd, HeadingMark);
    LinesWithAppend(top, bd, UrlMark);
  }

  /** The report has exactly one "## " heading per platform, in the order of
      `bp`, followed by the summary heading. */
  lemma ReportHeadings(fullName: string, maxLinks: int, bp: seq<PlatformMatches>)
    ensures LinesWith(ReportLines(fullName, maxLinks, bp), HeadingMark)
         == SectionHeadings(bp) + [HeadingMark + "Summary"]
  {
    var h, b, t := HeaderLines(fullName, maxLinks), Sections(bp), SummaryLines(bp);
    HeaderMarks(fullName, maxLinks);
    SummaryMarks(bp);
    SectionsMarks(bp);
    assert ReportLines(fullName, maxLinks, bp) == (h + b) + t;
    LinesWithAppend(h, b, HeadingMark);
    var front := LinesWith(h + b, HeadingMark);
    assert front == SectionHeadings(bp);
    LinesWithAppend(h + b, t, HeadingMark);
  }

  /** The "**URL:** " lines of the report are the hrefs of all kept matches,
      platform by platform, and there are as many as the total the summary
      states. */
  lemma ReportUrls(fullName: string, maxLinks: int, bp: seq<PlatformMatches>)
    ensures LinesWith(ReportLines(fullName, maxLinks, bp), UrlMark) == AllUrlLines(bp)
    ensures |LinesWith(ReportLines(fullName, maxLinks, bp), UrlMark)| == TotalLinks(bp)
  {
    var h, b, t := HeaderLines(fullName, maxLinks), Sections(bp), SummaryLines(bp);
    HeaderMarks(fullName, maxLinks);
    SummaryMarks(bp);
    SectionsMarks(bp);
    LinesWithAppend(h, b, UrlMark);
    LinesWithAppend(h + b, t, UrlMark);
  }

  /** The report ends with the summary: the total line, then one breakdown
      line per platform with that platform's count. */
  lemma ReportSummary(fullName: string, maxLinks: int, bp: seq<PlatformMatches>)
    ensures var r := ReportLines(fullName, maxLinks, bp);
      && |r| >= |bp| + 5
      && r[|r| - |bp| - 3] == TotalLine(bp)
      && forall i :: 0 <= i < |bp| ==> r[|r| - |bp| + i] == BreakdownLine(bp[i])
  {
    SummaryAtEnd(ReportLines(fullName, maxLinks, bp), HeaderLines(fullName, maxLinks) + Sections(bp), bp);
  }

  /** Whatever comes before it, the summary is the last `|bp| + 5` lines. */
  lemma SummaryAtEnd(r: seq<string>, front: seq<string>, bp: seq<PlatformMatches>)
    requires r == front + SummaryLines(bp)
    ensures |r| >= |bp| + 5
      && r[|r| - |bp| - 3] == TotalLine(bp)
      && forall i :: 0 <= i < |bp| ==> r[|r| - |bp| + i] == BreakdownLine(bp[i])
  {
    assert r[|r| - |bp| - 3] == SummaryLines(bp)[2];
    forall i | 0 <= i < |bp| ensures r[|r| - |bp| + i] == BreakdownLine(bp[i]) {
      assert r[|r| - |bp| + i] == Breakdown(bp)[i];
    }
  }

  /** For the gathered results, the report's sections are X (Twitter),
      LinkedIn, Doximity, Google Scholar and Facebook, in that order, then
      the summary. */
  lemma ReportSectionsInTableOrder(ddgs: Ddgs, fullName: string, maxLinks: int)
    ensures LinesWith(ReportLines(fullName, maxLinks, PlatformResults(ddgs, fullName, maxLinks)), HeadingMark)
         == [HeadingMark + "X (Twitter)", HeadingMark + "LinkedIn", HeadingMark + "Doximity",
             HeadingMark + "Google Scholar", HeadingMark + "Facebook", HeadingMark + "Summary"]
  {
    var bp := PlatformResults(ddgs, fullName, maxLinks);
    ReportHeadings(fullName, maxLinks, bp);
    PlatformNames(ddgs, fullName, maxLinks);
    HeadingsInTableOrder(bp);
  }

  /** The gathered results carry the platform names in table order. */
  lemma PlatformNames(ddgs: Ddgs, fullName: string, maxLinks: int)
    ensures var bp := PlatformResults(ddgs, fullName, maxLinks);
      |bp| == 5 && bp[0].name == "X (Twitter)" && bp[1].name == "LinkedIn" && bp[2].name == "Doximity"
      && bp[3].name == "Google Scholar" && bp[4].name == "Facebook"
  {
  }

  lemma HeadingsInTableOrder(bp: seq<PlatformMatches>)
    requires |bp| == 5 && bp[0].name == "X (Twitter)" && bp[1].name == "LinkedIn" && bp[2].name == "Doximity"
      && bp[3].name == "Google Scholar" && bp[4].name == "Facebook"
    ensures SectionHeadings(bp) + [HeadingMark + "Summary"]
         == [HeadingMark + "X (Twitter)", HeadingMark + "LinkedIn", HeadingMark + "Doximity",
             HeadingMark + "Google Scholar", HeadingMark + "Facebook", HeadingMark + "Summary"]
  {
    var hs := SectionHeadings(bp);
    assert hs == [HeadingMark + bp[0].name, HeadingMark + bp[1].name, HeadingMark + bp[2].name,
                  HeadingMark + bp[3].name, HeadingMark + bp[4].name];
  }

  /** A failing Facebook search leaves the Facebook section with the
      "no matches" marker, while every other platform still gets what its own
      search returned. */
  lemma FacebookSearchFails(ddgs: Ddgs, fullName: string, maxLinks: int)
    requires ddgs(Query(fullName, "Facebook"), maxLinks) == Raised
    ensures var bp := PlatformResults(ddgs, fullName, maxLinks);
      && bp[4] == PlatformMatches("Facebook", [])
      && NoMatchesLine in SectionLines(bp[4])
      && forall i :: 0 <= i < 4 ==>
           bp[i].matches == Collected(ddgs(Query(fullName, Platforms[i].name), maxLinks), Platforms[i].urlPatterns)
  {
    var bp := PlatformResults(ddgs, fullName, maxLinks);
    SectionMarker(bp[4]);
  }
}
