/** The GitHub Trending skill script
    (nanobot/skills/github-trending/scripts/fetch_trending.py): the page URL
    for a language and period, the text report of the parsed projects, and
    the period chosen from the command-line flags. Fetching and HTML parsing
    are not modelled. */
module Trending {
  import opened Common

  const BaseUrl: string := "https://github.com/trending"

  /** `SINCE_OPTIONS`: each period maps to itself. */
  predicate SinceOption(since: string) {
    since == "daily" || since == "weekly" || since == "monthly"
  }

  /** `lang.replace(" ", "%20")`. */
  function EncodeSpaces(s: string): (r: string)
    ensures ' ' !in r
    ensures |r| >= |s|
  {
    if s == [] then []
    else (if s[0] == ' ' then "%20" else [s[0]]) + EncodeSpaces(s[1..])
  }

  /** The inverse reading of `%20` as a space. */
  function DecodeSpaces(s: string): (r: string)
    decreases |s|
  {
    if s == [] then []
    else if |s| >= 3 && s[..3] == "%20" then " " + DecodeSpaces(s[3..])
    else [s[0]] + DecodeSpaces(s[1..])
  }

  /** Encoding loses nothing for a language name without `%`. */
  lemma {:induction false} EncodeDecode(s: string)
    requires '%' !in s
    ensures DecodeSpaces(EncodeSpaces(s)) == s
  {
    if s != [] {
      EncodeDecode(s[1..]);
      var rest := EncodeSpaces(s[1..]);
      if s[0] == ' ' {
        assert EncodeSpaces(s) == "%20" + rest;
        assert ("%20" + rest)[..3] == "%20" && ("%20" + rest)[3..] == rest;
      } else {
        assert EncodeSpaces(s) == [s[0]] + rest;
        assert ([s[0]] + rest)[1..] == rest;
      }
      assert s == [s[0]] + s[1..];
    }
  }

  /** The path segment of a truthy language: lower-cased, stripped, spaces
      encoded. */
  function LanguageSegment(language: string): string {
    EncodeSpaces(Strip(Lower(language)))
  }

  /** The `/<lang>` part of the URL: present for a truthy language. */
  function LanguagePart(language: Option<string>): string {
    if language.Some? && language.value != "" then "/" + LanguageSegment(language.value) else ""
  }

  /** `build_url(language, since)`: the base URL, then `/<lang>` for a
      truthy language, then `?since=<since>` for a known period. */
  function BuildUrl(language: Option<string>, since: string): string
  {
    var url := BaseUrl + LanguagePart(language);
    var params := if SinceOption(since) then ["since=" + since] else [];
    if params != [] then url + "?" + Join(params, "&") else url
  }

  /** The URL is the base, then the language segment (which holds no
      space), then the period query exactly for a known period; and for a
      language without `?` the URL has a query exactly then. */
  lemma BuildUrlShape(language: Option<string>, since: string)
    ensures StartsWith(BuildUrl(language, since), BaseUrl)
    ensures ' ' !in LanguagePart(language)
    ensures BuildUrl(language, since)
            == BaseUrl + LanguagePart(language) + (if SinceOption(since) then "?since=" + since else "")
    ensures (language.None? || '?' !in language.value) ==>
              ('?' in BuildUrl(language, since) <==> SinceOption(since))
  {
    var seg := LanguagePart(language);
    var query := if SinceOption(since) then "?since=" + since else "";
    BuildUrlParts(language, since);
    ConcatEnds(BaseUrl, seg);
    StartsWithConcat(BaseUrl, BaseUrl + seg, query);
    LanguagePartNoSpace(language);
    if language.None? || '?' !in language.value {
      LanguagePartNoQuestion(language);
      assert '?' !in BaseUrl;
      NoCharConcat(BaseUrl, seg, '?');
      if SinceOption(since) {
        assert (BaseUrl + seg + query)[|BaseUrl + seg|] == '?';
      } else {
        assert BaseUrl + seg + query == BaseUrl + seg;
      }
    }
  }

  /** `build_url` appends the language part, then the period query. */
  lemma BuildUrlParts(language: Option<string>, since: string)
    ensures BuildUrl(language, since)
            == BaseUrl + LanguagePart(language) + (if SinceOption(since) then "?since=" + since else "")
  {
    var url := BaseUrl + LanguagePart(language);
    if SinceOption(since) {
      PeriodQuery(url, since);
    }
  }

  /** The query of a single period parameter. */
  lemma PeriodQuery(url: string, since: string)
    ensures url + "?" + Join(["since=" + since], "&") == url + ("?since=" + since)
  {
    JoinSingle("since=" + since, "&");
    assert "?" + ("since=" + since) == "?since=" + since;
  }

  lemma NoCharConcat(a: string, b: string, c: char)
    requires c !in a && c !in b
    ensures c !in a + b
  {
  }

  lemma LanguagePartNoSpace(language: Option<string>)
    ensures ' ' !in LanguagePart(language)
  {
    if language.Some? && language.value != "" {
      assert LanguagePart(language) == "/" + LanguageSegment(language.value);
    }
  }

  /** A language name without `?` gives a path segment without `?`. */
  lemma LanguagePartNoQuestion(language: Option<string>)
    requires language.None? || '?' !in language.value
    ensures '?' !in LanguagePart(language)
  {
    if language.Some? && language.value != "" {
      var l := language.value;
      assert '?' !in Lower(l) by {
        forall i | 0 <= i < |l| ensures Lower(l)[i] != '?' { assert l[i] != '?'; }
      }
      StripSubsequence(Lower(l));
      EncodeKeeps(Strip(Lower(l)), '?');
      assert LanguagePart(language) == "/" + LanguageSegment(l);
    }
  }

  /** Stripping keeps only characters of its input. */
  lemma StripSubsequence(s: string)
    ensures forall c :: c in Strip(s) ==> c in s
  {
    var i, j := StripSlice(s);
    forall c | c in Strip(s) ensures c in s {
      var k :| 0 <= k < |Strip(s)| && Strip(s)[k] == c;
      assert s[i + k] == c;
    }
  }

  /** Encoding introduces only `%`, `2` and `0` characters. */
  lemma {:induction false} EncodeKeeps(s: string, c: char)
    requires c !in s && c != '%' && c != '2' && c != '0'
    ensures c !in EncodeSpaces(s)
  {
    if s != [] {
      EncodeKeeps(s[1..], c);
    }
  }

  /** `main`'s period: `--monthly` over `--weekly` over the daily default. */
  function SinceFromFlags(daily: bool, weekly: bool, monthly: bool): (since: string)
    ensures SinceOption(since)
  {
    if monthly then "monthly" else if weekly then "weekly" else "daily"
  }

  /** The flag precedence, and that `--daily` never changes the period. */
  lemma SincePrecedence(daily: bool, weekly: bool, monthly: bool)
    ensures monthly ==> SinceFromFlags(daily, weekly, monthly) == "monthly"
    ensures !monthly && weekly ==> SinceFromFlags(daily, weekly, monthly) == "weekly"
    ensures !monthly && !weekly ==> SinceFromFlags(daily, weekly, monthly) == "daily"
    ensures SinceFromFlags(daily, weekly, monthly) == SinceFromFlags(!daily, weekly, monthly)
  {
  }

  /** So the URL `main` fetches always asks for a period. */
  lemma MainUrlHasPeriod(language: Option<string>, daily: bool, weekly: bool, monthly: bool)
    ensures var since := SinceFromFlags(daily, weekly, monthly);
            EndsWith(BuildUrl(language, since), "?since=" + since)
  {
    BuildUrlShape(language, SinceFromFlags(daily, weekly, monthly));
  }

  // ---------------------------------------------------------------------
  // The report.
  // ---------------------------------------------------------------------

  /** One project as `parse_trending` returns it; all fields are text. */
  datatype Project = Project(name: string, stars: string, starsToday: string, description: string,
                             url: string, language: string)

  const NoData: string := "\U{26A0}\U{FE0F} 未能获取到Trending数据，请稍后重试"
  const MaxShown: nat := 25
  const MaxDescription: nat := 80

  /** The period label; an unknown period reads as daily. */
  function SinceLabel(since: string): string {
    if since == "weekly" then "本周" else if since == "monthly" then "本月" else "今日"
  }

  /** Line 151: descriptions over 80 characters are cut to 80 and marked. */
  function Truncate(d: string): (r: string)
    ensures |d| <= MaxDescription ==> r == d
    ensures |d| > MaxDescription ==> |r| == MaxDescription + 3 && StartsWith(r, d[..MaxDescription]) && EndsWith(r, "...")
  {
    if |d| > MaxDescription then d[..MaxDescription] + "..." else d
  }

  const StarsMark: string := "   \U{2B50} "
  const DescriptionMark: string := "   \U{1F4DD} "
  const UrlMark: string := "   \U{1F517} "
  const LanguageMark: string := "   \U{1F5A5}\U{FE0F} "

  /** Lines 147-155: the lines of the `i`-th project. The description line
      sits between the stars line and the url line, and only for a
      non-empty description; a long one shows its first 80 characters and
      `...`, a short one is shown whole. */
  function EntryLines(p: Project, i: nat): (r: seq<string>)
    ensures |r| == if p.description != "" then 6 else 5
    ensures r[0] == NatToString(i) + ". " + p.name && r[|r| - 1] == ""
  {
    [NatToString(i) + ". " + p.name,
     StarsMark + p.stars + " stars | +" + p.starsToday + " today"]
    + (if p.description != "" then [DescriptionMark + Truncate(p.description)] else [])
    + [UrlMark + p.url, LanguageMark + p.language, ""]
  }

  /** The lines between the first and the blank last one: stars, the
      description line for a non-empty description (cut at 80 characters
      and marked, or whole), then url and language. */
  lemma EntryLinesContent(p: Project, i: nat)
    ensures var r := EntryLines(p, i);
            && r[1] == StarsMark + p.stars + " stars | +" + p.starsToday + " today"
            && r[|r| - 3] == UrlMark + p.url && r[|r| - 2] == LanguageMark + p.language
            && (|p.description| > MaxDescription ==>
                  r[2] == DescriptionMark + p.description[..MaxDescription] + "...")
            && (0 < |p.description| <= MaxDescription ==> r[2] == DescriptionMark + p.description)
  {
  }

  /** The entries of `ps`, numbered from `first`. */
  function Entries(ps: seq<Project>, first: nat): seq<string>
  {
    if ps == [] then [] else EntryLines(ps[0], first) + Entries(ps[1..], first + 1)
  }

  function Rule(): string {
    Repeat('=', 50)
  }

  function Header(language: Option<string>, since: string): string {
    "\U{1F525} GitHub Trending " + SinceLabel(since)
    + (if language.Some? && language.value != "" then " - " + language.value else "")
  }

  /** The footer's count of every parsed project. */
  function Footer(total: nat): string {
    "共 " + NatToString(total) + " 个项目"
  }

  /** The first 25 projects, in input order. */
  function Shown(projects: seq<Project>): (r: seq<Project>)
    ensures |r| == if |projects| > MaxShown then MaxShown else |projects|
    ensures forall k :: 0 <= k < |r| ==> r[k] == projects[k]
  {
    if |projects| > MaxShown then projects[..MaxShown] else projects
  }

  /** The report's lines for a non-empty project list: header, rule, blank,
      the first 25 entries, rule, and the total count. */
  function ReportLines(projects: seq<Project>, language: Option<string>, since: string): seq<string>
  {
    [Header(language, since), Rule(), ""] + Entries(Shown(projects), 1) + [Rule(), Footer(|projects|)]
  }

  /** `format_output(projects, language, since)`. */
  function FormatOutput(projects: seq<Project>, language: Option<string>, since: string): (r: string)
    ensures projects == [] ==> r == NoData
  {
    if projects == [] then NoData else Join(ReportLines(projects, language, since), "\n")
  }

  /** All the entries side by side. */
  function Concat(blocks: seq<seq<string>>): seq<string>
  {
    if blocks == [] then [] else blocks[0] + Concat(blocks[1..])
  }

  /** Entries are the projects' blocks, in input order, numbered
      consecutively from `first`. */
  lemma {:induction false} EntriesNumbered(ps: seq<Project>, first: nat)
    ensures Entries(ps, first) == Concat(seq(|ps|, k requires 0 <= k < |ps| => EntryLines(ps[k], first + k)))
  {
    var blocks := seq(|ps|, k requires 0 <= k < |ps| => EntryLines(ps[k], first + k));
    if ps != [] {
      EntriesNumbered(ps[1..], first + 1);
      var tail := seq(|ps| - 1, k requires 0 <= k < |ps| - 1 => EntryLines(ps[1..][k], first + 1 + k));
      assert blocks[1..] == tail;
    }
  }

  /** A report shows at most 25 projects, the first ones in input order and
      numbered 1, 2, …, under a header naming the period and the language;
      its footer counts every project, shown or not. */
  lemma ReportShape(projects: seq<Project>, language: Option<string>, since: string)
    ensures var lines := ReportLines(projects, language, since);
            var n := |Shown(projects)|;
            && |lines| >= 5
            && lines[0] == Header(language, since)
            && lines[3..|lines| - 2]
               == Concat(seq(n, k requires 0 <= k < n => EntryLines(projects[k], k + 1)))
            && lines[|lines| - 1] == Footer(|projects|)
            && lines[|lines| - 2] == Rule()
  {
    var shown := Shown(projects);
    var n := |shown|;
    var body := Entries(shown, 1);
    var opening := [Header(language, since), Rule(), ""];
    var closing := [Rule(), Footer(|projects|)];
    var lines := ReportLines(projects, language, since);
    assert lines == opening + body + closing;
    assert lines[3..|lines| - 2] == body;
    assert body == Concat(seq(n, k requires 0 <= k < n => EntryLines(projects[k], k + 1))) by {
      EntriesNumbered(shown, 1);
      assert seq(n, k requires 0 <= k < n => EntryLines(shown[k], 1 + k))
          == seq(n, k requires 0 <= k < n => EntryLines(projects[k], k + 1));
    }
  }

  /** A non-empty report opens with the header line and closes with the
      total count on its own line. */
  lemma FormatOutputFrame(projects: seq<Project>, language: Option<string>, since: string)
    requires projects != []
    ensures StartsWith(FormatOutput(projects, language, since), Header(language, since))
    ensures EndsWith(FormatOutput(projects, language, since), "\n" + Footer(|projects|))
  {
    var lines := ReportLines(projects, language, since);
    ReportShape(projects, language, since);
    JoinStartsWithFirst(lines, "\n");
    JoinEndsWithLast(lines, "\n");
  }

  /** The report names the period, reading unknown periods as daily, and
      mentions the language only when one is given. */
  lemma HeaderShape(language: Option<string>, since: string)
    ensures !SinceOption(since) ==> Header(language, since) == Header(language, "daily")
    ensures (language.None? || language.value == "") ==>
      Header(language, since) == "\U{1F525} GitHub Trending " + SinceLabel(since)
    ensures language.Some? && language.value != "" ==>
      EndsWith(Header(language, since), " - " + language.value)
  {
  }
}
