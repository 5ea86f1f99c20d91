/** The pure pieces of `FinancialReportScraper` (app.py): the report filter
    `_is_relevant_report`, the case-insensitive company dispatch of
    `scrape_company_reports`, and the rule that turns a relative link into an
    absolute one. The scraping itself (HTTP, HTML parsing, a headless browser) is
    outside the model. */
module Scraper {
  import opened Outcomes
  import opened PyText

  // ---------------------------------------------------------------------------
  // `_is_relevant_report`

  const TargetYears: seq<string> := ["2023", "2024", "2025"]

  /** The `\d` class of a Python `str` pattern: every Unicode decimal digit (general
      category Nd, as of Unicode 15.0), not only 0-9. */
  predicate IsRegexDigit(c: char)
  {
    || '0' <= c <= '9'
    || '\U{660}' <= c <= '\U{669}'
    || '\U{6f0}' <= c <= '\U{6f9}'
    || '\U{7c0}' <= c <= '\U{7c9}'
    || '\U{966}' <= c <= '\U{96f}'
    || '\U{9e6}' <= c <= '\U{9ef}'
    || '\U{a66}' <= c <= '\U{a6f}'
    || '\U{ae6}' <= c <= '\U{aef}'
    || '\U{b66}' <= c <= '\U{b6f}'
    || '\U{be6}' <= c <= '\U{bef}'
    || '\U{c66}' <= c <= '\U{c6f}'
    || '\U{ce6}' <= c <= '\U{cef}'
    || '\U{d66}' <= c <= '\U{d6f}'
    || '\U{de6}' <= c <= '\U{def}'
    || '\U{e50}' <= c <= '\U{e59}'
    || '\U{ed0}' <= c <= '\U{ed9}'
    || '\U{f20}' <= c <= '\U{f29}'
    || '\U{1040}' <= c <= '\U{1049}'
    || '\U{1090}' <= c <= '\U{1099}'
    || '\U{17e0}' <= c <= '\U{17e9}'
    || '\U{1810}' <= c <= '\U{1819}'
    || '\U{1946}' <= c <= '\U{194f}'
    || '\U{19d0}' <= c <= '\U{19d9}'
    || '\U{1a80}' <= c <= '\U{1a89}'
    || '\U{1a90}' <= c <= '\U{1a99}'
    || '\U{1b50}' <= c <= '\U{1b59}'
    || '\U{1bb0}' <= c <= '\U{1bb9}'
    || '\U{1c40}' <= c <= '\U{1c49}'
    || '\U{1c50}' <= c <= '\U{1c59}'
    || '\U{a620}' <= c <= '\U{a629}'
    || '\U{a8d0}' <= c <= '\U{a8d9}'
    || '\U{a900}' <= c <= '\U{a909}'
    || '\U{a9d0}' <= c <= '\U{a9d9}'
    || '\U{a9f0}' <= c <= '\U{a9f9}'
    || '\U{aa50}' <= c <= '\U{aa59}'
    || '\U{abf0}' <= c <= '\U{abf9}'
    || '\U{ff10}' <= c <= '\U{ff19}'
    || '\U{104a0}' <= c <= '\U{104a9}'
    || '\U{10d30}' <= c <= '\U{10d39}'
    || '\U{11066}' <= c <= '\U{1106f}'
    || '\U{110f0}' <= c <= '\U{110f9}'
    || '\U{11136}' <= c <= '\U{1113f}'
    || '\U{111d0}' <= c <= '\U{111d9}'
    || '\U{112f0}' <= c <= '\U{112f9}'
    || '\U{11450}' <= c <= '\U{11459}'
    || '\U{114d0}' <= c <= '\U{114d9}'
    || '\U{11650}' <= c <= '\U{11659}'
    || '\U{116c0}' <= c <= '\U{116c9}'
    || '\U{11730}' <= c <= '\U{11739}'
    || '\U{118e0}' <= c <= '\U{118e9}'
    || '\U{11950}' <= c <= '\U{11959}'
    || '\U{11c50}' <= c <= '\U{11c59}'
    || '\U{11d50}' <= c <= '\U{11d59}'
    || '\U{11da0}' <= c <= '\U{11da9}'
    || '\U{11f50}' <= c <= '\U{11f59}'
    || '\U{16a60}' <= c <= '\U{16a69}'
    || '\U{16ac0}' <= c <= '\U{16ac9}'
    || '\U{16b50}' <= c <= '\U{16b59}'
    || '\U{1d7ce}' <= c <= '\U{1d7ff}'
    || '\U{1e140}' <= c <= '\U{1e149}'
    || '\U{1e2f0}' <= c <= '\U{1e2f9}'
    || '\U{1e4f0}' <= c <= '\U{1e4f9}'
    || '\U{1e950}' <= c <= '\U{1e959}'
    || '\U{1fbf0}' <= c <= '\U{1fbf9}'
  }

  /** `20\d{2}` matches at position i. */
  predicate YearAt(url: string, i: int)
  {
    0 <= i && i + 4 <= |url| && url[i] == '2' && url[i + 1] == '0' && IsRegexDigit(url[i + 2]) && IsRegexDigit(url[i + 3])
  }

  /** The start of the leftmost `20\d{2}` match at or after `from`, as `re.search`
      finds it. */
  function FirstYearFrom(url: string, from: nat): (pos: Option<nat>)
    requires from <= |url|
    ensures pos.Some? ==> from <= pos.value && YearAt(url, pos.value)
    ensures forall j :: from <= j && (pos.None? || j < pos.value) ==> !YearAt(url, j)
    decreases |url| - from
  {
    if from + 4 > |url| then None
    else if YearAt(url, from) then Some(from)
    else FirstYearFrom(url, from + 1)
  }

  /** The year string `re.search(r'(20\d{2})', url).group(1)`, if there is a match. */
  function FirstYear(url: string): (year: Option<string>)
    ensures year.Some? ==> |year.value| == 4
  {
    match FirstYearFrom(url, 0)
    case None => None
    case Some(i) => Some(url[i..i + 4])
  }

  /** `re.search(r'(Q[1-2])', url, re.IGNORECASE)` finds a match. */
  predicate HasQuarter(url: string)
  {
    exists i :: 0 <= i < |url| - 1 && (url[i] == 'q' || url[i] == 'Q') && (url[i + 1] == '1' || url[i + 1] == '2')
  }

  /** `_is_relevant_report`, branch for branch. */
  predicate IsRelevantReport(url: string)
  {
    match FirstYear(url)
    case None => false
    case Some(year) =>
      if year !in TargetYears then false
      else if year == "2025" && !HasQuarter(url) then false
      else true
  }

  /** What the filter accepts, stated without the search function: the leftmost
      `20\d{2}` in the URL is one of the target years, and when it is 2025 the URL
      also mentions Q1 or Q2 in either case. */
  lemma RelevantReportIff(url: string)
    ensures IsRelevantReport(url) <==>
      exists i :: YearAt(url, i) && (forall j :: 0 <= j < i ==> !YearAt(url, j))
        && url[i..i + 4] in TargetYears
        && (url[i..i + 4] == "2025" ==> HasQuarter(url))
  {
    var pos := FirstYearFrom(url, 0);
    if IsRelevantReport(url) {
      assert pos.Some?;
      var i := pos.value;
      assert forall j :: 0 <= j < i ==> !YearAt(url, j);
    } else {
      forall i | YearAt(url, i) && (forall j :: 0 <= j < i ==> !YearAt(url, j))
        ensures !(url[i..i + 4] in TargetYears && (url[i..i + 4] == "2025" ==> HasQuarter(url)))
      {
        assert pos.Some?;
        assert pos.value == i;
      }
    }
  }

  /** A URL without any "20" followed by two digits is never relevant. */
  lemma NoYearNotRelevant(url: string)
    requires forall i :: !YearAt(url, i)
    ensures !IsRelevantReport(url)
  {
    assert FirstYearFrom(url, 0).None?;
  }

  /** Only the first year counts: when a prefix of the URL already holds a year, what
      follows cannot change the year the filter looks at. */
  lemma {:induction false} FirstYearOfPrefix(a: string, b: string, from: nat)
    requires from <= |a|
    requires FirstYearFrom(a, from).Some?
    ensures FirstYearFrom(a + b, from) == FirstYearFrom(a, from)
    decreases |a| - from
  {
    assert from + 4 <= |a|;
    assert (a + b)[from] == a[from] && (a + b)[from + 1] == a[from + 1];
    assert (a + b)[from + 2] == a[from + 2] && (a + b)[from + 3] == a[from + 3];
    if !YearAt(a, from) {
      FirstYearOfPrefix(a, b, from + 1);
    }
  }

  /** The year the filter reads is the URL's first one: text after a year never
      changes it. */
  lemma FirstYearIgnoresSuffix(a: string, b: string)
    requires FirstYear(a).Some?
    ensures FirstYear(a + b) == FirstYear(a)
  {
    FirstYearOfPrefix(a, b, 0);
    var i := FirstYearFrom(a, 0).value;
    assert (a + b)[i..i + 4] == a[i..i + 4];
  }

  /** A 2023 or 2024 report is relevant with no quarter in the URL. */
  lemma EarlierYearsNeedNoQuarter(url: string)
    requires FirstYear(url) == Some("2023") || FirstYear(url) == Some("2024")
    ensures IsRelevantReport(url)
  {
  }

  /** A 2025 report is relevant exactly when the URL names Q1 or Q2. */
  lemma Year2025NeedsQuarter(url: string)
    requires FirstYear(url) == Some("2025")
    ensures IsRelevantReport(url) <==> HasQuarter(url)
  {
  }

  /** A first year outside the targets rejects the URL whatever else it holds. */
  lemma OtherYearsRejected(url: string)
    requires FirstYear(url).Some? && FirstYear(url).value !in TargetYears
    ensures !IsRelevantReport(url)
  {
  }

  // ---------------------------------------------------------------------------
  // `scrape_company_reports`

  datatype Company = Acousort | Carlsberg | Stockwik

  /** A collected report: `{"company": ..., "url": ...}`. */
  datatype Report = Report(company: string, url: string)

  function Key(c: Company): string
  {
    match c
    case Acousort => "acousort"
    case Carlsberg => "carlsberg"
    case Stockwik => "stockwik"
  }

  /** `company_scrapers.get(company.lower())`. */
  function ScraperFor(company: string): (s: Option<Company>)
    ensures s.Some? ==> Lower(company) == Key(s.value)
  {
    var key := Lower(company);
    if key == "acousort" then Some(Acousort)
    else if key == "carlsberg" then Some(Carlsberg)
    else if key == "stockwik" then Some(Stockwik)
    else None
  }

  /** `scrape_company_reports`: the chosen site scraper's reports (`run`, outside the
      model), or no reports for an unknown company. */
  function ScrapeCompanyReports(company: string, run: Company -> seq<Report>): (reports: seq<Report>)
    ensures ScraperFor(company).None? ==> reports == []
    ensures ScraperFor(company).Some? ==> reports == run(ScraperFor(company).value)
  {
    match ScraperFor(company)
    case None => []
    case Some(c) => run(c)
  }

  lemma LowerCharIdempotent(c: char)
    ensures LowerChar(LowerChar(c)) == LowerChar(c)
  {
  }

  /** The dispatch picks company c exactly when the lower-cased name is c's key, so it
      ignores case: a name and its lower-cased form pick the same scraper. */
  lemma DispatchIgnoresCase(company: string)
    ensures forall c: Company :: ScraperFor(company) == Some(c) <==> Lower(company) == Key(c)
    ensures ScraperFor(Lower(company)) == ScraperFor(company)
  {
    assert Lower(Lower(company)) == Lower(company) by {
      forall i | 0 <= i < |company|
        ensures Lower(Lower(company))[i] == Lower(company)[i]
      {
        LowerCharIdempotent(company[i]);
      }
    }
  }

  // ---------------------------------------------------------------------------
  // Relative links

  const AcousortHost: string := "https://acousort.com"
  const CarlsbergHost: string := "https://www.carlsberggroup.com"
  const StockwikHost: string := "https://www.stockwik.se"

  /** `href if href.startswith('http') else f"{host}{href}"`. */
  function Absolutize(href: string, host: string): string
  {
    if StartsWith(href, "http") then href else host + href
  }

  /** A link becomes absolute and keeps the original link as its tail: it is left
      alone when it starts with "http" and otherwise prefixed with the host; once
      absolute it is never prefixed again. */
  lemma AbsolutizeSpec(href: string, host: string)
    requires StartsWith(host, "http")
    ensures StartsWith(Absolutize(href, host), "http")
    ensures EndsWith(Absolutize(href, host), href)
    ensures StartsWith(href, "http") ==> Absolutize(href, host) == href
    ensures !StartsWith(href, "http") ==> Absolutize(href, host)[..|host|] == host
    ensures Absolutize(Absolutize(href, host), host) == Absolutize(href, host)
  {
    var r := Absolutize(href, host);
    if !StartsWith(href, "http") {
      assert r[..|host|] == host;
      assert r[..4] == host[..4];
      assert r[|r| - |href|..] == href;
    }
  }

  /** The three site hosts are absolute, so every link the scrapers keep is. */
  lemma HostsAreAbsolute()
    ensures StartsWith(AcousortHost, "http")
    ensures StartsWith(CarlsbergHost, "http")
    ensures StartsWith(StockwikHost, "http")
  {
  }
}
