/**
  `analyze_competitors`: fixed demonstration data when the provider
  credentials are missing, otherwise the first three organic results of the
  search-results page, copied into competitor records, plus three insight
  lines. The HTTP task creation and polling are abstracted into a
  `FetchOutcome`: the item list the polling returned (possibly empty after a
  timeout) and the raw response, or the error it raised.
 */
module Competitors {
  import opened Wrappers
  import opened Text
  import opened Structures

  /** One row of the provider's result list; each field may be absent
      (`it.get(...)` returning `None`). */
  datatype SerpItem = SerpItem(itemType: Option<string>, url: Option<string>, title: Option<string>)

  /** A competitor record: url and title as read from the item, and the
      word-count and header-count metrics. */
  datatype Competitor = Competitor(url: Option<string>, title: Option<string>, wordCount: nat, headers: nat)

  /** The provider's raw JSON response, its top-level fields each kept as JSON text. */
  type RawResponse = map<string, string>

  /** The dictionary `analyze_competitors` returns. */
  datatype Analysis = Analysis(competitors: seq<Competitor>, insights: seq<string>, serpRaw: RawResponse)

  /** What task creation plus polling produced: the `items` list and the raw
      response, or the exception that escaped (an HTTP error on creation or on
      a poll, or an `items` field that is not a list). */
  datatype FetchOutcome = Fetched(items: seq<SerpItem>, raw: RawResponse) | Raised(message: string)

  /** The loop stops once this many competitors are collected. */
  const MaxCompetitors: nat := 3
  /** Placeholder metrics: the provider gives no word count. */
  const PlaceholderWordCount: nat := 2000
  const PlaceholderHeaders: nat := 8

  /** The fixed text of the insight lines. */
  const TotalReadLabel := "Total orgánicos leídos: "
  const RealInsightsTail: seq<string> := [
    "Enfoque principal (aprox.): Guías informativas",
    "Tono dominante (aprox.): Profesional"
  ]
  const DemoInsights: seq<string> := [
    "Promedio de palabras: 2,500",
    "Headers promedio: 8-12",
    "Enfoque principal: Guías completas",
    "Tono dominante: Profesional-educativo"
  ]

  /** The fixed parts of the demonstration competitors. */
  const DemoUrl1 := "competitor1.com"
  const DemoUrl2 := "competitor2.com"
  const DemoUrl3 := "competitor3.com"
  const DemoTitlePrefix1 := "Guía completa de "
  const DemoTitlePrefix2 := "Todo sobre "
  const DemoTitleSuffix3 := ": Manual definitivo"

  predicate IsOrganic(it: SerpItem)
  {
    it.itemType == Some("organic")
  }

  /** The competitor record built from one organic item. */
  function ToCompetitor(it: SerpItem): (c: Competitor)
    ensures c.url == it.url && c.title == it.title
    ensures c.wordCount == PlaceholderWordCount && c.headers == PlaceholderHeaders
  {
    Competitor(it.url, it.title, PlaceholderWordCount, PlaceholderHeaders)
  }

  /** The organic items of `items`, in input order. */
  function OrganicItems(items: seq<SerpItem>): (r: seq<SerpItem>)
    ensures |r| <= |items|
    ensures forall k :: 0 <= k < |r| ==> IsOrganic(r[k]) && r[k] in items
  {
    if items == [] then []
    else
      var init := OrganicItems(items[..|items| - 1]);
      var last := items[|items| - 1];
      if IsOrganic(last) then init + [last] else init
  }

  function CompetitorsOf(items: seq<SerpItem>): (r: seq<Competitor>)
    ensures |r| == |items|
    ensures forall k :: 0 <= k < |r| ==> r[k] == ToCompetitor(items[k])
  {
    seq(|items|, k requires 0 <= k < |items| => ToCompetitor(items[k]))
  }

  /** The competitors the real path selects: the first `MaxCompetitors`
      organic items (all of them when there are fewer), as records. */
  function Selected(items: seq<SerpItem>): (r: seq<Competitor>)
    ensures |r| == if |OrganicItems(items)| < MaxCompetitors then |OrganicItems(items)| else MaxCompetitors
  {
    var organic := OrganicItems(items);
    CompetitorsOf(if |organic| < MaxCompetitors then organic else organic[..MaxCompetitors])
  }

  /** Filtering distributes over concatenation. */
  lemma {:induction false} OrganicItemsAppend(a: seq<SerpItem>, b: seq<SerpItem>)
    ensures OrganicItems(a + b) == OrganicItems(a) + OrganicItems(b)
  {
    if b != [] {
      var b' := b[..|b| - 1];
      assert (a + b)[..|a + b| - 1] == a + b';
      assert (a + b)[|a + b| - 1] == b[|b| - 1];
      OrganicItemsAppend(a, b');
    } else {
      assert a + b == a;
    }
  }

  /** Exactness and order of the filter: the organic item at input position
      `j` is the filter's element number "organic items before `j`". */
  lemma OrganicItemAt(items: seq<SerpItem>, j: nat)
    requires j < |items| && IsOrganic(items[j])
    ensures |OrganicItems(items[..j])| < |OrganicItems(items)|
    ensures OrganicItems(items)[|OrganicItems(items[..j])|] == items[j]
  {
    assert items == items[..j] + [items[j]] + items[j + 1..];
    OrganicItemsAppend(items[..j] + [items[j]], items[j + 1..]);
    OrganicItemsAppend(items[..j], [items[j]]);
    assert OrganicItems([items[j]]) == [items[j]] by {
      assert [items[j]][..0] == [];
    }
  }

  /** A non-organic item contributes nothing to the filter, wherever it stands. */
  lemma NonOrganicIgnored(a: seq<SerpItem>, x: SerpItem, b: seq<SerpItem>)
    requires !IsOrganic(x)
    ensures OrganicItems(a + [x] + b) == OrganicItems(a + b)
  {
    OrganicItemsAppend(a + [x], b);
    OrganicItemsAppend(a, [x]);
    OrganicItemsAppend(a, b);
    assert OrganicItems([x]) == [] by {
      assert [x][..0] == [];
    }
  }

  /** Inserting a non-organic item, even one with a url, never changes the
      selection. */
  lemma NonOrganicNeverSelected(a: seq<SerpItem>, x: SerpItem, b: seq<SerpItem>)
    requires !IsOrganic(x)
    ensures Selected(a + [x] + b) == Selected(a + b)
  {
    NonOrganicIgnored(a, x, b);
  }

  /** Each selected competitor is the record of an organic item of the input,
      and the k-th one is the record of the k-th organic item. */
  lemma SelectedFromOrganic(items: seq<SerpItem>)
    ensures forall k :: 0 <= k < |Selected(items)| ==>
      Selected(items)[k] == ToCompetitor(OrganicItems(items)[k])
    ensures forall c :: c in Selected(items) ==>
      exists j :: 0 <= j < |items| && IsOrganic(items[j]) && c == ToCompetitor(items[j])
  {
  }

  /** Once three organic items have been seen, later items do not matter:
      the early `break` is sound. */
  lemma SelectedIgnoresTail(a: seq<SerpItem>, b: seq<SerpItem>)
    requires |OrganicItems(a)| >= MaxCompetitors
    ensures Selected(a + b) == Selected(a)
  {
    OrganicItemsAppend(a, b);
    assert (OrganicItems(a) + OrganicItems(b))[..MaxCompetitors] == OrganicItems(a)[..MaxCompetitors];
  }

  /** The loop of `analyze_competitors`: walk the items in order, append a
      record for each organic one, and stop as soon as three are collected. */
  method SelectCompetitors(items: seq<SerpItem>) returns (competitors: seq<Competitor>)
    ensures competitors == Selected(items)
  {
    competitors := [];
    var i := 0;
    while i < |items|
      invariant 0 <= i <= |items|
      invariant competitors == CompetitorsOf(OrganicItems(items[..i]))
      invariant |competitors| < MaxCompetitors
    {
      assert items[..i + 1][..i] == items[..i];
      var it := items[i];
      if IsOrganic(it) {
        competitors := competitors + [ToCompetitor(it)];
        if |competitors| >= MaxCompetitors {
          assert competitors == CompetitorsOf(OrganicItems(items[..i + 1]));
          assert items == items[..i + 1] + items[i + 1..];
          SelectedIgnoresTail(items[..i + 1], items[i + 1..]);
          break;
        }
      }
      i := i + 1;
    }
    assert i == |items| ==> items[..i] == items;
  }

  /** The three insight lines of the real path; the first reports how many
      items the provider returned, organic or not. */
  function RealInsights(itemCount: nat): (r: seq<string>)
    ensures |r| == 3
    ensures |TotalReadLabel| <= |r[0]| && r[0][..|TotalReadLabel|] == TotalReadLabel
    ensures IsDecimal(r[0][|TotalReadLabel|..])
    ensures DecimalValue(r[0][|TotalReadLabel|..]) == itemCount
  {
    var line := TotalReadLabel + NatToDecimal(itemCount);
    assert line[|TotalReadLabel|..] == NatToDecimal(itemCount);
    DecimalRoundTrip(itemCount);
    [line] + RealInsightsTail
  }

  /** The demonstration result returned when a credential is empty. */
  function DemoAnalysis(keyword: string): (r: Analysis)
    ensures |r.competitors| == 3 && |r.insights| == 4 && r.serpRaw == map[]
    ensures r.competitors[0].url == Some("competitor1.com") && r.competitors[0].wordCount == 2500
    ensures r.competitors[1].url == Some("competitor2.com") && r.competitors[1].wordCount == 1800
    ensures r.competitors[2].url == Some("competitor3.com") && r.competitors[2].wordCount == 3200
    ensures forall k :: 0 <= k < 3 ==>
      r.competitors[k].title.Some? && Contains(r.competitors[k].title.value, keyword)
  {
    InfixContained(DemoTitlePrefix1, keyword, "");
    InfixContained(DemoTitlePrefix2, keyword, "");
    InfixContained("", keyword, DemoTitleSuffix3);
    assert "" + keyword + DemoTitleSuffix3 == keyword + DemoTitleSuffix3;
    Analysis(
      [
        Competitor(Some(DemoUrl1), Some(DemoTitlePrefix1 + keyword), 2500, 8),
        Competitor(Some(DemoUrl2), Some(DemoTitlePrefix2 + keyword), 1800, 6),
        Competitor(Some(DemoUrl3), Some(keyword + DemoTitleSuffix3), 3200, 12)
      ],
      DemoInsights,
      map[])
  }

  /** The keyword appears only inside the demo titles: for any two keywords
      the demo results agree on everything else. */
  lemma DemoKeywordOnlyInTitles(kw1: string, kw2: string)
    ensures DemoAnalysis(kw1).insights == DemoAnalysis(kw2).insights
    ensures DemoAnalysis(kw1).serpRaw == DemoAnalysis(kw2).serpRaw
    ensures forall k :: 0 <= k < 3 ==>
      DemoAnalysis(kw1).competitors[k].url == DemoAnalysis(kw2).competitors[k].url &&
      DemoAnalysis(kw1).competitors[k].wordCount == DemoAnalysis(kw2).competitors[k].wordCount &&
      DemoAnalysis(kw1).competitors[k].headers == DemoAnalysis(kw2).competitors[k].headers
  {
  }

  /** Demo mode: the login or the password is empty. */
  predicate IsDemo(login: string, password: string)
  {
    login == "" || password == ""
  }

  /** What `analyze_competitors(keyword)` returns or raises. */
  function AnalysisResult(login: string, password: string, keyword: string, fetch: FetchOutcome): (r: Result<Analysis, string>)
    ensures r.Failure? <==> !IsDemo(login, password) && fetch.Raised?
    ensures r.Failure? ==> r.error == fetch.message
  {
    if IsDemo(login, password) then Success(DemoAnalysis(keyword))
    else match fetch
      case Raised(message) => Failure(message)
      case Fetched(items, raw) => Success(Analysis(Selected(items), RealInsights(|items|), raw))
  }

  /** On the real path the result holds at most three competitors, each
      copied from an organic item, three insight lines counting every item
      returned, and the provider's raw response. */
  lemma RealPathResult(login: string, password: string, keyword: string, items: seq<SerpItem>, raw: RawResponse)
    requires !IsDemo(login, password)
    ensures var r := AnalysisResult(login, password, keyword, Fetched(items, raw));
      && r.Success?
      && |r.value.competitors| <= MaxCompetitors
      && (forall c :: c in r.value.competitors ==>
            c.wordCount == PlaceholderWordCount && c.headers == PlaceholderHeaders &&
            exists j :: 0 <= j < |items| && IsOrganic(items[j]) && c.url == items[j].url && c.title == items[j].title)
      && |r.value.insights| == 3
      && DecimalValue(r.value.insights[0][|TotalReadLabel|..]) == |items|
      && r.value.serpRaw == raw
  {
    SelectedFromOrganic(items);
  }

  /** Whatever `analyze_competitors` returns holds at most three competitors. */
  lemma AnalysisBounded(login: string, password: string, keyword: string, fetch: FetchOutcome)
    ensures AnalysisResult(login, password, keyword, fetch).Success? ==>
      |AnalysisResult(login, password, keyword, fetch).value.competitors| <= MaxCompetitors
  {
  }

  /** Without credentials nothing is fetched: the outcome of the provider
      calls has no influence and nothing is raised. */
  lemma DemoIgnoresFetch(login: string, password: string, keyword: string, f1: FetchOutcome, f2: FetchOutcome)
    requires IsDemo(login, password)
    ensures AnalysisResult(login, password, keyword, f1) == AnalysisResult(login, password, keyword, f2)
    ensures AnalysisResult(login, password, keyword, f1).Success?
  {
  }

  /** `analyze_competitors`: the demo branch, or the selection loop over the
      fetched items followed by the insight lines. */
  method AnalyzeCompetitors(login: string, password: string, keyword: string, fetch: FetchOutcome)
    returns (r: Result<Analysis, string>)
    ensures r == AnalysisResult(login, password, keyword, fetch)
  {
    if IsDemo(login, password) {
      return Success(DemoAnalysis(keyword));
    }
    match fetch
    case Raised(message) =>
      r := Failure(message);
    case Fetched(items, raw) =>
      var competitors := SelectCompetitors(items);
      r := Success(Analysis(competitors, RealInsights(|items|), raw));
  }
}
