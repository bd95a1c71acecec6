/** Locating the page's embedded __NEXT_DATA__ payload, the navigation from
    the parsed payload to the odds table, and the page URL per bet type
    (MLBOddsScraper.extract_next_data and the pure parts of fetch_odds_data). */
module NextData {
  import opened Wrappers
  import opened PyJson
  import opened Text

  const OpenTag := "<script id=\"__NEXT_DATA__\" type=\"application/json\">"
  const CloseTag := "</script>"

  /** What the non-greedy, dot-matches-newline search for the script element captures:
      the text after the first opening tag up to the nearest closing tag. */
  function NextDataPayload(html: string): (r: Option<string>)
    ensures r.Some? ==> Contains(html, OpenTag) && Contains(html, CloseTag)
    ensures r.Some? ==> |OpenTag| + |r.value| + |CloseTag| <= |html|
  {
    match IndexFrom(html, OpenTag, 0)
    case None => None
    case Some(p) =>
      match IndexFrom(html, CloseTag, p + |OpenTag|)
      case None => None
      case Some(q) => Some(html[p + |OpenTag|..q])
  }

  /** extract_next_data: the payload handed to the JSON parser, which is a
      parameter here (None stands for a parse error, which is caught). */
  function ExtractNextData(html: string, parse: string -> Option<Json>): (r: Option<Json>)
    ensures NextDataPayload(html).None? ==> r.None?
    ensures NextDataPayload(html).Some? ==> r == parse(NextDataPayload(html).value)
  {
    match NextDataPayload(html)
    case None => None
    case Some(payload) => parse(payload)
  }

  /** With the first opening tag at p and the nearest closing tag after it at
      q, the payload is exactly the text between them. */
  lemma PayloadBetweenFirstTags(html: string, p: nat, q: nat)
    requires OccursAt(html, OpenTag, p)
    requires forall j: nat :: j < p ==> !OccursAt(html, OpenTag, j)
    requires p + |OpenTag| <= q && OccursAt(html, CloseTag, q)
    requires forall j: nat :: p + |OpenTag| <= j < q ==> !OccursAt(html, CloseTag, j)
    ensures NextDataPayload(html) == Some(html[p + |OpenTag|..q])
  {
    assert IndexFrom(html, OpenTag, 0) == Some(p);
    assert IndexFrom(html, CloseTag, p + |OpenTag|) == Some(q);
  }

  /** No opening tag, no payload. */
  lemma NoPayloadWithoutOpenTag(html: string)
    requires forall j: nat :: !OccursAt(html, OpenTag, j)
    ensures NextDataPayload(html).None?
  {
  }

  /** An opening tag with no closing tag after it gives no payload either. */
  lemma NoPayloadWithoutCloseTag(html: string, p: nat)
    requires OccursAt(html, OpenTag, p)
    requires forall j: nat :: j < p ==> !OccursAt(html, OpenTag, j)
    requires forall j: nat :: p + |OpenTag| <= j ==> !OccursAt(html, CloseTag, j)
    ensures NextDataPayload(html).None?
  {
  }

  /** The match is non-greedy: the payload never contains a closing tag. */
  lemma PayloadHoldsNoCloseTag(html: string)
    requires NextDataPayload(html).Some?
    ensures forall j: nat :: !OccursAt(NextDataPayload(html).value, CloseTag, j)
  {
    var p := IndexFrom(html, OpenTag, 0).value;
    var start := p + |OpenTag|;
    var q := IndexFrom(html, CloseTag, start).value;
    assert NextDataPayload(html) == Some(html[start..q]);
    SliceWithoutPattern(html, CloseTag, start, q);
  }

  /** A slice that starts no occurrence of a pattern contains none. */
  lemma SliceWithoutPattern(s: string, pat: string, start: nat, q: nat)
    requires |pat| > 0 && start <= q <= |s|
    requires forall j: nat :: start <= j < q ==> !OccursAt(s, pat, j)
    ensures forall j: nat :: !OccursAt(s[start..q], pat, j)
  {
    var slice := s[start..q];
    forall j: nat | j + |pat| <= |slice|
      ensures !OccursAt(slice, pat, j)
    {
      assert forall k :: j <= k < j + |pat| ==> slice[k] == s[start + k];
      assert slice[j..j + |pat|] == s[start + j..start + j + |pat|];
      assert !OccursAt(s, pat, start + j);
    }
  }

  /** A subscript of the parsed page: any failure (a missing key, a value
      that is not a dict) is caught by fetch_odds_data and gives None. */
  function Subscript(v: Json, key: string): Option<Json>
  {
    if v.JObj? && key in v.fields then Some(v.fields[key]) else None
  }

  /** What fetch_odds_data returns for a parsed page:
      the oddsTableModel of the first entry of props.pageProps.oddsTables,
      or None (JNull) when the page is empty, a key is missing, or the list
      of tables is empty or not a list. */
  function OddsTableModel(page: Option<Json>): (r: Json)
    ensures r != JNull ==> page.Some? && Truthy(page.value)
  {
    if page.None? || !Truthy(page.value) then JNull
    else
      match Subscript(page.value, "props")
      case None => JNull
      case Some(props) =>
        match Subscript(props, "pageProps")
        case None => JNull
        case Some(pageProps) =>
          match Subscript(pageProps, "oddsTables")
          case None => JNull
          case Some(tables) =>
            if !tables.JArr? || tables.items == [] then JNull
            else
              match Subscript(tables.items[0], "oddsTableModel")
              case None => JNull
              case Some(model) => model
  }

  /** The first table's model is returned; later tables are ignored. */
  lemma OddsTableModelTakesFirstTable(page: map<string, Json>, props: map<string, Json>,
                                      pageProps: map<string, Json>, first: map<string, Json>, rest: seq<Json>)
    requires "props" in page && page["props"] == JObj(props)
    requires "pageProps" in props && props["pageProps"] == JObj(pageProps)
    requires "oddsTables" in pageProps && pageProps["oddsTables"] == JArr([JObj(first)] + rest)
    ensures OddsTableModel(Some(JObj(page))) == Field(first, "oddsTableModel")
  {
  }

  /** An empty list of tables means no games for that date. */
  lemma NoTablesNoModel(page: map<string, Json>, props: map<string, Json>, pageProps: map<string, Json>)
    requires "props" in page && page["props"] == JObj(props)
    requires "pageProps" in props && props["pageProps"] == JObj(pageProps)
    requires "oddsTables" in pageProps && pageProps["oddsTables"] == JArr([])
    ensures OddsTableModel(Some(JObj(page))) == JNull
  {
  }

  const BaseUrl := "https://www.sportsbookreview.com/betting-odds/mlb-baseball"

  function UrlMap(date: string): map<string, string>
  {
    map[
      "moneyline" := BaseUrl + "/?date=" + date,
      "runline" := BaseUrl + "/pointspread/full-game/?date=" + date,
      "totals" := BaseUrl + "/totals/full-game/?date=" + date
    ]
  }

  /** The page fetched for a date and bet type; an unknown bet type falls back
      to the moneyline page. Every URL lies under the site's MLB odds path and
      ends with the date. */
  function UrlFor(date: string, betType: string): (url: string)
    ensures |BaseUrl| + |date| <= |url|
    ensures url[..|BaseUrl|] == BaseUrl && url[|url| - |date|..] == date
  {
    var urls := UrlMap(date);
    if betType in urls then urls[betType] else urls["moneyline"]
  }

  lemma UnknownBetTypeFetchesMoneyline(date: string, betType: string)
    requires betType != "moneyline" && betType != "runline" && betType != "totals"
    ensures UrlFor(date, betType) == UrlFor(date, "moneyline")
  {
  }

  /** The three bet types fetch three different pages. */
  lemma BetTypesFetchDistinctPages(date: string)
    ensures UrlFor(date, "moneyline") != UrlFor(date, "runline")
    ensures UrlFor(date, "moneyline") != UrlFor(date, "totals")
    ensures UrlFor(date, "runline") != UrlFor(date, "totals")
  {
    var n := |BaseUrl|;
    assert UrlFor(date, "moneyline")[n + 1] == '?';
    assert UrlFor(date, "runline")[n + 1] == 'p';
    assert UrlFor(date, "totals")[n + 1] == 't';
  }
}
