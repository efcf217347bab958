/**
 * The "All Firms" page of the QuantRank client
 * (frontend/src/components/FirmsList.jsx): its state, the type filter, the
 * colour tiers of the win rate, the badge colours, and what the page shows.
 * The component only computes its view from its state, so it is modelled by
 * functions over a state value.
 */
module FirmsList {
  import opened Domain
  import opened Queries

  /** The component's three `useState` fields; `firms` is None once a reply
      without a `firms` list has been stored. */
  datatype ListState = ListState(firms: Option<seq<FirmSummary>>, loading: bool, filter: string)

  /** What `fetch` + `response.json()` yield for `/api/firms`. */
  datatype FirmsReply = FirmsFailed | FirmsJson(firms: Option<seq<FirmSummary>>)

  /** The colour tier of a win rate. */
  datatype Tier = High | Middle | Low

  /** The statistics part of a card. */
  datatype StatsBlock =
    | NoData
    | Stats(winRate: real, textClass: string, barClass: string, total: nat)

  /** One card of the grid, linking to `/firm/{id}`. */
  datatype Card = Card(id: int, name: string, firmType: string, badgeClass: string, stats: StatsBlock)

  /** One filter tab: the type it selects, its caption, and whether it is active. */
  datatype Tab = Tab(firmType: string, caption: string, active: bool)

  datatype Page =
    | LoadingPage
    | RenderError
    | NoFirmsFound(tabs: seq<Tab>)
    | Grid(tabs: seq<Tab>, cards: seq<Card>)

  /** The filter value that shows every firm. */
  const All := "all"

  /** The filter tabs, in the order they are drawn. */
  const FilterTypes: seq<string> :=
    [All, "Hedge Fund", "Trading Firm", "Global Bank", "Bank", "Asset Manager", "FinTech"]

  /** `FIRM_COLOR_MAP`: the badge classes of the known firm types. */
  const FirmColorMap: map<string, string> := map[
    "Hedge Fund" := "bg-blue-500/20 text-blue-300 border-blue-400/30",
    "Trading Firm" := "bg-red-500/20 text-red-300 border-red-400/30",
    "Global Bank" := "bg-yellow-500/20 text-yellow-300 border-yellow-400/30",
    "Bank" := "bg-amber-500/20 text-amber-300 border-amber-400/30",
    "Asset Manager" := "bg-cyan-500/20 text-cyan-300 border-cyan-400/30",
    "FinTech" := "bg-fuchsia-500/20 text-fuchsia-300 border-fuchsia-400/30"
  ]

  /** The grey badge of any other type. */
  const DefaultBadge := "bg-gray-500/20 text-gray-300 border-gray-400/30"

  /** The initial `useState` values. */
  function InitialState(): (s: ListState)
    ensures s.firms == Some([]) && s.loading && s.filter == All
    ensures Render(s) == LoadingPage
  {
    ListState(Some([]), true, All)
  }

  /** `fetchFirms` after its request: store the reply's `firms` if a body
      arrived, and stop loading either way. */
  function AfterFetch(s: ListState, reply: FirmsReply): (t: ListState)
    ensures !t.loading && t.filter == s.filter
    ensures reply.FirmsJson? ==> t.firms == reply.firms
    ensures reply.FirmsFailed? ==> t.firms == s.firms
  {
    ListState(if reply.FirmsJson? then reply.firms else s.firms, false, s.filter)
  }

  /** Clicking a filter tab. */
  function SelectFilter(s: ListState, firmType: string): (t: ListState)
    ensures t.filter == firmType && t.firms == s.firms && t.loading == s.loading
  {
    s.(filter := firmType)
  }

  /** `firm` passes the filter. */
  predicate Shown(firm: FirmSummary, filter: string) {
    filter == All || firm.firmType == filter
  }

  /** `filteredFirms`: the firms the filter lets through, in their order. */
  function Filtered(firms: seq<FirmSummary>, filter: string): (r: seq<FirmSummary>)
    ensures |r| <= |firms|
    ensures forall x :: x in r <==> x in firms && Shown(x, filter)
    ensures filter == All ==> r == firms
  {
    if firms == [] then []
    else if Shown(firms[0], filter) then [firms[0]] + Filtered(firms[1..], filter)
    else Filtered(firms[1..], filter)
  }

  /** The filter works element by element: filtering a concatenation is
      concatenating the filtered parts, so a single firm is kept exactly when
      it passes and the kept firms stay in their input order. */
  lemma {:induction false} FilteredConcat(a: seq<FirmSummary>, b: seq<FirmSummary>, filter: string)
    ensures Filtered(a + b, filter) == Filtered(a, filter) + Filtered(b, filter)
  {
    if a == [] {
      assert a + b == b;
    } else {
      assert (a + b)[0] == a[0];
      assert (a + b)[1..] == a[1..] + b;
      FilteredConcat(a[1..], b, filter);
      if Shown(a[0], filter) {
        assert Filtered(a + b, filter) == [a[0]] + Filtered(a[1..] + b, filter);
      } else {
        assert Filtered(a + b, filter) == Filtered(a[1..] + b, filter);
      }
    }
  }

  /** One firm is kept exactly when it passes the filter. */
  lemma FilteredSingle(x: FirmSummary, filter: string)
    ensures Filtered([x], filter) == if Shown(x, filter) then [x] else []
  {
    assert [x][1..] == [];
  }

  /** Filtering twice by the same tab is filtering once. */
  lemma {:induction false} FilteredIdempotent(firms: seq<FirmSummary>, filter: string)
    ensures Filtered(Filtered(firms, filter), filter) == Filtered(firms, filter)
  {
    if firms != [] {
      FilteredIdempotent(firms[1..], filter);
      if Shown(firms[0], filter) {
        var r := Filtered(firms, filter);
        assert r[0] == firms[0] && r[1..] == Filtered(firms[1..], filter);
      }
    }
  }

  /** The filter keeps the server's ranking: a filtered list of ranked firms
      is still ranked. */
  lemma {:induction false} FilteredOrdered(firms: seq<FirmSummary>, filter: string)
    requires Ordered(firms)
    ensures Ordered(Filtered(firms, filter))
  {
    if firms != [] {
      var rest := firms[1..];
      assert Ordered(rest) by {
        forall i, j | 0 <= i < j < |rest|
          ensures SummaryBefore(rest[i], rest[j])
        {
          assert rest[i] == firms[i + 1] && rest[j] == firms[j + 1];
        }
      }
      FilteredOrdered(rest, filter);
      if Shown(firms[0], filter) {
        var tail := Filtered(rest, filter);
        var r := [firms[0]] + tail;
        forall i, j | 0 <= i < j < |r|
          ensures SummaryBefore(r[i], r[j])
        {
          if i == 0 {
            assert r[j] == tail[j - 1];
            assert tail[j - 1] in rest;
            var m :| 0 <= m < |rest| && rest[m] == tail[j - 1];
            assert firms[m + 1] == r[j];
          } else {
            assert r[i] == tail[i - 1] && r[j] == tail[j - 1];
          }
        }
      }
    }
  }

  /** The tier of a win rate: at least 60, at least 40, or below. */
  function TierOf(winRate: real): (t: Tier)
    ensures t == High <==> winRate >= 60.0
    ensures t == Middle <==> 40.0 <= winRate < 60.0
    ensures t == Low <==> winRate < 40.0
  {
    if winRate >= 60.0 then High else if winRate >= 40.0 then Middle else Low
  }

  function Rank(t: Tier): nat {
    match t
    case Low => 0
    case Middle => 1
    case High => 2
  }

  /** A higher win rate never lands in a lower tier. */
  lemma TierMonotone(a: real, b: real)
    requires a <= b
    ensures Rank(TierOf(a)) <= Rank(TierOf(b))
  {
  }

  /** The tiers in terms of the vote counts behind an exact win rate: 60% and
      above is three wins in every five votes, below 40% fewer than two. */
  lemma TierOfVotes(wins: nat, total: nat)
    requires 0 < total
    ensures TierOf(WinRate(wins, total)) == High <==> 5 * wins >= 3 * total
    ensures TierOf(WinRate(wins, total)) == Low <==> 5 * wins < 2 * total
  {
    var r := WinRate(wins, total);
    var w, t := wins as real, total as real;
    RateThreshold(r, w, t, 60.0);
    RateThreshold(r, w, t, 40.0);
    assert (5 * wins) as real == 5.0 * w;
    assert (3 * total) as real == 3.0 * t && (2 * total) as real == 2.0 * t;
  }

  /** A rate `r` with `r * t == w * 100` reaches a threshold exactly when
      `w` reaches that share of `t`. */
  lemma RateThreshold(r: real, w: real, t: real, c: real)
    requires t > 0.0 && r * t == w * 100.0
    ensures r >= c <==> w * 100.0 >= c * t
  {
    assert r * t - c * t == (r - c) * t;
    if r >= c {
      assert (r - c) * t >= 0.0;
    } else {
      assert (c - r) * t > 0.0;
    }
  }

  /** The class of the win-rate figure. */
  function TextClass(t: Tier): string {
    match t
    case High => "text-emerald-400"
    case Middle => "text-yellow-400"
    case Low => "text-red-400"
  }

  /** The class of the win-rate bar. */
  function BarClass(t: Tier): string {
    match t
    case High => "bg-gradient-to-r from-emerald-500 to-emerald-400"
    case Middle => "bg-gradient-to-r from-yellow-500 to-yellow-400"
    case Low => "bg-gradient-to-r from-red-500 to-red-400"
  }

  /** `FIRM_COLOR_MAP[type] || grey`. */
  function BadgeClass(firmType: string): (c: string)
    ensures firmType in FirmColorMap ==> c == FirmColorMap[firmType]
    ensures firmType !in FirmColorMap ==> c == DefaultBadge
    ensures c != ""
  {
    if firmType in FirmColorMap then FirmColorMap[firmType] else DefaultBadge
  }

  /** One card: the statistics block is drawn exactly when the firm has votes,
      coloured by the tier of its win rate. */
  function CardOf(firm: FirmSummary): (c: Card)
    ensures c.id == firm.id && c.name == firm.name && c.firmType == firm.firmType
    ensures c.badgeClass == BadgeClass(firm.firmType)
    ensures c.stats.Stats? <==> firm.total > 0
    ensures c.stats.Stats? ==>
              c.stats.winRate == firm.winRate && c.stats.total == firm.total
              && c.stats.textClass == TextClass(TierOf(firm.winRate))
              && c.stats.barClass == BarClass(TierOf(firm.winRate))
  {
    var stats :=
      if firm.total > 0 then
        var t := TierOf(firm.winRate);
        Stats(firm.winRate, TextClass(t), BarClass(t), firm.total)
      else NoData;
    Card(firm.id, firm.name, firm.firmType, BadgeClass(firm.firmType), stats)
  }

  function CardsOf(firms: seq<FirmSummary>): (cs: seq<Card>)
    ensures |cs| == |firms|
    ensures forall k :: 0 <= k < |firms| ==> cs[k] == CardOf(firms[k])
  {
    if firms == [] then [] else [CardOf(firms[0])] + CardsOf(firms[1..])
  }

  /** The tab row: labelled by type ("All" for the catch-all) and active
      exactly when it is the current filter. */
  function Tabs(filter: string): (tabs: seq<Tab>)
    ensures |tabs| == |FilterTypes|
    ensures forall k :: 0 <= k < |tabs| ==>
              tabs[k].firmType == FilterTypes[k]
              && (tabs[k].active <==> FilterTypes[k] == filter)
              && tabs[k].caption == (if FilterTypes[k] == All then "All" else FilterTypes[k])
  {
    seq(|FilterTypes|, k requires 0 <= k < |FilterTypes| =>
      Tab(FilterTypes[k], if FilterTypes[k] == All then "All" else FilterTypes[k], FilterTypes[k] == filter))
  }

  /** At most one tab is active, and one is exactly when the filter is a tab's. */
  lemma OneActiveTab(filter: string)
    ensures forall i, j :: 0 <= i < j < |Tabs(filter)| ==> !(Tabs(filter)[i].active && Tabs(filter)[j].active)
    ensures (exists k :: 0 <= k < |Tabs(filter)| && Tabs(filter)[k].active) <==> filter in FilterTypes
  {
    var tabs := Tabs(filter);
    if filter in FilterTypes {
      var k :| 0 <= k < |FilterTypes| && FilterTypes[k] == filter;
      assert tabs[k].active;
    }
  }

  /** The page: the filter is applied before anything else, so a missing
      firm list breaks rendering; otherwise the loading message, the "No
      firms found" panel when nothing passes the filter, or the grid. */
  function Render(s: ListState): (p: Page)
    ensures p == RenderError <==> s.firms.None?
    ensures p == LoadingPage <==> s.firms.Some? && s.loading
    ensures p.NoFirmsFound? <==> s.firms.Some? && !s.loading && Filtered(s.firms.value, s.filter) == []
    ensures p.Grid? ==> p.cards == CardsOf(Filtered(s.firms.value, s.filter))
    ensures p.NoFirmsFound? || p.Grid? ==> p.tabs == Tabs(s.filter)
  {
    if s.firms.None? then RenderError
    else
      var shown := Filtered(s.firms.value, s.filter);
      if s.loading then LoadingPage
      else if shown == [] then NoFirmsFound(Tabs(s.filter))
      else Grid(Tabs(s.filter), CardsOf(shown))
  }

  /** After a successful fetch of a ranked list, the grid shows the firms of
      the current tab in ranking order, every one of them with its card. */
  lemma {:induction false} GridAfterFetch(s: ListState, firms: seq<FirmSummary>)
    requires Ordered(firms)
    ensures var p := Render(AfterFetch(s, FirmsJson(Some(firms))));
            var shown := Filtered(firms, s.filter);
            Ordered(shown)
            && (p.Grid? <==> shown != [])
            && (p.Grid? ==> |p.cards| == |shown| && forall k :: 0 <= k < |shown| ==> p.cards[k] == CardOf(shown[k]))
  {
    FilteredOrdered(firms, s.filter);
  }

  /** A failed first fetch leaves the initial empty list, so the page shows
      "No firms found" under the "All" tab. */
  lemma FailedFetchShowsNoFirms()
    ensures Render(AfterFetch(InitialState(), FirmsFailed)) == NoFirmsFound(Tabs(All))
  {
  }
}
