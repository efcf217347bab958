/**
 * The read side of the QuantRank server: the SQL queries of `get_firms` and
 * `get_firm_details` (backend/app.py), restated as functions over the two
 * tables, held here as sequences of rows in insertion order.
 */
module Queries {
  import opened Domain
  import opened Text

  /** A row of the `firms` table (`created_at` is not modelled). */
  datatype Firm = Firm(id: int, name: string, firmType: string)

  /** A row of the `votes` table; `comment` is NULL when None. */
  datatype Vote = Vote(id: int, winner: int, loser: int, comment: Option<string>)

  function Ref(f: Firm): (r: FirmRef)
    ensures r.id == f.id && r.name == f.name && r.firmType == f.firmType
  {
    FirmRef(f.id, f.name, f.firmType)
  }

  function Refs(firms: seq<Firm>): (r: seq<FirmRef>)
    ensures |r| == |firms|
    ensures forall k :: 0 <= k < |firms| ==> r[k] == Ref(firms[k])
  {
    if firms == [] then [] else [Ref(firms[0])] + Refs(firms[1..])
  }

  // ---------------------------------------------------------------------------
  // Counting wins and losses
  // ---------------------------------------------------------------------------

  /** Number of votes naming `firmId` as winner. */
  function Wins(votes: seq<Vote>, firmId: int): (n: nat)
    ensures n <= |votes|
  {
    if votes == [] then 0
    else (if votes[0].winner == firmId then 1 else 0) + Wins(votes[1..], firmId)
  }

  /** Number of votes naming `firmId` as loser. */
  function Losses(votes: seq<Vote>, firmId: int): (n: nat)
    ensures n <= |votes|
  {
    if votes == [] then 0
    else (if votes[0].loser == firmId then 1 else 0) + Losses(votes[1..], firmId)
  }

  /** Appending a vote adds one win to its winner and one loss to its loser,
      and changes no other firm's counts. */
  lemma {:induction false} CountsAppend(votes: seq<Vote>, v: Vote, firmId: int)
    ensures Wins(votes + [v], firmId) == Wins(votes, firmId) + (if v.winner == firmId then 1 else 0)
    ensures Losses(votes + [v], firmId) == Losses(votes, firmId) + (if v.loser == firmId then 1 else 0)
  {
    if votes != [] {
      assert (votes + [v])[1..] == votes[1..] + [v];
      CountsAppend(votes[1..], v, firmId);
    }
  }

  // ---------------------------------------------------------------------------
  // get_firms: one aggregated row per firm, ordered by wins DESC, name ASC
  // ---------------------------------------------------------------------------

  /** A row of the aggregate query of `get_firms`. */
  datatype Row = Row(id: int, name: string, firmType: string, wins: nat, losses: nat)

  function RowOf(f: Firm, votes: seq<Vote>): (r: Row)
    ensures r.id == f.id && r.name == f.name && r.firmType == f.firmType
    ensures r.wins == Wins(votes, f.id) && r.losses == Losses(votes, f.id)
  {
    Row(f.id, f.name, f.firmType, Wins(votes, f.id), Losses(votes, f.id))
  }

  /** The grouped rows, one per firm, in table order (before ORDER BY). */
  function RowsOf(firms: seq<Firm>, votes: seq<Vote>): (r: seq<Row>)
    ensures |r| == |firms|
    ensures forall k :: 0 <= k < |firms| ==> r[k] == RowOf(firms[k], votes)
  {
    if firms == [] then [] else [RowOf(firms[0], votes)] + RowsOf(firms[1..], votes)
  }

  /** `a` may come before `b` under `ORDER BY wins DESC, name ASC`. */
  predicate Before(a: Row, b: Row) {
    a.wins > b.wins || (a.wins == b.wins && LexLe(a.name, b.name))
  }

  /** The same order on the entries `get_firms` returns. */
  predicate SummaryBefore(a: FirmSummary, b: FirmSummary) {
    a.wins > b.wins || (a.wins == b.wins && LexLe(a.name, b.name))
  }

  /** A list of entries in the order of `/api/firms`. */
  predicate Ordered(s: seq<FirmSummary>) {
    forall i, j :: 0 <= i < j < |s| ==> SummaryBefore(s[i], s[j])
  }

  lemma BeforeTotal(a: Row, b: Row)
    ensures Before(a, b) || Before(b, a)
  {
    LexLeTotal(a.name, b.name);
  }

  lemma BeforeTransitive(a: Row, b: Row, c: Row)
    requires Before(a, b) && Before(b, c)
    ensures Before(a, c)
  {
    if a.wins == b.wins == c.wins {
      LexLeTransitive(a.name, b.name, c.name);
    }
  }

  predicate Ranked(rows: seq<Row>) {
    forall i, j :: 0 <= i < j < |rows| ==> Before(rows[i], rows[j])
  }

  /** Inserts `x` in front of the first row it may precede. */
  function Insert(x: Row, rows: seq<Row>): (r: seq<Row>)
    ensures |r| == |rows| + 1
    ensures multiset(r) == multiset(rows) + multiset{x}
  {
    if rows == [] || Before(x, rows[0]) then [x] + rows
    else
      var tail := Insert(x, rows[1..]);
      assert rows == [rows[0]] + rows[1..];
      [rows[0]] + tail
  }

  lemma {:induction false} InsertRanked(x: Row, rows: seq<Row>)
    requires Ranked(rows)
    ensures Ranked(Insert(x, rows))
  {
    if rows == [] {
    } else if Before(x, rows[0]) {
      forall j | 0 <= j < |rows| ensures Before(x, rows[j]) {
        if j > 0 { BeforeTransitive(x, rows[0], rows[j]); }
      }
    } else {
      BeforeTotal(x, rows[0]);
      var tail := Insert(x, rows[1..]);
      InsertRanked(x, rows[1..]);
      forall j | 0 <= j < |tail| ensures Before(rows[0], tail[j]) {
        assert tail[j] in multiset(tail);
        if tail[j] != x {
          assert tail[j] in multiset(rows[1..]);
          var m :| 0 <= m < |rows[1..]| && rows[1..][m] == tail[j];
          assert rows[m + 1] == tail[j];
        }
      }
    }
  }

  /** The rows in `ORDER BY wins DESC, name ASC` order. */
  function SortRows(rows: seq<Row>): (r: seq<Row>)
    ensures multiset(r) == multiset(rows)
  {
    if rows == [] then []
    else
      assert rows == [rows[0]] + rows[1..];
      Insert(rows[0], SortRows(rows[1..]))
  }

  lemma {:induction false} SortRowsRanked(rows: seq<Row>)
    ensures Ranked(SortRows(rows))
  {
    if rows != [] {
      SortRowsRanked(rows[1..]);
      InsertRanked(rows[0], SortRows(rows[1..]));
    }
  }

  /** The JSON entry the loop of `get_firms` builds from a row: the counts,
      their sum as `total`, and the win rate. */
  function Summarise(row: Row): (s: FirmSummary)
    ensures s.id == row.id && s.name == row.name && s.firmType == row.firmType
    ensures s.wins == row.wins && s.losses == row.losses
    ensures s.total == s.wins + s.losses
    ensures s.winRate == WinRate(s.wins, s.total)
    ensures 0.0 <= s.winRate <= 100.0
    ensures s.total == 0 ==> s.winRate == 0.0
    ensures s.total > 0 ==> s.winRate * (s.total as real) == (s.wins as real) * 100.0
  {
    var total := row.wins + row.losses;
    FirmSummary(row.id, row.name, row.firmType, row.wins, row.losses, total, WinRate(row.wins, total))
  }

  function SummariseAll(rows: seq<Row>): (r: seq<FirmSummary>)
    ensures |r| == |rows|
    ensures forall k :: 0 <= k < |rows| ==> r[k] == Summarise(rows[k])
  {
    if rows == [] then [] else [Summarise(rows[0])] + SummariseAll(rows[1..])
  }

  /** The statistics of each firm, in table order: the reference for `get_firms`. */
  function Summaries(firms: seq<Firm>, votes: seq<Vote>): (r: seq<FirmSummary>)
    ensures |r| == |firms|
  {
    SummariseAll(RowsOf(firms, votes))
  }

  lemma {:induction false} SummariseAllConcat(a: seq<Row>, b: seq<Row>)
    ensures SummariseAll(a + b) == SummariseAll(a) + SummariseAll(b)
  {
    assert |SummariseAll(a + b)| == |SummariseAll(a) + SummariseAll(b)|;
    forall k | 0 <= k < |a| + |b|
      ensures SummariseAll(a + b)[k] == (SummariseAll(a) + SummariseAll(b))[k]
    {
      if k < |a| { assert (a + b)[k] == a[k]; } else { assert (a + b)[k] == b[k - |a|]; }
    }
  }

  /** Reordering the rows reorders their summaries the same way. */
  lemma {:induction false} SummariseAllPermutation(a: seq<Row>, b: seq<Row>)
    requires multiset(a) == multiset(b)
    ensures multiset(SummariseAll(a)) == multiset(SummariseAll(b))
    decreases |a|
  {
    if a == [] {
      assert |b| == |multiset(b)| == 0;
    } else {
      var x := a[0];
      assert x in multiset(b) by { assert a == [x] + a[1..]; }
      var j :| 0 <= j < |b| && b[j] == x;
      var rest := b[..j] + b[j + 1..];
      assert b == b[..j] + [x] + b[j + 1..];
      assert a == [x] + a[1..];
      assert multiset(b) == multiset(b[..j]) + multiset{x} + multiset(b[j + 1..]);
      assert multiset(rest) == multiset(b[..j]) + multiset(b[j + 1..]);
      assert multiset(a) == multiset{x} + multiset(a[1..]);
      assert multiset(a[1..]) == multiset(a) - multiset{x};
      assert multiset(rest) == multiset(b) - multiset{x};
      SummariseAllPermutation(a[1..], rest);
      SummariseAllConcat([x], a[1..]);
      SummariseAllConcat(b[..j], [x]);
      SummariseAllConcat(b[..j] + [x], b[j + 1..]);
      SummariseAllConcat(b[..j], b[j + 1..]);
    }
  }

  /** The summaries of the ordered rows: a permutation of the per-firm
      statistics, ranked by wins descending and then by name. */
  lemma RankedSummaries(firms: seq<Firm>, votes: seq<Vote>)
    ensures var r := SummariseAll(SortRows(RowsOf(firms, votes)));
            && multiset(r) == multiset(Summaries(firms, votes))
            && Ordered(r)
  {
    var grouped := RowsOf(firms, votes);
    var rows := SortRows(grouped);
    var r := SummariseAll(rows);
    SortRowsRanked(grouped);
    SummariseAllPermutation(rows, grouped);
    forall i, j | 0 <= i < j < |r| ensures SummaryBefore(r[i], r[j]) {
      assert Before(rows[i], rows[j]);
    }
  }

  // ---------------------------------------------------------------------------
  // get_firm_details
  // ---------------------------------------------------------------------------

  /** The row with primary key `id`, if any. */
  function FindFirm(firms: seq<Firm>, id: int): (r: Option<Firm>)
    ensures r.Some? ==> r.value in firms && r.value.id == id
    ensures r.None? ==> forall k :: 0 <= k < |firms| ==> firms[k].id != id
  {
    if firms == [] then None
    else if firms[0].id == id then Some(firms[0])
    else FindFirm(firms[1..], id)
  }

  /** The name the `LEFT JOIN firms f2` finds for `id`, or NULL. */
  function NameOf(firms: seq<Firm>, id: int): (r: Option<string>)
  {
    match FindFirm(firms, id)
    case Some(f) => Some(f.name)
    case None => None
  }

  predicate Involves(v: Vote, firmId: int) {
    v.winner == firmId || v.loser == firmId
  }

  /** The votes whose comments `get_firm_details` reports: those involving the
      firm with a non-NULL comment. */
  predicate Reported(v: Vote, firmId: int) {
    Involves(v, firmId) && v.comment.Some?
  }

  /** The firm on the other side of `v` from `firmId`. */
  function OtherSide(v: Vote, firmId: int): int {
    if v.winner == firmId then v.loser else v.winner
  }

  /** The projection of one reported vote: `picked` exactly when the firm won,
      and the name of the other side's firm. */
  function ViewOf(firms: seq<Firm>, v: Vote, firmId: int): (c: CommentView)
    requires v.comment.Some?
    ensures c.text == v.comment.value
    ensures c.sentiment == Picked <==> v.winner == firmId
    ensures c.otherFirm == NameOf(firms, OtherSide(v, firmId))
  {
    CommentView(v.comment.value, if v.winner == firmId then Picked else Passed,
                NameOf(firms, OtherSide(v, firmId)))
  }

  /** The reported votes, oldest first. */
  function ReportedVotes(votes: seq<Vote>, firmId: int): (r: seq<Vote>)
    ensures forall v :: v in r <==> v in votes && Reported(v, firmId)
    ensures forall k :: 0 <= k < |r| ==> Reported(r[k], firmId)
    ensures AllCommented(r)
  {
    if votes == [] then []
    else
      var rest := ReportedVotes(votes[1..], firmId);
      assert forall v :: v in votes <==> v == votes[0] || v in votes[1..] by {
        assert votes == [votes[0]] + votes[1..];
      }
      (if Reported(votes[0], firmId) then [votes[0]] else []) + rest
  }

  predicate AllCommented(vs: seq<Vote>) {
    forall k :: 0 <= k < |vs| ==> vs[k].comment.Some?
  }

  function Views(firms: seq<Firm>, vs: seq<Vote>, firmId: int): (r: seq<CommentView>)
    requires AllCommented(vs)
    ensures |r| == |vs|
    ensures forall k :: 0 <= k < |vs| ==> r[k] == ViewOf(firms, vs[k], firmId)
  {
    if vs == [] then [] else [ViewOf(firms, vs[0], firmId)] + Views(firms, vs[1..], firmId)
  }

  function Reverse<T>(s: seq<T>): (r: seq<T>)
    ensures |r| == |s|
    ensures forall k {:trigger r[k]} :: 0 <= k < |s| ==> r[k] == s[|s| - 1 - k]
  {
    if s == [] then [] else Reverse(s[1..]) + [s[0]]
  }

  /** The comment projection in `ORDER BY created_at DESC` order, taking later
      insertion as later creation: walks the table from its newest row. */
  function NewestFirst(firms: seq<Firm>, votes: seq<Vote>, firmId: int): (r: seq<CommentView>)
    ensures |r| <= |votes|
    ensures |r| == |ReportedVotes(votes, firmId)|
  {
    if votes == [] then []
    else
      var init, v := votes[..|votes| - 1], votes[|votes| - 1];
      assert votes == init + [v];
      ReportedVotesAppend(init, v, firmId);
      (if Reported(v, firmId) then [ViewOf(firms, v, firmId)] else [])
        + NewestFirst(firms, init, firmId)
  }

  lemma {:induction false} ReportedVotesAppend(votes: seq<Vote>, v: Vote, firmId: int)
    ensures ReportedVotes(votes + [v], firmId)
         == ReportedVotes(votes, firmId) + (if Reported(v, firmId) then [v] else [])
  {
    if votes != [] {
      assert (votes + [v])[1..] == votes[1..] + [v];
      ReportedVotesAppend(votes[1..], v, firmId);
    }
  }

  lemma ReversedViewsSnoc(firms: seq<Firm>, vs: seq<Vote>, v: Vote, firmId: int)
    requires AllCommented(vs)
    requires v.comment.Some?
    ensures AllCommented(vs + [v])
    ensures Reverse(Views(firms, vs + [v], firmId))
         == [ViewOf(firms, v, firmId)] + Reverse(Views(firms, vs, firmId))
  {
    var all := vs + [v];
    var va, vo := Views(firms, all, firmId), Views(firms, vs, firmId);
    var lhs, ro := Reverse(va), Reverse(vo);
    var rhs := [ViewOf(firms, v, firmId)] + ro;
    assert |lhs| == |rhs|;
    forall k | 0 <= k < |lhs| ensures lhs[k] == rhs[k] {
      if k == 0 {
        assert lhs[0] == va[|vs|] == ViewOf(firms, all[|vs|], firmId);
      } else {
        var m := |vs| - k;
        assert lhs[k] == va[m] == ViewOf(firms, all[m], firmId);
        assert all[m] == vs[m];
        assert rhs[k] == ro[k - 1] == vo[m];
      }
    }
  }

  /** Walking from the newest row gives the reported votes' projections,
      newest first. */
  lemma {:induction false} NewestFirstIsReversed(firms: seq<Firm>, votes: seq<Vote>, firmId: int)
    ensures NewestFirst(firms, votes, firmId)
         == Reverse(Views(firms, ReportedVotes(votes, firmId), firmId))
  {
    if votes != [] {
      var init, v := votes[..|votes| - 1], votes[|votes| - 1];
      assert votes == init + [v];
      var older := ReportedVotes(init, firmId);
      var rest := NewestFirst(firms, init, firmId);
      NewestFirstIsReversed(firms, init, firmId);
      assert rest == Reverse(Views(firms, older, firmId));
      ReportedVotesAppend(init, v, firmId);
      if Reported(v, firmId) {
        assert NewestFirst(firms, votes, firmId) == [ViewOf(firms, v, firmId)] + rest;
        assert ReportedVotes(votes, firmId) == older + [v];
        ReversedViewsSnoc(firms, older, v, firmId);
      } else {
        assert NewestFirst(firms, votes, firmId) == rest;
        assert ReportedVotes(votes, firmId) == older;
      }
    }
  }

  const CommentLimit := 20

  datatype FirmDetails = FirmDetails(firm: FirmSummary, comments: seq<CommentView>)

  /** `get_firm_details`: not-found for an unknown id; otherwise the firm's
      statistics and its newest comments (at most 20). */
  function GetFirmDetails(firms: seq<Firm>, votes: seq<Vote>, firmId: int): (r: Result<FirmDetails>)
    ensures r.Err? <==> forall k :: 0 <= k < |firms| ==> firms[k].id != firmId
    ensures r.Err? ==> r.error == ApiError(404, "Firm not found")
    ensures r.Ok? ==> r.value.firm.id == firmId
    ensures r.Ok? ==> r.value.firm.wins == Wins(votes, firmId)
    ensures r.Ok? ==> r.value.firm.losses == Losses(votes, firmId)
    ensures r.Ok? ==> r.value.firm.total == r.value.firm.wins + r.value.firm.losses
    ensures r.Ok? ==> r.value.firm.winRate == WinRate(r.value.firm.wins, r.value.firm.total)
    ensures r.Ok? ==> 0.0 <= r.value.firm.winRate <= 100.0
    ensures r.Ok? ==> |r.value.comments| <= CommentLimit
  {
    match FindFirm(firms, firmId)
    case None => Err(ApiError(404, "Firm not found"))
    case Some(f) =>
      Ok(FirmDetails(Summarise(RowOf(f, votes)), Take(NewestFirst(firms, votes, firmId), CommentLimit)))
  }

  /** The reported comments are the projections of the votes that involve the
      firm and carry a comment (see `ReportedVotes`, `ViewOf`), newest first,
      cut to the first 20. */
  lemma FirmDetailsComments(firms: seq<Firm>, votes: seq<Vote>, firmId: int)
    requires GetFirmDetails(firms, votes, firmId).Ok?
    ensures GetFirmDetails(firms, votes, firmId).value.comments
         == Take(Reverse(Views(firms, ReportedVotes(votes, firmId), firmId)), CommentLimit)
  {
    NewestFirstIsReversed(firms, votes, firmId);
  }

  /** With unique ids, the lookup by a firm's id finds that firm. */
  lemma {:induction false} FindFirmAt(firms: seq<Firm>, k: nat)
    requires k < |firms|
    requires forall j :: 0 <= j < k ==> firms[j].id != firms[k].id
    ensures FindFirm(firms, firms[k].id) == Some(firms[k])
  {
    if k > 0 {
      FindFirmAt(firms[1..], k - 1);
    }
  }

  /** The statistics `get_firm_details` reports for a firm are the entry
      `get_firms` builds for it, when firm ids are unique. */
  lemma DetailsMatchSummary(firms: seq<Firm>, votes: seq<Vote>, k: nat)
    requires k < |firms|
    requires forall i, j :: 0 <= i < j < |firms| ==> firms[i].id != firms[j].id
    ensures GetFirmDetails(firms, votes, firms[k].id).Ok?
    ensures GetFirmDetails(firms, votes, firms[k].id).value.firm == Summaries(firms, votes)[k]
  {
    FindFirmAt(firms, k);
  }
}
