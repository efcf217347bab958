/**
 * The write side of the QuantRank server (backend/app.py): the two SQLite
 * tables held as sequences of rows in insertion order, with the endpoints
 * that change them (`submit_vote`, `add_comment_to_vote`, the seeding loop of
 * `init_db`) and the two that read them through a loop or a random choice
 * (`get_firms`, `get_matchup`). `get_firm_details` is `Queries.GetFirmDetails`.
 */
module Store {
  import opened Domain
  import opened Text
  import opened Queries

  /** The parsed JSON body of `POST /api/vote`; a field is None when it is
      absent or null. */
  datatype VoteBody = VoteBody(winnerId: Option<int>, loserId: Option<int>, comment: Option<string>)

  /** The parsed JSON body of `POST /api/vote/<id>/comment`. */
  datatype CommentBody = CommentBody(comment: Option<string>)

  /** One entry of the seed file read by `init_db`. */
  datatype SeedEntry = SeedEntry(name: Option<string>, firmType: Option<string>)

  /** `(comment or '').strip()`. */
  function CommentText(c: Option<string>): (r: string)
    ensures r == [] <==> c.None? || AllSpace(Python, c.value)
    ensures c.Some? ==> r == Strip(Python, c.value)
  {
    Strip(Python, if c.Some? then c.value else "")
  }

  /** What `submit_vote` stores in the `comment` column: the stripped text, or
      NULL when nothing is left. */
  function StoredComment(c: Option<string>): (r: Option<string>)
    ensures r.None? <==> c.None? || AllSpace(Python, c.value)
    ensures r.Some? ==> r.value == Strip(Python, c.value) && r.value != [] && Strip(Python, r.value) == r.value
  {
    var t := CommentText(c);
    if t == [] then None
    else
      StripIdempotent(Python, c.value);
      Some(t)
  }

  // ---------------------------------------------------------------------------
  // Table invariants
  // ---------------------------------------------------------------------------

  /** `id INTEGER PRIMARY KEY AUTOINCREMENT, name TEXT UNIQUE`: ids are
      positive, below the next id to hand out and increasing in insertion
      order; no two rows share a name. */
  ghost predicate FirmTable(firms: seq<Firm>, nextId: int) {
    && 0 < nextId
    && (forall i :: 0 <= i < |firms| ==> 0 < firms[i].id < nextId)
    && (forall i, j :: 0 <= i < j < |firms| ==> firms[i].id < firms[j].id)
    && (forall i, j :: 0 <= i < j < |firms| ==> firms[i].name != firms[j].name)
  }

  /** `id INTEGER PRIMARY KEY AUTOINCREMENT` on `votes`. */
  ghost predicate VoteTable(votes: seq<Vote>, nextId: int) {
    && 0 < nextId
    && (forall i :: 0 <= i < |votes| ==> 0 < votes[i].id < nextId)
    && (forall i, j :: 0 <= i < j < |votes| ==> votes[i].id < votes[j].id)
  }

  predicate HasName(firms: seq<Firm>, name: string) {
    exists k :: 0 <= k < |firms| && firms[k].name == name
  }

  predicate HasVote(votes: seq<Vote>, voteId: int) {
    exists k :: 0 <= k < |votes| && votes[k].id == voteId
  }

  // ---------------------------------------------------------------------------
  // Seeding
  // ---------------------------------------------------------------------------

  /** The filter of `init_db`: both `name` and `type` present and non-empty. */
  predicate Keep(e: SeedEntry) {
    e.name.Some? && e.name.value != "" && e.firmType.Some? && e.firmType.value != ""
  }

  /** `[firm for firm in firms_data if firm.get('name') and firm.get('type')]`. */
  function KeptEntries(data: seq<SeedEntry>): (r: seq<SeedEntry>)
    ensures forall e :: e in r <==> e in data && Keep(e)
    ensures forall k :: 0 <= k < |r| ==> Keep(r[k])
  {
    if data == [] then []
    else
      assert forall e :: e in data <==> e == data[0] || e in data[1..] by {
        assert data == [data[0]] + data[1..];
      }
      (if Keep(data[0]) then [data[0]] else []) + KeptEntries(data[1..])
  }

  /** The comprehension keeps its input's order: filtering a concatenation
      concatenates the filtered parts. This decides which of two entries with
      the same name `INSERT OR IGNORE` stores. */
  lemma {:induction false} KeptEntriesConcat(a: seq<SeedEntry>, b: seq<SeedEntry>)
    ensures KeptEntries(a + b) == KeptEntries(a) + KeptEntries(b)
  {
    if a == [] {
      assert a + b == b;
    } else {
      assert (a + b)[0] == a[0];
      assert (a + b)[1..] == a[1..] + b;
      KeptEntriesConcat(a[1..], b);
    }
  }

  /** `INSERT OR IGNORE INTO firms (name, type)`: ignored when the name is taken. */
  function InsertOrIgnore(firms: seq<Firm>, nextId: int, e: SeedEntry): (r: (seq<Firm>, int))
    requires Keep(e)
    ensures HasName(r.0, e.name.value)
    ensures HasName(firms, e.name.value) ==> r == (firms, nextId)
    ensures !HasName(firms, e.name.value) ==>
              r.0 == firms + [Firm(nextId, e.name.value, e.firmType.value)] && r.1 == nextId + 1
  {
    if HasName(firms, e.name.value) then (firms, nextId)
    else
      var fs := firms + [Firm(nextId, e.name.value, e.firmType.value)];
      assert fs[|firms|].name == e.name.value;
      (fs, nextId + 1)
  }

  /** The firms table and next id after inserting `entries` in order. */
  function Seeded(firms: seq<Firm>, nextId: int, entries: seq<SeedEntry>): (r: (seq<Firm>, int))
    requires forall k :: 0 <= k < |entries| ==> Keep(entries[k])
    ensures |firms| <= |r.0| <= |firms| + |entries| && r.0[..|firms|] == firms
    ensures r.1 - nextId == |r.0| - |firms|
  {
    if entries == [] then (firms, nextId)
    else
      var (fs, n) := Seeded(firms, nextId, entries[..|entries| - 1]);
      InsertOrIgnore(fs, n, entries[|entries| - 1])
  }

  /** Seeding keeps the table invariant (names stay unique), keeps the
      existing rows, and every row it adds comes from a kept entry. */
  lemma {:induction false} SeededTable(firms: seq<Firm>, nextId: int, entries: seq<SeedEntry>)
    requires forall k :: 0 <= k < |entries| ==> Keep(entries[k])
    requires FirmTable(firms, nextId)
    ensures var (fs, n) := Seeded(firms, nextId, entries);
            && FirmTable(fs, n)
            && |firms| <= |fs| && fs[..|firms|] == firms
            && forall k :: |firms| <= k < |fs| ==>
                 SeedEntry(Some(fs[k].name), Some(fs[k].firmType)) in entries
  {
    if entries != [] {
      var init, e := entries[..|entries| - 1], entries[|entries| - 1];
      SeededTable(firms, nextId, init);
      var (fs, n) := Seeded(firms, nextId, init);
      assert Seeded(firms, nextId, entries) == InsertOrIgnore(fs, n, e);
      assert e == SeedEntry(Some(e.name.value), Some(e.firmType.value));
      forall k | |firms| <= k < |fs| ensures SeedEntry(Some(fs[k].name), Some(fs[k].firmType)) in entries {
        assert SeedEntry(Some(fs[k].name), Some(fs[k].firmType)) in init;
      }
    }
  }

  /** After seeding, every kept entry's name is in the table. */
  lemma {:induction false} SeededHasEveryName(firms: seq<Firm>, nextId: int, entries: seq<SeedEntry>)
    requires forall k :: 0 <= k < |entries| ==> Keep(entries[k])
    ensures forall k :: 0 <= k < |entries| ==>
              HasName(Seeded(firms, nextId, entries).0, entries[k].name.value)
  {
    if entries != [] {
      var init, e := entries[..|entries| - 1], entries[|entries| - 1];
      SeededHasEveryName(firms, nextId, init);
      var (fs, n) := Seeded(firms, nextId, init);
      var fs' := Seeded(firms, nextId, entries).0;
      assert fs <= fs';
      forall k | 0 <= k < |entries| ensures HasName(fs', entries[k].name.value) {
        if k < |init| {
          assert entries[k] == init[k];
          var m :| 0 <= m < |fs| && fs[m].name == init[k].name.value;
          assert fs'[m] == fs[m];
        } else if !HasName(fs, e.name.value) {
          assert fs'[|fs|].name == e.name.value;
        }
      }
    }
  }

  // ---------------------------------------------------------------------------
  // Comment update
  // ---------------------------------------------------------------------------

  /** `UPDATE votes SET comment = ? WHERE id = ?`: every row with that id gets
      the comment; every other row, and every winner and loser, stays. */
  function WithComment(votes: seq<Vote>, voteId: int, text: string): (r: seq<Vote>)
    ensures |r| == |votes|
    ensures forall k :: 0 <= k < |votes| ==>
              && r[k].id == votes[k].id && r[k].winner == votes[k].winner && r[k].loser == votes[k].loser
              && (votes[k].id == voteId ==> r[k].comment == Some(text))
              && (votes[k].id != voteId ==> r[k] == votes[k])
  {
    if votes == [] then []
    else
      var v := votes[0];
      [if v.id == voteId then v.(comment := Some(text)) else v] + WithComment(votes[1..], voteId, text)
  }

  /** Setting the same comment twice is setting it once. */
  lemma WithCommentIdempotent(votes: seq<Vote>, voteId: int, text: string)
    ensures WithComment(WithComment(votes, voteId, text), voteId, text) == WithComment(votes, voteId, text)
  {
    var once := WithComment(votes, voteId, text);
    var twice := WithComment(once, voteId, text);
    forall k | 0 <= k < |votes| ensures twice[k] == once[k] {
      if votes[k].id == voteId {
        assert once[k] == votes[k].(comment := Some(text));
      }
    }
  }

  /** Adding a comment changes no firm's wins or losses. */
  lemma {:induction false} WithCommentKeepsCounts(votes: seq<Vote>, voteId: int, text: string, firmId: int)
    ensures Wins(WithComment(votes, voteId, text), firmId) == Wins(votes, firmId)
    ensures Losses(WithComment(votes, voteId, text), firmId) == Losses(votes, firmId)
  {
    if votes != [] {
      var r := WithComment(votes, voteId, text);
      assert r[1..] == WithComment(votes[1..], voteId, text);
      WithCommentKeepsCounts(votes[1..], voteId, text, firmId);
    }
  }

  /** Both tables of the server. */
  class Database {
    var firms: seq<Firm>
    var votes: seq<Vote>
    var nextFirmId: int
    var nextVoteId: int

    ghost predicate Valid()
      reads this
    {
      FirmTable(firms, nextFirmId) && VoteTable(votes, nextVoteId)
    }

    /** The freshly created, empty database. */
    constructor ()
      ensures Valid()
      ensures firms == [] && votes == []
      ensures nextFirmId == 1 && nextVoteId == 1
    {
      firms, votes := [], [];
      nextFirmId, nextVoteId := 1, 1;
    }

    /** The seeding loop of `init_db`: every entry that has a non-empty name
        and type is inserted unless its name is already taken. */
    method InitDb(data: seq<SeedEntry>)
      requires Valid()
      modifies this
      ensures Valid()
      ensures votes == old(votes) && nextVoteId == old(nextVoteId)
      ensures (firms, nextFirmId) == Seeded(old(firms), old(nextFirmId), KeptEntries(data))
    {
      var kept := KeptEntries(data);
      for i := 0 to |kept|
        invariant votes == old(votes) && nextVoteId == old(nextVoteId)
        invariant (firms, nextFirmId) == Seeded(old(firms), old(nextFirmId), kept[..i])
      {
        assert kept[..i + 1][..i] == kept[..i];
        var name, firmType := kept[i].name.value, kept[i].firmType.value;
        if !HasName(firms, name) {
          firms := firms + [Firm(nextFirmId, name, firmType)];
          nextFirmId := nextFirmId + 1;
        }
      }
      assert kept[..|kept|] == kept;
      SeededTable(old(firms), old(nextFirmId), kept);
    }

    /** `submit_vote`: rejects a missing body or a missing/falsy winner or
        loser id; otherwise appends one row with a fresh id. */
    method SubmitVote(body: Option<VoteBody>) returns (r: Result<int>)
      requires Valid()
      modifies this
      ensures Valid()
      ensures firms == old(firms) && nextFirmId == old(nextFirmId)
      ensures r.Err? <==> body.None? || !Truthy(body.value.winnerId) || !Truthy(body.value.loserId)
      ensures body.None? ==> r == Err(ApiError(400, "Invalid or missing JSON data in request body."))
      ensures body.Some? && r.Err? ==> r.error == ApiError(400, "Missing winner or loser ID")
      ensures r.Err? ==> votes == old(votes) && nextVoteId == old(nextVoteId)
      ensures r.Ok? ==> votes == old(votes) + [Vote(r.value, body.value.winnerId.value,
                                                    body.value.loserId.value,
                                                    StoredComment(body.value.comment))]
      ensures r.Ok? ==> !HasVote(old(votes), r.value)
    {
      if body.None? {
        return Err(ApiError(400, "Invalid or missing JSON data in request body."));
      }
      var data := body.value;
      var comment := CommentText(data.comment);
      if !Truthy(data.winnerId) || !Truthy(data.loserId) {
        return Err(ApiError(400, "Missing winner or loser ID"));
      }
      var dbComment := if comment != [] then Some(comment) else None;
      var voteId := nextVoteId;
      votes := votes + [Vote(voteId, data.winnerId.value, data.loserId.value, dbComment)];
      nextVoteId := nextVoteId + 1;
      r := Ok(voteId);
    }

    /** `add_comment_to_vote`: rejects a missing body, an empty or all-blank
        comment and an unknown vote; otherwise sets that vote's comment to
        the stripped text. */
    method AddComment(voteId: nat, body: Option<CommentBody>) returns (r: Result<string>)
      requires Valid()
      modifies this
      ensures Valid()
      ensures firms == old(firms) && nextFirmId == old(nextFirmId) && nextVoteId == old(nextVoteId)
      ensures body.None? ==> r == Err(ApiError(400, "Invalid or missing JSON data"))
      ensures body.Some? && CommentText(body.value.comment) == [] ==>
                r == Err(ApiError(400, "Comment cannot be empty"))
      ensures body.Some? && CommentText(body.value.comment) != [] && !HasVote(old(votes), voteId) ==>
                r == Err(ApiError(404, "Vote not found"))
      ensures r.Ok? <==> body.Some? && CommentText(body.value.comment) != [] && HasVote(old(votes), voteId)
      ensures r.Err? ==> votes == old(votes)
      ensures r.Ok? ==> votes == WithComment(old(votes), voteId, CommentText(body.value.comment))
    {
      if body.None? {
        return Err(ApiError(400, "Invalid or missing JSON data"));
      }
      var comment := CommentText(body.value.comment);
      if comment == [] {
        return Err(ApiError(400, "Comment cannot be empty"));
      }
      if !HasVote(votes, voteId) {
        return Err(ApiError(404, "Vote not found"));
      }
      votes := WithComment(votes, voteId, comment);
      r := Ok("Comment added successfully");
    }

    /** `get_matchup`: an error when fewer than two firms exist, otherwise two
        different firms of the table (`ORDER BY RANDOM() LIMIT 2`, here a free
        choice). */
    method GetMatchup() returns (r: Result<seq<FirmRef>>)
      requires Valid()
      ensures r.Err? <==> |firms| < 2
      ensures r.Err? ==> r.error == ApiError(400, "Not enough firms")
      ensures r.Ok? ==> |r.value| == 2 && r.value[0].id != r.value[1].id
      ensures r.Ok? ==> r.value[0] in Refs(firms) && r.value[1] in Refs(firms)
    {
      if |firms| < 2 {
        return Err(ApiError(400, "Not enough firms"));
      }
      assert 0 <= 0 < |firms| && 0 <= 1 < |firms|;
      var i, j :| 0 <= i < |firms| && 0 <= j < |firms| && i != j;
      var refs := Refs(firms);
      assert refs[i] == Ref(firms[i]) && refs[j] == Ref(firms[j]);
      r := Ok([Ref(firms[i]), Ref(firms[j])]);
    }

    /** `get_firms`: one entry per firm with its statistics, ordered by wins
        descending and then by name. */
    method GetFirms() returns (result: seq<FirmSummary>)
      ensures |result| == |firms|
      ensures multiset(result) == multiset(Summaries(firms, votes))
      ensures Ordered(result)
    {
      var rows := SortRows(RowsOf(firms, votes));
      result := [];
      for i := 0 to |rows|
        invariant |result| == i
        invariant forall k :: 0 <= k < i ==> result[k] == Summarise(rows[k])
      {
        var row := rows[i];
        var total := row.wins + row.losses;
        var winRate := WinRate(row.wins, total);
        result := result + [FirmSummary(row.id, row.name, row.firmType, row.wins, row.losses, total, winRate)];
      }
      assert result == SummariseAll(rows);
      RankedSummaries(firms, votes);
      assert |rows| == |multiset(rows)| == |multiset(RowsOf(firms, votes))| == |firms|;
    }
  }
}
