/**
 * The head-to-head voting screen of the QuantRank client
 * (frontend/src/components/SwipeView.jsx): its nine state fields, the three
 * handlers that change them, the small UI actions around the comment box,
 * and the rule that picks which screen is shown.
 *
 * Each asynchronous handler is split where it first awaits the network: a
 * `Start…` method for the synchronous part before the request and a
 * `Finish…` method that takes the server's replies as arguments. The method
 * named after the handler runs both.
 */
module SwipeView {
  import opened Domain
  import opened Text

  /** The JSON body of a `/api/matchup` reply; `firms` is absent (None) in the
      `{ error }` reply the server sends when there are too few firms. */
  datatype MatchupData = MatchupData(firms: Option<seq<FirmRef>>)

  /** What `fetch` + `response.json()` yield: a thrown error, or a JSON body. */
  datatype MatchupReply = MatchupFailed | MatchupJson(data: MatchupData)

  /** `vote_id` is absent (None) in an error body. */
  datatype VoteReply = VoteFailed | VoteJson(voteId: Option<int>)

  /** `firm` and `comments` are absent (None) in the not-found body. */
  datatype StatsReply = StatsFailed | StatsJson(firm: Option<FirmSummary>, comments: Option<seq<CommentView>>)

  /** `success` is false when absent. */
  datatype CommentReply = CommentFailed | CommentJson(success: bool)

  /** The `result` state: names of the picked and the passed firm. */
  datatype Outcome = Outcome(winner: string, loser: string)

  /** The `resultData` state: the winner's statistics and its latest comments. */
  datatype ResultData = ResultData(firm: Option<FirmSummary>, comments: seq<CommentView>)

  /** The screen the component renders. */
  datatype Screen =
    | LoadingScreen
    | NotEnoughFirms
    | ResultScreen(outcome: Outcome, data: ResultData)
    | VersusScreen(left: FirmRef, right: FirmRef)

  /** What `handleVote` knows when its request is sent. */
  datatype PendingVote = PendingVote(winnerId: int, loserId: int, winner: Option<FirmRef>, loser: Option<FirmRef>)

  /** `POST /api/vote/{voteId}/comment` with body `{ comment: text }`. */
  datatype CommentRequest = CommentRequest(voteId: int, text: string)

  /** The comment area of the result screen. */
  datatype CommentPanel =
    | Thanks
    | AddCommentButton
    | CommentBox(text: string, submitEnabled: bool)

  /** One `FirmCard` of the versus screen. */
  datatype Card = Card(firm: FirmRef, otherFirm: FirmRef, disabled: bool)

  /** How many of the winner's comments the result screen keeps. */
  const ShownComments := 3

  /** The matchup has a `firms` list with at least two firms. */
  predicate HasPair(m: Option<MatchupData>) {
    m.Some? && m.value.firms.Some? && |m.value.firms.value| >= 2
  }

  /** `firms.find((f) => f.id === id)`: the first firm with that id. */
  function FindById(firms: seq<FirmRef>, id: int): (r: Option<FirmRef>)
    ensures r.Some? ==> r.value in firms && r.value.id == id
    ensures r.None? <==> forall k :: 0 <= k < |firms| ==> firms[k].id != id
    ensures r.Some? ==> exists k :: 0 <= k < |firms| && firms[k] == r.value
                                   && forall j :: 0 <= j < k ==> firms[j].id != id
  {
    if firms == [] then None
    else if firms[0].id == id then
      Some(firms[0])
    else
      var r := FindById(firms[1..], id);
      assert r.Some? ==> exists k :: 0 <= k < |firms| && firms[k] == r.value
                                   && forall j :: 0 <= j < k ==> firms[j].id != id by {
        if r.Some? {
          var k :| 0 <= k < |firms[1..]| && firms[1..][k] == r.value
                   && forall j :: 0 <= j < k ==> firms[1..][j].id != id;
          assert firms[k + 1] == r.value;
          assert forall j :: 0 <= j < k + 1 ==> firms[j].id != id by {
            forall j | 0 <= j < k + 1 ensures firms[j].id != id {
              if j > 0 { assert firms[j] == firms[1..][j - 1]; }
            }
          }
        }
      }
      r
  }

  /** The two cards of the versus screen: each votes for its own firm over
      the other card's firm, and both are disabled while a vote is in flight. */
  function Cards(left: FirmRef, right: FirmRef, submitting: bool): (cs: seq<Card>)
    ensures |cs| == 2
    ensures cs[0].firm == left && cs[0].otherFirm == right
    ensures cs[1].firm == right && cs[1].otherFirm == left
    ensures forall c :: c in cs ==> c.disabled == submitting
  {
    [Card(left, right, submitting), Card(right, left, submitting)]
  }

  /** The `(winnerId, loserId)` a card's Pick button passes to `handleVote`. */
  function VoteArgs(c: Card): (args: (int, int))
    ensures args.0 == c.firm.id && args.1 == c.otherFirm.id
  {
    (c.firm.id, c.otherFirm.id)
  }

  /** `CareerPageButton`: the careers link for a firm name, or nothing when
      the table has no (or an empty) entry for it. The table is a parameter. */
  function CareerLink(careerPages: map<string, string>, firmName: string): (r: Option<string>)
    ensures r.None? <==> firmName !in careerPages || careerPages[firmName] == ""
    ensures r.Some? ==> r.value == careerPages[firmName]
  {
    if firmName in careerPages && careerPages[firmName] != "" then Some(careerPages[firmName]) else None
  }

  class SwipeView {
    var matchup: Option<MatchupData>
    var loading: bool
    var comment: string
    var showComment: bool
    var hasCommented: bool
    var result: Option<Outcome>
    var submitting: bool
    var resultData: Option<ResultData>
    var voteId: Option<int>

    /** Statistics are only ever shown for a recorded outcome. */
    ghost predicate Valid()
      reads this
    {
      resultData.Some? ==> result.Some?
    }

    /** Given the invariant, the result screen shows exactly when the
        statistics have arrived: `result` never needs a separate test. */
    lemma ResultShownOnceStatsArrive()
      requires Valid()
      ensures CurrentScreen().ResultScreen? <==> !loading && HasPair(matchup) && resultData.Some?
      ensures CurrentScreen().ResultScreen? ==> CurrentScreen().outcome == result.value
    {
    }

    /** The initial `useState` values. */
    constructor ()
      ensures Valid()
      ensures matchup.None? && loading && comment == "" && !showComment && !hasCommented
      ensures result.None? && !submitting && resultData.None? && voteId.None?
      ensures CurrentScreen() == LoadingScreen
    {
      matchup, loading := None, true;
      comment, showComment, hasCommented := "", false, false;
      result, submitting, resultData, voteId := None, false, None, None;
    }

    /** The screen precedence: loading, then "not enough firms", then the
        result screen once both `result` and `resultData` are set, and
        otherwise the versus screen over the first two firms. */
    function CurrentScreen(): (s: Screen)
      reads this
      ensures s == LoadingScreen <==> loading
      ensures s == NotEnoughFirms <==> !loading && !HasPair(matchup)
      ensures s.ResultScreen? <==> !loading && HasPair(matchup) && result.Some? && resultData.Some?
      ensures s.ResultScreen? ==> s.outcome == result.value && s.data == resultData.value
      ensures s.VersusScreen? <==> !loading && HasPair(matchup) && (result.None? || resultData.None?)
      ensures s.VersusScreen? ==> s.left == matchup.value.firms.value[0] && s.right == matchup.value.firms.value[1]
    {
      if loading then LoadingScreen
      else if !HasPair(matchup) then NotEnoughFirms
      else if result.Some? && resultData.Some? then ResultScreen(result.value, resultData.value)
      else VersusScreen(matchup.value.firms.value[0], matchup.value.firms.value[1])
    }

    /** The versus screen's cards, given the current state. */
    function VersusCards(): (cs: seq<Card>)
      reads this
      requires CurrentScreen().VersusScreen?
      ensures |cs| == 2
      ensures VoteArgs(cs[0]) == (matchup.value.firms.value[0].id, matchup.value.firms.value[1].id)
      ensures VoteArgs(cs[1]) == (matchup.value.firms.value[1].id, matchup.value.firms.value[0].id)
      ensures forall c :: c in cs ==> c.disabled == submitting
    {
      var s := CurrentScreen();
      Cards(s.left, s.right, submitting)
    }

    /** `fetchMatchup` up to its request: show the loading screen and clear
        everything left from the previous vote. */
    method StartFetchMatchup()
      requires Valid()
      modifies this
      ensures Valid()
      ensures loading && comment == "" && !showComment && !hasCommented
      ensures result.None? && resultData.None? && voteId.None?
      ensures matchup == old(matchup) && submitting == old(submitting)
      ensures CurrentScreen() == LoadingScreen
    {
      loading := true;
      comment := "";
      showComment := false;
      hasCommented := false;
      result := None;
      resultData := None;
      voteId := None;
    }

    /** `fetchMatchup` after its request: store the body if one arrived, and
        stop loading either way. */
    method FinishFetchMatchup(reply: MatchupReply)
      requires Valid()
      modifies this
      ensures Valid()
      ensures !loading
      ensures matchup == (if reply.MatchupJson? then Some(reply.data) else old(matchup))
      ensures comment == old(comment) && showComment == old(showComment) && hasCommented == old(hasCommented)
      ensures result == old(result) && submitting == old(submitting)
      ensures resultData == old(resultData) && voteId == old(voteId)
    {
      if reply.MatchupJson? {
        matchup := Some(reply.data);
      }
      loading := false;
    }

    /** `fetchMatchup`: a fresh round. The versus screen follows when the reply
        has two firms, "not enough firms" when a reply has fewer. */
    method FetchMatchup(reply: MatchupReply)
      requires Valid()
      modifies this
      ensures Valid()
      ensures !loading && comment == "" && !showComment && !hasCommented
      ensures result.None? && resultData.None? && voteId.None?
      ensures submitting == old(submitting)
      ensures matchup == (if reply.MatchupJson? then Some(reply.data) else old(matchup))
      ensures reply.MatchupJson? && HasPair(Some(reply.data)) ==>
                CurrentScreen() == VersusScreen(reply.data.firms.value[0], reply.data.firms.value[1])
      ensures reply.MatchupJson? && !HasPair(Some(reply.data)) ==> CurrentScreen() == NotEnoughFirms
    {
      StartFetchMatchup();
      FinishFetchMatchup(reply);
    }

    /** `handleVote` up to its request: look both firms up in the matchup and
        disable the Pick buttons. */
    method StartVote(winnerId: int, loserId: int) returns (p: PendingVote)
      requires matchup.Some? && matchup.value.firms.Some?
      requires Valid()
      modifies this
      ensures Valid()
      ensures submitting
      ensures p.winnerId == winnerId && p.loserId == loserId
      ensures p.winner == FindById(old(matchup).value.firms.value, winnerId)
      ensures p.loser == FindById(old(matchup).value.firms.value, loserId)
      ensures matchup == old(matchup) && loading == old(loading) && comment == old(comment)
      ensures showComment == old(showComment) && hasCommented == old(hasCommented)
      ensures result == old(result) && resultData == old(resultData) && voteId == old(voteId)
      ensures CurrentScreen().VersusScreen? ==> forall c :: c in VersusCards() ==> c.disabled
    {
      var winner := FindById(matchup.value.firms.value, winnerId);
      var loser := FindById(matchup.value.firms.value, loserId);
      submitting := true;
      p := PendingVote(winnerId, loserId, winner, loser);
    }

    /** `handleVote` after its request. A failed vote request changes nothing
        but `submitting`; a vote reply sets `voteId`; then, if the stats
        request succeeds, `result` names both firms and `resultData` keeps the
        first three comments. A missing firm or comment list stops it midway,
        as the TypeError it raises does. `submitting` ends false on every path. */
    method FinishVote(p: PendingVote, voteReply: VoteReply, statsReply: StatsReply)
      requires Valid()
      modifies this
      ensures Valid()
      ensures !submitting
      ensures matchup == old(matchup) && loading == old(loading) && comment == old(comment)
      ensures showComment == old(showComment) && hasCommented == old(hasCommented)
      ensures voteId == (if voteReply.VoteJson? then voteReply.voteId else old(voteId))
      ensures result == (if voteReply.VoteJson? && statsReply.StatsJson? && p.winner.Some? && p.loser.Some?
                         then Some(Outcome(p.winner.value.name, p.loser.value.name))
                         else old(result))
      ensures resultData == (if voteReply.VoteJson? && statsReply.StatsJson? && p.winner.Some? && p.loser.Some?
                                && statsReply.comments.Some?
                             then Some(ResultData(statsReply.firm, Take(statsReply.comments.value, ShownComments)))
                             else old(resultData))
    {
      if voteReply.VoteJson? {
        voteId := voteReply.voteId;
        if statsReply.StatsJson? && p.winner.Some? && p.loser.Some? {
          result := Some(Outcome(p.winner.value.name, p.loser.value.name));
          if statsReply.comments.Some? {
            resultData := Some(ResultData(statsReply.firm, Take(statsReply.comments.value, ShownComments)));
          }
        }
      }
      submitting := false;
    }

    /** `handleVote(winnerId, loserId)`. From the versus screen, a vote whose
        two requests succeed leads to the result screen for that pair. */
    method HandleVote(winnerId: int, loserId: int, voteReply: VoteReply, statsReply: StatsReply)
      requires matchup.Some? && matchup.value.firms.Some?
      requires Valid()
      modifies this
      ensures Valid()
      ensures !submitting
      ensures matchup == old(matchup) && loading == old(loading) && comment == old(comment)
      ensures showComment == old(showComment) && hasCommented == old(hasCommented)
      ensures voteReply.VoteFailed? ==>
                voteId == old(voteId) && result == old(result) && resultData == old(resultData)
      ensures voteReply.VoteJson? ==> voteId == voteReply.voteId
      ensures statsReply.StatsFailed? ==> result == old(result) && resultData == old(resultData)
      ensures var w, l := FindById(matchup.value.firms.value, winnerId), FindById(matchup.value.firms.value, loserId);
              result == (if voteReply.VoteJson? && statsReply.StatsJson? && w.Some? && l.Some?
                         then Some(Outcome(w.value.name, l.value.name))
                         else old(result))
      ensures var w, l := FindById(matchup.value.firms.value, winnerId), FindById(matchup.value.firms.value, loserId);
              resultData == (if voteReply.VoteJson? && statsReply.StatsJson? && w.Some? && l.Some?
                                && statsReply.comments.Some?
                             then Some(ResultData(statsReply.firm, Take(statsReply.comments.value, ShownComments)))
                             else old(resultData))
      ensures var firms := matchup.value.firms.value;
              old(CurrentScreen()).VersusScreen? && voteReply.VoteJson? && statsReply.StatsJson?
              && statsReply.comments.Some?
              && FindById(firms, winnerId).Some? && FindById(firms, loserId).Some? ==>
                CurrentScreen() == ResultScreen(
                  Outcome(FindById(firms, winnerId).value.name, FindById(firms, loserId).value.name),
                  ResultData(statsReply.firm, Take(statsReply.comments.value, ShownComments)))
    {
      var p := StartVote(winnerId, loserId);
      FinishVote(p, voteReply, statsReply);
    }

    /** "Click to add a comment now". */
    method OpenCommentBox()
      requires Valid()
      modifies this
      ensures Valid()
      ensures showComment
      ensures matchup == old(matchup) && loading == old(loading) && comment == old(comment)
      ensures hasCommented == old(hasCommented) && result == old(result) && submitting == old(submitting)
      ensures resultData == old(resultData) && voteId == old(voteId)
    {
      showComment := true;
    }

    /** Typing in the comment box. */
    method EditComment(text: string)
      requires Valid()
      modifies this
      ensures Valid()
      ensures comment == text
      ensures matchup == old(matchup) && loading == old(loading) && showComment == old(showComment)
      ensures hasCommented == old(hasCommented) && result == old(result) && submitting == old(submitting)
      ensures resultData == old(resultData) && voteId == old(voteId)
    {
      comment := text;
    }

    /** The Submit Comment button is enabled: the comment is not blank. */
    predicate CanSubmitComment()
      reads this
      ensures CanSubmitComment() <==> !AllSpace(JavaScript, comment)
    {
      Strip(JavaScript, comment) != []
    }

    /** The result screen's comment area: a thank-you once a comment was
        saved, else the open box (its Submit button enabled only for a
        non-blank comment), else the button that opens it. */
    function Panel(): (p: CommentPanel)
      reads this
      ensures p == Thanks <==> hasCommented
      ensures p == AddCommentButton <==> !hasCommented && !showComment
      ensures p.CommentBox? <==> !hasCommented && showComment
      ensures p.CommentBox? ==> p.text == comment && (p.submitEnabled <==> Strip(JavaScript, comment) != [])
    {
      if hasCommented then Thanks
      else if showComment then CommentBox(comment, CanSubmitComment())
      else AddCommentButton
    }

    /** `handlePostVoteComment`: sends nothing and changes nothing unless there
        is a non-blank comment and a vote id; on a `success` reply closes the
        box and clears the text; on any other outcome leaves the state as it
        was. Returns the request it sent, if any. */
    method PostVoteComment(reply: CommentReply) returns (request: Option<CommentRequest>)
      requires Valid()
      modifies this
      ensures Valid()
      ensures request.None? <==> Strip(JavaScript, old(comment)) == [] || !Truthy(old(voteId))
      ensures request.Some? ==> request.value == CommentRequest(old(voteId).value, Strip(JavaScript, old(comment)))
      ensures matchup == old(matchup) && loading == old(loading) && result == old(result)
      ensures submitting == old(submitting) && resultData == old(resultData) && voteId == old(voteId)
      ensures request.Some? && reply == CommentJson(true) ==> hasCommented && !showComment && comment == ""
      ensures request.Some? && reply == CommentJson(true) ==> Panel() == Thanks
      ensures request.None? || reply != CommentJson(true) ==>
                hasCommented == old(hasCommented) && showComment == old(showComment) && comment == old(comment)
    {
      if Strip(JavaScript, comment) == [] || !Truthy(voteId) {
        return None;
      }
      request := Some(CommentRequest(voteId.value, Strip(JavaScript, comment)));
      if reply.CommentJson? && reply.success {
        hasCommented := true;
        showComment := false;
        comment := "";
      }
    }
  }
}
