/**
 * Values exchanged between the QuantRank server and its web client: the
 * JSON shapes of firms and comments, the error replies, and the win-rate
 * rule both sides rely on.
 */
module Domain {

  datatype Option<+T> = None | Some(value: T)

  /** An error reply: an HTTP status and the `error` message of the JSON body. */
  datatype ApiError = ApiError(status: nat, message: string)

  datatype Result<+T> = Ok(value: T) | Err(error: ApiError)

  /** A firm as `/api/matchup` sends it: `{ id, name, type }`. */
  datatype FirmRef = FirmRef(id: int, name: string, firmType: string)

  /** A firm with its vote statistics, as `/api/firms` and `/api/firm/<id>` send it. */
  datatype FirmSummary = FirmSummary(
    id: int, name: string, firmType: string,
    wins: nat, losses: nat, total: nat, winRate: real)

  datatype Sentiment = Picked | Passed

  /** One entry of the `comments` list of `/api/firm/<id>`: the comment text,
      whether the firm was picked or passed over in that vote, and the name of
      the firm on the other side (null when no firm has that id). */
  datatype CommentView = CommentView(text: string, sentiment: Sentiment, otherFirm: Option<string>)

  /** Truthiness of an optional id, the same in Python and in JavaScript:
      present and not 0. */
  predicate Truthy(x: Option<int>)
    ensures Truthy(x) ==> x.Some?
    ensures x == Some(0) ==> !Truthy(x)
  {
    x.Some? && x.value != 0
  }

  /** The win rate as a percentage, 0 when there are no votes. It is exact here;
      the server rounds the float to one decimal, which is not modelled. */
  function WinRate(wins: nat, total: nat): (r: real)
    ensures total == 0 ==> r == 0.0
    ensures total > 0 ==> r * (total as real) == (wins as real) * 100.0
    ensures wins <= total ==> 0.0 <= r <= 100.0
  {
    if total > 0 then (wins as real) * 100.0 / (total as real) else 0.0
  }

  /** The first `n` elements, or all of them when there are fewer: SQL's
      `LIMIT n` and JavaScript's `slice(0, n)`. */
  function Take<T>(s: seq<T>, n: nat): (r: seq<T>)
    ensures |r| <= n && |r| <= |s|
    ensures |s| <= n ==> r == s
    ensures |s| > n ==> |r| == n
    ensures forall k :: 0 <= k < |r| ==> r[k] == s[k]
  {
    if |s| <= n then s else s[..n]
  }
}
