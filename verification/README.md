# QuantRank in Dafny

QuantRank lets visitors compare two finance firms at a time ("which would you
rather work at?") and ranks the firms by how often they are picked. This
project models the core of that system and proves properties of the model:

- **The server** (`backend/app.py`). The two SQLite tables are sequences of
  rows in insertion order inside a `Database` class (module `Store`). The
  class has the endpoints that change or scan them: `submit_vote`,
  `add_comment_to_vote`, `get_matchup`, `get_firms` and the seeding loop of
  `init_db`. The queries of `get_firms` and `get_firm_details` are restated
  as functions over the tables (module `Queries`): wins, losses, total, win
  rate, the `ORDER BY wins DESC, name ASC` ranking, and the comment
  projection with its `picked`/`passed` sentiment and "other firm".
- **The voting screen** (`frontend/src/components/SwipeView.jsx`). A class
  with the component's nine state fields and its three handlers:
  `fetchMatchup`, `handleVote` and `handlePostVoteComment`. Each handler is
  split where it first awaits the network. The replies are parameters.
  A function gives the precedence that picks the screen.
- **The firm list** (`frontend/src/components/FirmsList.jsx`). Pure
  functions over the component's state: the type filter, the three win-rate
  tiers, the badge colours, and which of loading, "No firms found" or the
  card grid is shown.
- Shared modules: `Domain` holds the JSON shapes, the error replies and the
  win-rate rule. `Text` holds the whitespace trimming of Python's
  `str.strip()` and of JavaScript's `trim()`, which differ in which
  characters they remove, and the BINARY collation SQLite uses to order
  names.

Two behaviours of the code worth knowing:

- Neither side rejects a vote whose winner equals its loser, and neither
  checks that the ids belong to the current matchup. The only guard is the
  truthiness of both ids (`backend/app.py:113`).
- If the statistics fetch after a vote fails, `result` is never set, so the
  voting screen stays as it was (`SwipeView.SwipeView.FinishVote`).

## Model

| member | source | states |
|---|---|---|
| Domain.Truthy | backend/app.py:113 | a truthy id is present, and the id 0 is not truthy |
| Domain.Take | backend/app.py:227 | `LIMIT n` / `slice(0, n)` keeps the first n elements in order, or all of them when there are fewer |
| Domain.WinRate | backend/app.py:173-174 | the win rate is 0 with no votes and otherwise the percentage `wins·100/total`; it lies in [0, 100] whenever wins ≤ total |
| Text.Strip | backend/app.py:111 | the input is leading whitespace, then the result, then trailing whitespace; the result has no whitespace at either end and is empty exactly when the input is all whitespace, for Python's and for JavaScript's set of whitespace |
| Text.StripIdempotent | backend/app.py:136 | stripping a stripped comment changes nothing |
| Text.ClientBlankIsServerBlank | frontend/src/components/SwipeView.jsx:113 | a comment of ASCII whitespace that the client finds blank, the server's `strip()` empties too |
| Text.ServerBlankNotClientBlank | backend/app.py:136-139 | a lone U+001F passes the client's `trim()` test but is emptied by the server's `strip()`, which then answers "Comment cannot be empty" |
| Text.LexLe | backend/app.py:168 | `name ASC` under the BINARY collation: a prefix sorts no later than any string that extends it, and a name sorts no later than another only if its first character is no greater |
| Text.LexLeTotal | backend/app.py:168 | any two names are comparable under `name ASC` |
| Text.LexLeTransitive | backend/app.py:168 | the name order is transitive |
| Text.LexLeAntisymmetric | backend/app.py:168 | two names ordered both ways are equal |
| Queries.Refs | backend/app.py:94-98 | a matchup entry carries a firm's id, name and type, one entry per row |
| Queries.Wins | backend/app.py:163 | a firm wins at most once per vote |
| Queries.Losses | backend/app.py:164 | a firm loses at most once per vote |
| Queries.CountsAppend | backend/app.py:163-164 | a new vote adds one win to its winner and one loss to its loser, and changes no other firm's counts |
| Queries.RowOf | backend/app.py:159-167 | a grouped row holds the firm's columns, the number of votes it won and the number it lost |
| Queries.RowsOf | backend/app.py:165-167 | the `LEFT JOIN … GROUP BY f.id` gives one row per firm, firms without votes included |
| Queries.BeforeTotal | backend/app.py:168 | any two rows are comparable under `wins DESC, name ASC` |
| Queries.BeforeTransitive | backend/app.py:168 | the ranking order is transitive |
| Queries.Insert | backend/app.py:168 | placing a row into a ranked list adds exactly that row |
| Queries.InsertRanked | backend/app.py:168 | placing a row into a ranked list keeps it ranked |
| Queries.SortRows | backend/app.py:168 | ordering the rows keeps every row, as a permutation |
| Queries.SortRowsRanked | backend/app.py:168 | the ordered rows are ranked by wins descending, then by name |
| Queries.Summarise | backend/app.py:172-183 | an entry of `get_firms` copies the row's columns, has total = wins + losses, and has the win rate `wins·100/total` (0 with no votes), which lies in [0, 100] |
| Queries.SummariseAll | backend/app.py:171-183 | the loop builds one entry per row, in row order |
| Queries.Summaries | backend/app.py:158-183 | the unordered statistics have one entry per firm |
| Queries.SummariseAllConcat | backend/app.py:171-183 | summarising distributes over concatenation |
| Queries.SummariseAllPermutation | backend/app.py:171-183 | summarising two permutations of rows gives permutations of entries |
| Queries.RankedSummaries | backend/app.py:158-183 | the statistics of the ordered rows are a permutation of the per-firm statistics, ranked by wins descending and then by name |
| Queries.FindFirm | backend/app.py:192 | the lookup returns a firm with that id, or none when no firm has it |
| Queries.ViewOf | backend/app.py:209-223 | a comment entry has the vote's text; its sentiment is `picked` exactly when the firm won; `other_firm` is the name of the opposite side, or null |
| Queries.ReportedVotes | backend/app.py:224-225 | the reported votes are exactly those involving the firm with a non-null comment |
| Queries.Views | backend/app.py:245-253 | one comment entry per reported vote, in the same order |
| Queries.Reverse | backend/app.py:226 | the reversal puts the last element first, position by position |
| Queries.ReportedVotesAppend | backend/app.py:224-225 | a new vote is reported after all older ones, and only if it involves the firm and has a comment |
| Queries.ReversedViewsSnoc | backend/app.py:226 | the newest reported vote comes first in newest-first order |
| Queries.NewestFirst | backend/app.py:224-226 | walking the table from its newest row gives one entry per reported vote |
| Queries.NewestFirstIsReversed | backend/app.py:205-228 | reading the table from its newest row gives the reported comments in reverse insertion order |
| Queries.GetFirmDetails | backend/app.py:188-254 | an unknown id gives 404 "Firm not found"; otherwise the firm's own id with its wins, losses, total = wins + losses, the win rate `wins·100/total` (in [0, 100]), and at most 20 comments |
| Queries.FirmDetailsComments | backend/app.py:205-228 | the comments are the reported votes' entries, newest first, cut to the first 20 |
| Queries.FindFirmAt | backend/app.py:192 | with unique ids, looking a firm up by its id finds that firm |
| Queries.DetailsMatchSummary | backend/app.py:197-243 | the statistics of `get_firm_details` equal the entry `get_firms` builds for the same firm |
| Store.CommentText | backend/app.py:111 | `(comment or '').strip()` is empty exactly when the comment is absent or blank, and is otherwise the stripped text |
| Store.StoredComment | backend/app.py:116 | the stored comment is null exactly when nothing is left after stripping, and otherwise is the non-empty stripped text |
| Store.KeptEntries | backend/app.py:65 | seeding keeps exactly the entries with a non-empty name and type |
| Store.KeptEntriesConcat | backend/app.py:65 | the comprehension keeps its input's order, so of two entries with the same name the earlier one reaches `INSERT OR IGNORE` first |
| Store.InsertOrIgnore | backend/app.py:73 | after the insert the name is in the table; a taken name leaves the table as it was; otherwise one row is appended with the next id |
| Store.Seeded | backend/app.py:67-75 | seeding keeps the existing rows as a prefix, adds at most one row per entry, and advances the next id by the number of rows added |
| Store.SeededTable | backend/app.py:67-75 | seeding keeps ids increasing and names unique, keeps the existing rows, and adds only rows that come from kept entries |
| Store.SeededHasEveryName | backend/app.py:67-75 | after seeding, every kept entry's name is in the table, inserted or already there |
| Store.WithComment | backend/app.py:148 | the update sets the comment of the rows with that id and changes no other row, and no winner or loser |
| Store.WithCommentIdempotent | backend/app.py:148 | setting the same comment twice is the same as setting it once |
| Store.WithCommentKeepsCounts | backend/app.py:148 | adding a comment changes no firm's wins or losses |
| Store.Database.constructor | backend/app.py:29-47 | the tables start empty and both ids count from 1 |
| Store.Database.InitDb | backend/app.py:64-75 | the firms table becomes the result of inserting the kept entries in order; votes are untouched; the table invariant holds |
| Store.Database.SubmitVote | backend/app.py:101-127 | a missing body gives the first 400 error, a missing or falsy id the second, and both leave the votes unchanged; a success appends exactly one row with the given ids, the stored comment and a vote id no earlier row holds |
| Store.Database.AddComment | backend/app.py:129-152 | a missing body, a blank comment and an unknown vote give their 400, 400 and 404 errors with the table unchanged; a success sets that vote's comment to the stripped text |
| Store.Database.GetMatchup | backend/app.py:85-99 | fewer than two firms give 400 "Not enough firms"; otherwise two entries of the table with different ids |
| Store.Database.GetFirms | backend/app.py:154-186 | the entries are a permutation of the per-firm statistics, ranked by wins descending and then by name |
| SwipeView.FindById | frontend/src/components/SwipeView.jsx:76-77 | `find` gives the first firm with that id (no earlier firm has it), or nothing when no firm has it |
| SwipeView.Cards | frontend/src/components/SwipeView.jsx:363-372 | the first card is the first firm against the second, the second card the reverse, and both are disabled exactly while submitting |
| SwipeView.VoteArgs | frontend/src/components/SwipeView.jsx:425-426 | a Pick button votes for its own firm over the other card's firm |
| SwipeView.CareerLink | frontend/src/components/SwipeView.jsx:530-531 | the careers button renders nothing exactly when the name has no (or an empty) entry |
| SwipeView.SwipeView.constructor | frontend/src/components/SwipeView.jsx:29-39 | the initial state is loading with everything else empty, so the loading screen shows |
| SwipeView.SwipeView.CurrentScreen | frontend/src/components/SwipeView.jsx:138-350 | loading first; then "not enough firms" when the matchup is missing or has fewer than two firms; then the result screen exactly when both result and resultData are set; otherwise the versus screen over the first two firms |
| SwipeView.SwipeView.ResultShownOnceStatsArrive | frontend/src/components/SwipeView.jsx:177 | since resultData is only set together with or after result, the result screen shows exactly when the statistics have arrived, and it names the recorded outcome |
| SwipeView.SwipeView.VersusCards | frontend/src/components/SwipeView.jsx:350-372 | on the versus screen, the cards vote (first, second) and (second, first), and are disabled exactly while submitting |
| SwipeView.SwipeView.StartFetchMatchup | frontend/src/components/SwipeView.jsx:52-59 | a new round shows the loading screen and clears the comment, both comment flags, result, resultData and voteId |
| SwipeView.SwipeView.FinishFetchMatchup | frontend/src/components/SwipeView.jsx:61-68 | a reply body becomes the matchup, a failure keeps the old one, and loading ends either way |
| SwipeView.SwipeView.FetchMatchup | frontend/src/components/SwipeView.jsx:52-69 | after a round, the versus screen shows the reply's first two firms, or "not enough firms" when the reply has fewer |
| SwipeView.SwipeView.StartVote | frontend/src/components/SwipeView.jsx:75-79 | both firms are looked up in the matchup and the Pick buttons are disabled |
| SwipeView.SwipeView.FinishVote | frontend/src/components/SwipeView.jsx:81-109 | a failed vote changes only `submitting`; a vote reply sets voteId to the server's `vote_id`; a stats reply then sets result to both names and resultData to the first 3 comments; submitting ends false on every path |
| SwipeView.SwipeView.HandleVote | frontend/src/components/SwipeView.jsx:75-110 | every field after the handler: result names both firms exactly when the vote and stats replies arrive and both lookups succeed, resultData is set exactly when the stats body also has comments (the first three), and otherwise each keeps its old value, as the TypeError stops the handler; from the versus screen a fully successful vote leads to the result screen for that pair |
| SwipeView.SwipeView.OpenCommentBox | frontend/src/components/SwipeView.jsx:270 | the comment box opens and nothing else changes |
| SwipeView.SwipeView.EditComment | frontend/src/components/SwipeView.jsx:255 | the typed text becomes the comment and nothing else changes |
| SwipeView.SwipeView.CanSubmitComment | frontend/src/components/SwipeView.jsx:262 | Submit Comment is enabled exactly when the comment is not all whitespace to `trim()` |
| SwipeView.SwipeView.Panel | frontend/src/components/SwipeView.jsx:245-281 | the comment area thanks the user once a comment is saved, otherwise shows the open box (Submit enabled only for a non-blank comment), otherwise the button that opens it |
| SwipeView.SwipeView.PostVoteComment | frontend/src/components/SwipeView.jsx:112-136 | no request and no change without a non-blank comment and a truthy voteId; the request carries the stripped text; a `success` reply closes the box, clears the text and sets hasCommented; any other outcome changes nothing |
| FirmsList.InitialState | frontend/src/components/FirmsList.jsx:60-62 | the list starts empty and loading under the "all" filter, so the loading page shows |
| FirmsList.AfterFetch | frontend/src/components/FirmsList.jsx:68-77 | loading ends whether the fetch succeeds or fails; a reply's list replaces the firms and a failure keeps them |
| FirmsList.SelectFilter | frontend/src/components/FirmsList.jsx:127 | a tab sets the filter and nothing else |
| FirmsList.Filtered | frontend/src/components/FirmsList.jsx:79-82 | "all" keeps every firm in order; any other filter keeps exactly the firms of that type |
| FirmsList.FilteredConcat | frontend/src/components/FirmsList.jsx:79-82 | filtering a concatenation concatenates the filtered parts, so the result is a subsequence of the input in its order |
| FirmsList.FilteredSingle | frontend/src/components/FirmsList.jsx:79-82 | a single firm is kept exactly when the filter is "all" or its type equals the filter |
| FirmsList.FilteredIdempotent | frontend/src/components/FirmsList.jsx:79-82 | filtering twice by the same tab is filtering once |
| FirmsList.FilteredOrdered | frontend/src/components/FirmsList.jsx:79-82 | a filtered list of firms ranked by the server is still ranked by wins descending and then by name |
| FirmsList.TierOf | frontend/src/components/FirmsList.jsx:188-193 | a rate of 60 or more is the top tier, 40 up to 60 the middle one, below 40 the bottom one; the three are exhaustive and exclusive |
| FirmsList.TierMonotone | frontend/src/components/FirmsList.jsx:188-193 | a higher win rate never lands in a lower tier |
| FirmsList.TierOfVotes | frontend/src/components/FirmsList.jsx:188-193 | for an exact rate, the top tier means at least 3 wins in every 5 votes and the bottom tier fewer than 2 |
| FirmsList.BadgeClass | frontend/src/components/FirmsList.jsx:171-172 | a known type gets its mapped class, any other type the grey default |
| FirmsList.CardOf | frontend/src/components/FirmsList.jsx:158-231 | a card shows the statistics exactly when the firm has votes, coloured by its tier, and "No data available" otherwise |
| FirmsList.CardsOf | frontend/src/components/FirmsList.jsx:146-234 | one card per shown firm, in order |
| FirmsList.Tabs | frontend/src/components/FirmsList.jsx:116-139 | the seven tabs in order, "All" for the catch-all, each active exactly when it is the current filter |
| FirmsList.OneActiveTab | frontend/src/components/FirmsList.jsx:129-135 | at most one tab is active, and one is exactly when the filter is a tab's type |
| FirmsList.Render | frontend/src/components/FirmsList.jsx:79-247 | a missing list breaks rendering; otherwise loading shows the loading page, an empty filtered list "No firms found", and anything else the grid of its cards |
| FirmsList.GridAfterFetch | frontend/src/components/FirmsList.jsx:143-234 | after a ranked list arrives, the grid shows the current tab's firms in ranking order, one card each, or "No firms found" when there are none |
| FirmsList.FailedFetchShowsNoFirms | frontend/src/components/FirmsList.jsx:68-77 | when the first fetch fails, the list stays empty and the page shows "No firms found" |

## Left out

- Flask routing, CORS, the request parser, SQLite connections, `CREATE TABLE`, `commit` and `close`. A parsed JSON body is an `Option` value; its fields are present or absent.
- JSON values of the wrong type (a string id, a numeric comment). Ids are integers and comments are strings.
- Store.Database.SubmitVote: ids are unbounded integers. SQLite's INTEGER is signed 64-bit, and Python's `sqlite3` raises `OverflowError` when it binds an id outside the signed 64-bit range (below -2^63 or from 2^63 up; a negative id passes the truthiness guard), so the source answers such a vote with an unhandled error (HTTP 500) and inserts nothing, where the model records it.
- Store.Database.AddComment: the same bound is not modelled; a vote id of 2^63 or more (the route accepts no negative id) makes the source fail with HTTP 500 at the lookup, where the model answers 404 "Vote not found".
- Queries.GetFirmDetails: the same bound is not modelled; a firm id of 2^63 or more (the route accepts no negative id) makes the source fail with HTTP 500 at the lookup, where the model answers 404 "Firm not found".
- Reading the seed file, its decode errors, and the "populate only when the database file is new" check in `init_db`. `Store.Database.InitDb` models the insert loop over already parsed entries.
- The static file server `serve`, which depends on the file system.
- Store.Database.InitDb: new firms get consecutive ids. SQLite's AUTOINCREMENT may use up a rowid on an ignored `INSERT OR IGNORE` and leave a gap, so the exact ids after a duplicate entry are not something the source promises.
- `ORDER BY RANDOM()`: `Store.Database.GetMatchup` makes a free choice of two different firms; no distribution is modelled.
- Domain.WinRate: the rate is exact; Python's float division and `round(…, 1)` are not modelled, so a tier boundary may fall slightly differently for a rounded value.
- `created_at`: "newest first" is taken as reverse insertion order. Rows created in the same second have no order in SQLite.
- `COUNT(DISTINCT … v.id)` in `get_firms` and plain `COUNT` in `get_firm_details` are both counts of votes; this relies on vote ids being unique, which `Store.VoteTable` keeps.
- Text.Strip: only ASCII whitespace is stripped (for Python also U+001C to U+001F); the non-ASCII characters that Python's `str.isspace()` or JavaScript's `trim()` also remove (U+0085, U+00A0, U+2028, U+FEFF and the other Unicode spaces) are not modelled.
- Text.ClientBlankIsServerBlank: holds for the modelled ASCII whitespace only. For the real runtimes it fails: JavaScript's `trim()` removes U+FEFF and Python's `strip()` does not, so a comment of U+FEFF is blank to the client, which does not send it, but not to the server, which would store it.
- Text.LexLe: orders names by code point, which is SQLite's byte order on UTF-8; no other collation is modelled.
- `fetch`, `async`/`await` and out-of-order replies. Each reply is a parameter, and each handler runs to completion before the next.
- SwipeView.SwipeView.StartVote: called only when the matchup has a `firms` list, as it is on the versus screen where the Pick buttons live.
- SwipeView.CareerLink: the table of careers URLs is a parameter; its contents are not modelled. JavaScript's prototype lookup is not modelled: a firm named "constructor" finds a truthy inherited value.
- FirmsList.BadgeClass: the same prototype lookup is not modelled: `FIRM_COLOR_MAP["constructor"]` is a truthy function, so a firm of that type would not get the grey default.
- JSX markup, Tailwind classes other than the tier and badge classes, animations, and the `document.body` style effects.
- The result screen's own statistics (its win-rate figure and bar, the "Recent Comments" list) and the decorative overlay for a win rate above 50 in the firm list.
- `frontend/src/components/FirmDetail.jsx` is not part of this model; it only fetches and renders `get_firm_details`, and its tiers repeat those of the firm list.
- `frontend/src/App.js` and `frontend/src/App.jsx` are not part of this model; they hold the router and the navigation bar.
