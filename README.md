# Gender-party voting: a Dafny model

The site is a single page on which a visitor casts one vote, "boy" or "girl",
and watches the tallies, plus one cloud function that stores votes and reports
tallies. This project models the two pieces of logic in it:

- **The page's vote controller** (`src/pages/Index.tsx`): the `stats`,
  `loading` and `hasVoted` state cells, `fetchStats`, `handleVote`, the two
  percentages and the enabled state of the vote buttons. The controller is the
  class `VoteClient.VoteController`. Its network calls are replaced by their
  outcome, passed in as a parameter: a throw, or the decoded reply.
  `handleVote` is split at its `await` into `StartVote` (the already-voted
  guard and `loading` set) and `CompleteVote` (the reply handled and `loading`
  cleared). `HandleVote` runs both. A class invariant, `hasVoted ==> !loading`,
  lets the state be read as the three phases NotVoted, Pending and Voted.
- **The voting handler** (`backend/voting/index.py`): dispatch on the HTTP
  method, the `vote_type` check, the insert into the `votes` table, and the
  tally queries. The table is the class `VotingBackend.VotesTable`. It holds a
  sequence of rows and a count of the connections opened to it. The SQL
  `COUNT` queries are the counting function `CountOf` and `Tallies`.

The two sides meet in module `Agreement`. The page's request always passes
the handler's check. The handler only ever inserts `boy` or `girl` rows, so
`boy_votes + girl_votes == total_votes` holds of every tally it reports,
starting from a table of only such rows (an empty one included). That
is exactly the condition under which the page's two percentages add up to 100
(`TalliesAddUp` and `PercentagesSumToHundred` prove both directions).
`VoteEndToEnd` runs one vote through both sides: the page's request into
the handler, and the handler's reply back into the page.

Files: `wrappers.dfy` (Option), `votes.dfy` (choices and tallies shared by
both sides), `backend.dfy`, `client.dfy`, `agreement.dfy`.

Three behaviours of the code shape the model:
- `handleVote` does not check `loading`. Only the disabled buttons stop a
  second submission while one is in flight, so `StartVote` does not reject
  re-entry.
- A reply with `success` false raises no notice at all (`NoNotice`).
- The handler never answers `success: false`. A 400 or 405 reply has no
  `success` key, which the page reads as false.

## Model

| member | source | states |
|---|---|---|
| VotingBackend.RouteOf | backend/voting/index.py:19-107 | OPTIONS, POST and GET select their branches; a missing `httpMethod` counts as GET; any other method is refused |
| VotingBackend.ParseVoteType | backend/voting/index.py:41-44 | a `vote_type` is accepted exactly when it is present and is `boy` or `girl`, and the accepted choice's name is that string |
| VotingBackend.CountOf | backend/voting/index.py:63-69 | the count of rows voting `t` is at most the row count, is 0 exactly when no row votes `t`, and equals the row count exactly when every row does |
| VotingBackend.CountAppend | backend/voting/index.py:56-69 | appending a row adds one to the count of its own vote type and leaves every other count alone |
| VotingBackend.TalliesAfterInsert | backend/voting/index.py:56-69 | after the INSERT, the reported tallies are the earlier ones plus one for the new row's type and one for the total |
| VotingBackend.CountsDisjoint | backend/voting/index.py:63-69 | no row is counted both as `boy` and as `girl`: the two counts together never exceed `COUNT(*)` |
| VotingBackend.Tallies | backend/voting/index.py:63-69 | the tallies query: `total_votes` is the row count, `boy_votes + girl_votes <= total_votes` for any table, and each of the two counts is 0 exactly when no row has that type |
| VotingBackend.RequestVoteType | backend/voting/index.py:41-42 | an event without a body is read as `{}` and so has no `vote_type`; otherwise the body's `vote_type`, present or not |
| VotingBackend.VoterIp | backend/voting/index.py:53 | the request's source IP, `unknown` when the event has none |
| VotingBackend.TalliesAddUp | backend/voting/index.py:44-69 | `boy_votes + girl_votes == total_votes` holds exactly when every row is `boy` or `girl` |
| VotingBackend.VotesTable.Connect | backend/voting/index.py:14-16 | opening a connection adds one to the connection count |
| VotingBackend.VotesTable.Insert | backend/voting/index.py:56-60 | the INSERT appends exactly the given row |
| VotingBackend.Handler | backend/voting/index.py:18-111 | OPTIONS: 200 with an empty body and no connection opened; invalid or absent `vote_type`: 400 and the table unchanged; valid POST: one row with that type and the source IP (`unknown` if missing) appended, 200 with `success`, the type and the post-insert tallies, total one higher; GET: 200 with the tallies and the table unchanged; other methods: 405; a table of only `boy`/`girl` rows stays so, and every reported tally then adds up |
| VoteClient.Share | src/pages/Index.tsx:93-94 | with no votes the percentage is 50; otherwise it times the total is 100 times the count; it lies in 0..100 when the count is within the total |
| VoteClient.BoyPercentage | src/pages/Index.tsx:93 | 50 with no votes; otherwise the boy share times the total is 100 times the boy count; within 0..100 when the boy count is within the total |
| VoteClient.GirlPercentage | src/pages/Index.tsx:94 | 50 with no votes; otherwise the girl share times the total is 100 times the girl count; within 0..100 when the girl count is within the total |
| VoteClient.Accepted | src/pages/Index.tsx:74 | a reply is accepted only if the request did not throw, and a reply is accepted exactly when its `success` is true |
| VoteClient.PercentagesSumToHundred | src/pages/Index.tsx:93-94 | the boy and girl percentages add up to 100 when the tallies add up, and, with at least one vote, only then |
| VoteClient.VoteController.ButtonsEnabled | src/pages/Index.tsx:207-218 | the vote buttons are enabled exactly in the NotVoted phase: nothing in flight and no vote accepted |
| VoteClient.VoteController.constructor | src/pages/Index.tsx:35-37 | the page starts with tallies 0/0/0, not loading, not voted |
| VoteClient.VoteController.FetchStats | src/pages/Index.tsx:40-48 | a reply replaces `stats` wholesale; a throw leaves it unchanged; `loading` and `hasVoted` are never touched |
| VoteClient.VoteController.StartVote | src/pages/Index.tsx:56-65 | after a vote: no request, the already-voted notice, nothing changes; otherwise the choice's `vote_type` is posted, `loading` is set and the buttons are disabled |
| VoteClient.VoteController.CompleteVote | src/pages/Index.tsx:66-90 | `loading` is cleared on every path; an accepted reply replaces `stats` and sets `hasVoted` with the counted notice; a rejected reply or a throw keeps `stats` and `hasVoted`, a throw with the error notice |
| VoteClient.VoteController.HandleVote | src/pages/Index.tsx:56-91 | the whole `handleVote`: `loading` is false afterwards on every path; a second vote after an accepted one posts nothing; only an accepted reply changes `stats`; `hasVoted` is never reset |
| Agreement.ClientRequestAccepted | src/pages/Index.tsx:67-71 | the `vote_type` the page posts for either button passes the handler's check and decodes back to the same choice |
| Agreement.ServerTalliesMakeHundredPercent | src/pages/Index.tsx:93-94 | tallies read from a table of `boy`/`girl` rows give two percentages summing to 100 |
| Agreement.PageReading | src/pages/Index.tsx:72-74 | the page counts a reply as accepted exactly when the handler recorded a vote with `success`, and then takes its tallies; an empty body throws |
| Agreement.VoteEndToEnd | src/pages/Index.tsx:56-91 | a first vote sent through the handler opens one connection, appends one row of the chosen type with the source IP, gets a 200 reply with `success`, the choice's name and the post-insert tallies, and leaves the page voted and not loading with those tallies, which add up and give percentages summing to 100; after a vote no request is sent, no connection is opened, and the table and the page's tallies are unchanged |

## Left out

- Rendering: all JSX, styling, static event text and the `Confetti` component, which draws on `Math.random`.
- Toast texts and the `toast` hook: only a tag for which notice was raised is kept (`Notice`).
- The 5-second polling timer in `useEffect` and its cleanup. These are timers. Interleavings of a poll with an in-flight vote are only covered step by step: each of `FetchStats`, `StartVote` and `CompleteVote` is atomic, and the class invariant holds between any of them.
- `fetch`, HTTP transport, JSON encoding and decoding, and the endpoint URL: each call is replaced by its outcome parameter. A reply without `stats` would store `undefined` in the page; the model's replies always carry tallies.
- Handler: each run is treated as one atomic step on the table, and concurrent runs are not modelled. In the database, the INSERT and commit and the following COUNT query are separate statements, so a concurrent request can insert between them and the reported `total_votes` can then be more than one higher than before. `AddsUp` of the reported tallies still holds under concurrency, because every writer inserts only `boy` or `girl`.
- The psycopg2 connection, cursor, `commit`, the `DATABASE_URL` variable and the closing of the connection in `finally`: the table is an in-memory row sequence, and only the opening of a connection is counted. Database failures are not modelled: a missing `DATABASE_URL`, a failed connect, or a failing INSERT or COUNT query raises out of the handler, which has `try/finally` and no `except`; the in-memory table never fails.
- CORS headers and `isBase64Encoded`: only the status code and the decoded body are modelled.
- Malformed-JSON bodies, a `body` of `null` and non-object bodies: these raise uncaught exceptions in the handler. A `vote_type` that is not a string behaves like any string other than `boy` or `girl`, so it is modelled as one.
- Keys present with the value `null`: the event is modelled with each key either absent or holding a string. A `null` `httpMethod` is answered 405 by the handler, where the model reads it as absent and so as GET; a `null` `sourceIp` stores NULL, where the model stores `unknown`.
- The database-generated row `id` returned by the INSERT, which the handler never reads.
- Floating-point percentages: `Share` is exact real arithmetic, so `toFixed(1)` formatting and IEEE rounding are not modelled.
