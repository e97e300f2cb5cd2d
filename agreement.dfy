/** Where the page and the voting function meet. */
module Agreement {
  import opened Wrappers
  import opened Votes
  import opened VotingBackend
  import opened VoteClient

  /** The `vote_type` the page posts for either button always passes the handler's check. */
  lemma ClientRequestAccepted(c: VoteChoice)
    ensures IsVoteType(Name(c))
    ensures ParseVoteType(Some(Name(c))) == Some(c)
  {
  }

  /**
   * Tallies read from a table that holds only `boy` and `girl` rows give the
   * page two percentages that add up to 100.
   */
  lemma {:induction false} ServerTalliesMakeHundredPercent(rows: seq<Row>)
    requires OnlyVoteTypes(rows)
    ensures BoyPercentage(Tallies(rows)) + GirlPercentage(Tallies(rows)) == 100.0
  {
    TalliesAddUp(rows);
    PercentagesSumToHundred(Tallies(rows));
  }

  /**
   * How the page reads a handler response after `response.json()`: an empty
   * body does not parse, so it throws; a body without `success` reads as false.
   */
  function PageReading(resp: Response): (outcome: VoteOutcome)
    ensures Accepted(outcome) <==> resp.body.VoteRecorded? && resp.body.success
    ensures Accepted(outcome) ==> outcome.stats == resp.body.stats
    ensures outcome.VoteThrew? <==> resp.body.NoContent?
  {
    match resp.body
    case NoContent => VoteThrew
    case VoteRecorded(success, _, stats) => VoteReplied(success, stats)
    case CurrentStats(stats) => VoteReplied(false, stats)
    case Error(_) => VoteReplied(false, NoVotes)
  }

  /**
   * One vote from end to end: the page's request goes to the handler, and the
   * handler's reply comes back to the page. A first vote is recorded in the
   * table as one row of the chosen type, the page ends up voted with tallies
   * that add up, and its two percentages sum to 100. After a vote nothing is
   * sent and nothing changes.
   */
  method VoteEndToEnd(page: VoteController, db: VotesTable, choice: VoteChoice, sourceIp: Option<string>)
    returns (resp: Option<Response>)
    requires page.Valid() && OnlyVoteTypes(db.rows)
    modifies page, db
    ensures page.Valid() && !page.loading && OnlyVoteTypes(db.rows)
    ensures old(page.hasVoted) ==>
      resp == None && db.rows == old(db.rows) && db.connections == old(db.connections) &&
      page.stats == old(page.stats) && page.hasVoted
    ensures !old(page.hasVoted) ==>
      resp.Some? && resp.value == Response(200, VoteRecorded(true, Name(choice), Tallies(db.rows))) &&
      db.connections == old(db.connections) + 1 &&
      db.rows == old(db.rows) + [Row(Name(choice), sourceIp.GetOr("unknown"))] &&
      page.hasVoted && page.stats == Tallies(db.rows) &&
      AddsUp(page.stats) && BoyPercentage(page.stats) + GirlPercentage(page.stats) == 100.0
  {
    var request, notice := page.StartVote(choice);
    if request.None? {
      return None;
    }
    var event := Event(Some("POST"), Some(Body(request)), sourceIp);
    ClientRequestAccepted(choice);
    var reply := Handler(db, event);
    notice := page.CompleteVote(choice, PageReading(reply));
    PercentagesSumToHundred(page.stats);
    resp := Some(reply);
  }
}
