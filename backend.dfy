/**
 * The voting cloud function: one request handler over the `votes` table.
 * The database is an in-memory sequence of rows; the SQL COUNT queries are
 * the counting functions below.
 */
module VotingBackend {
  import opened Wrappers
  import opened Votes

  /** One row of the `votes` table (its `vote_type` and `voter_ip` columns). */
  datatype Row = Row(voteType: string, voterIp: string)

  /** A decoded JSON request body; only its `vote_type` key is read. */
  datatype Body = Body(voteType: Option<string>)

  /** What `json.loads('{}')` gives: the body used when the event has none. */
  const EmptyBody := Body(None)

  /** The parts of the incoming event the handler reads. */
  datatype Event = Event(httpMethod: Option<string>, body: Option<Body>, sourceIp: Option<string>)

  datatype ResponseBody =
    | NoContent
    | VoteRecorded(success: bool, voteType: string, stats: VoteStats)
    | CurrentStats(stats: VoteStats)
    | Error(message: string)

  /** A response: its status code and its decoded body (headers are not modelled). */
  datatype Response = Response(statusCode: int, body: ResponseBody)

  const InvalidVoteTypeMessage := "Invalid vote_type. Must be \"boy\" or \"girl\""
  const MethodNotAllowedMessage := "Method not allowed"

  /** The branch the handler takes for a request. */
  datatype Route = Preflight | CastVote | ReadStats | NotAllowed

  /** Dispatch on `httpMethod`, which defaults to GET when the event has none. */
  function RouteOf(httpMethod: Option<string>): (r: Route)
    ensures r == Preflight <==> httpMethod == Some("OPTIONS")
    ensures r == CastVote <==> httpMethod == Some("POST")
    ensures r == ReadStats <==> httpMethod == None || httpMethod == Some("GET")
  {
    var m := httpMethod.GetOr("GET");
    if m == "OPTIONS" then Preflight
    else if m == "POST" then CastVote
    else if m == "GET" then ReadStats
    else NotAllowed
  }

  /** A `vote_type` the handler accepts. */
  predicate IsVoteType(v: string) {
    v == "boy" || v == "girl"
  }

  /** The membership check of `vote_type` against `['boy', 'girl']`. */
  function ParseVoteType(v: Option<string>): (c: Option<VoteChoice>)
    ensures c.Some? <==> v.Some? && IsVoteType(v.value)
    ensures c.Some? ==> v == Some(Name(c.value))
  {
    if v == Some("boy") then Some(Boy)
    else if v == Some("girl") then Some(Girl)
    else None
  }

  /** The `vote_type` of the request body, reading an absent body as `{}`. */
  function RequestVoteType(e: Event): (v: Option<string>)
    ensures e.body.None? ==> v.None?
    ensures e.body.Some? ==> v == e.body.value.voteType
  {
    e.body.GetOr(EmptyBody).voteType
  }

  /** The source IP of the request, `unknown` when the event has none. */
  function VoterIp(e: Event): (ip: string)
    ensures e.sourceIp.None? ==> ip == "unknown"
    ensures e.sourceIp.Some? ==> ip == e.sourceIp.value
  {
    e.sourceIp.GetOr("unknown")
  }

  /** `COUNT(CASE WHEN vote_type = t THEN 1 END)`: the number of rows voting `t`. */
  function CountOf(rows: seq<Row>, t: string): (n: nat)
    ensures n <= |rows|
    ensures n == 0 <==> forall i :: 0 <= i < |rows| ==> rows[i].voteType != t
    ensures n == |rows| <==> forall i :: 0 <= i < |rows| ==> rows[i].voteType == t
  {
    if rows == [] then 0
    else (if rows[0].voteType == t then 1 else 0) + CountOf(rows[1..], t)
  }

  /** The tallies query: `boy` rows, `girl` rows and `COUNT(*)`. */
  function Tallies(rows: seq<Row>): (r: VoteStats)
    ensures r.totalVotes == |rows|
    ensures r.boyVotes + r.girlVotes <= r.totalVotes
    ensures r.boyVotes == 0 <==> forall i :: 0 <= i < |rows| ==> rows[i].voteType != "boy"
    ensures r.girlVotes == 0 <==> forall i :: 0 <= i < |rows| ==> rows[i].voteType != "girl"
  {
    CountsDisjoint(rows);
    VoteStats(CountOf(rows, "boy"), CountOf(rows, "girl"), |rows|)
  }

  /** Every row holds a vote type the handler would accept. */
  predicate OnlyVoteTypes(rows: seq<Row>) {
    forall i :: 0 <= i < |rows| ==> IsVoteType(rows[i].voteType)
  }

  /** Appending one row adds one to the count of its own vote type only. */
  lemma {:induction false} CountAppend(rows: seq<Row>, row: Row, t: string)
    ensures CountOf(rows + [row], t) == CountOf(rows, t) + (if row.voteType == t then 1 else 0)
  {
    if rows == [] {
      assert [row][1..] == [];
    } else {
      assert (rows + [row])[1..] == rows[1..] + [row];
      CountAppend(rows[1..], row, t);
    }
  }

  /** The tallies after an INSERT are the tallies before it, plus one for the new row. */
  lemma {:induction false} TalliesAfterInsert(rows: seq<Row>, row: Row)
    ensures Tallies(rows + [row]) ==
      VoteStats(Tallies(rows).boyVotes + (if row.voteType == "boy" then 1 else 0),
                Tallies(rows).girlVotes + (if row.voteType == "girl" then 1 else 0),
                Tallies(rows).totalVotes + 1)
  {
    CountAppend(rows, row, "boy");
    CountAppend(rows, row, "girl");
  }

  /** No row is counted both as `boy` and as `girl`. */
  lemma {:induction false} CountsDisjoint(rows: seq<Row>)
    ensures CountOf(rows, "boy") + CountOf(rows, "girl") <= |rows|
  {
    if rows != [] {
      CountsDisjoint(rows[1..]);
    }
  }

  /** The counts of `boy` and `girl` add up to the total exactly when every row is one of them. */
  lemma {:induction false} TalliesAddUp(rows: seq<Row>)
    ensures AddsUp(Tallies(rows)) <==> OnlyVoteTypes(rows)
  {
    if rows != [] {
      var rest := rows[1..];
      CountsDisjoint(rest);
      TalliesAddUp(rest);
      assert OnlyVoteTypes(rows) <==> IsVoteType(rows[0].voteType) && OnlyVoteTypes(rest) by {
        if IsVoteType(rows[0].voteType) && OnlyVoteTypes(rest) {
          forall i | 0 <= i < |rows| ensures IsVoteType(rows[i].voteType) {
            if i > 0 { assert rows[i] == rest[i - 1]; }
          }
        }
      }
    }
  }

  /** The `votes` table as the handler sees it through its database connections. */
  class VotesTable {
    var rows: seq<Row>
    /** How many connections `get_db_connection` has opened to the table. */
    var connections: nat

    constructor (rows: seq<Row>)
      ensures this.rows == rows && connections == 0
    {
      this.rows := rows;
      connections := 0;
    }

    /** Opens a connection; the table itself is untouched. */
    method Connect()
      modifies this`connections
      ensures connections == old(connections) + 1
    {
      connections := connections + 1;
    }

    /** `INSERT INTO votes (vote_type, voter_ip)` followed by `commit`. */
    method Insert(row: Row)
      modifies this`rows
      ensures rows == old(rows) + [row]
    {
      rows := rows + [row];
    }
  }

  /** The request handler: preflight, cast a vote, read the tallies, or refuse the method. */
  method Handler(db: VotesTable, event: Event) returns (resp: Response)
    modifies db
    // OPTIONS answers before any connection is opened
    ensures RouteOf(event.httpMethod) == Preflight ==>
      resp == Response(200, NoContent) && db.rows == old(db.rows) && db.connections == old(db.connections)
    ensures RouteOf(event.httpMethod) != Preflight ==> db.connections == old(db.connections) + 1
    // POST with a vote_type other than boy/girl (an absent body included)
    ensures RouteOf(event.httpMethod) == CastVote && ParseVoteType(RequestVoteType(event)).None? ==>
      resp == Response(400, Error(InvalidVoteTypeMessage)) && db.rows == old(db.rows)
    // POST with a valid vote_type: one row appended, tallies taken after the insert
    ensures RouteOf(event.httpMethod) == CastVote && ParseVoteType(RequestVoteType(event)).Some? ==>
      var voteType := RequestVoteType(event).value;
      db.rows == old(db.rows) + [Row(voteType, VoterIp(event))] &&
      resp == Response(200, VoteRecorded(true, voteType, Tallies(db.rows))) &&
      Tallies(db.rows).totalVotes == Tallies(old(db.rows)).totalVotes + 1
    // GET (or no method): the current tallies, the table unchanged
    ensures RouteOf(event.httpMethod) == ReadStats ==>
      resp == Response(200, CurrentStats(Tallies(db.rows))) && db.rows == old(db.rows)
    ensures RouteOf(event.httpMethod) == NotAllowed ==>
      resp == Response(405, Error(MethodNotAllowedMessage)) && db.rows == old(db.rows)
    // the table only ever gains boy/girl rows, so reported tallies add up
    ensures OnlyVoteTypes(old(db.rows)) ==> OnlyVoteTypes(db.rows)
    ensures OnlyVoteTypes(old(db.rows)) && (resp.body.VoteRecorded? || resp.body.CurrentStats?) ==>
      AddsUp(resp.body.stats)
  {
    var route := RouteOf(event.httpMethod);
    if route == Preflight {
      return Response(200, NoContent);
    }
    db.Connect();
    if route == CastVote {
      var voteType := RequestVoteType(event);
      if ParseVoteType(voteType).None? {
        return Response(400, Error(InvalidVoteTypeMessage));
      }
      ghost var before := db.rows;
      db.Insert(Row(voteType.value, VoterIp(event)));
      assert OnlyVoteTypes(before) ==> OnlyVoteTypes(db.rows) by {
        if OnlyVoteTypes(before) {
          forall i | 0 <= i < |db.rows| ensures IsVoteType(db.rows[i].voteType) {
            if i < |before| { assert db.rows[i] == before[i]; }
          }
        }
      }
      TalliesAddUp(db.rows);
      resp := Response(200, VoteRecorded(true, voteType.value, Tallies(db.rows)));
    } else if route == ReadStats {
      TalliesAddUp(db.rows);
      resp := Response(200, CurrentStats(Tallies(db.rows)));
    } else {
      resp := Response(405, Error(MethodNotAllowedMessage));
    }
  }
}
