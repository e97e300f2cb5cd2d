/**
 * The vote controller of the page: the `stats`, `loading` and `hasVoted`
 * state cells, the two network actions that update them, and the values the
 * page derives from them. Each network call is replaced by its outcome,
 * passed in as a parameter.
 */
module VoteClient {
  import opened Wrappers
  import opened Votes

  /** What `fetch(VOTING_API)` followed by `response.json()` produced. */
  datatype FetchOutcome = FetchThrew | Fetched(stats: VoteStats)

  /** What the POST followed by `response.json()` produced: a throw, or `success` and `stats`. */
  datatype VoteOutcome = VoteThrew | VoteReplied(success: bool, stats: VoteStats)

  /** Which toast the page raised, if any. */
  datatype Notice = NoNotice | AlreadyVotedNotice | VoteCountedNotice(choice: VoteChoice) | ErrorNotice

  /** The voting state of the page's session, as read off `loading` and `hasVoted`. */
  datatype Phase = NotVoted | Pending | Voted

  /** Whether the server accepted the vote (`data.success` is true). */
  function Accepted(outcome: VoteOutcome): (accepted: bool)
    ensures accepted ==> outcome.VoteReplied?
    ensures outcome.VoteReplied? ==> (accepted <==> outcome.success)
  {
    outcome.VoteReplied? && outcome.success
  }

  /** The share of `count` in `total`, in percent; 50 when there are no votes yet. */
  function Share(count: nat, total: nat): (p: real)
    ensures total == 0 ==> p == 50.0
    ensures total > 0 ==> p * (total as real) == 100.0 * (count as real)
    ensures 0.0 <= p
    ensures count <= total ==> p <= 100.0
  {
    if total > 0 then (count as real / total as real) * 100.0 else 50.0
  }

  /** The boy share of the tallies, in percent. */
  function BoyPercentage(s: VoteStats): (p: real)
    ensures s.totalVotes == 0 ==> p == 50.0
    ensures s.totalVotes > 0 ==> p * (s.totalVotes as real) == 100.0 * (s.boyVotes as real)
    ensures s.boyVotes <= s.totalVotes ==> 0.0 <= p <= 100.0
  {
    Share(s.boyVotes, s.totalVotes)
  }

  /** The girl share of the tallies, in percent. */
  function GirlPercentage(s: VoteStats): (p: real)
    ensures s.totalVotes == 0 ==> p == 50.0
    ensures s.totalVotes > 0 ==> p * (s.totalVotes as real) == 100.0 * (s.girlVotes as real)
    ensures s.girlVotes <= s.totalVotes ==> 0.0 <= p <= 100.0
  {
    Share(s.girlVotes, s.totalVotes)
  }

  /**
   * The two percentages add up to 100 when the tallies add up; when there is
   * at least one vote, the converse holds too.
   */
  lemma PercentagesSumToHundred(s: VoteStats)
    ensures AddsUp(s) ==> BoyPercentage(s) + GirlPercentage(s) == 100.0
    ensures s.totalVotes > 0 && BoyPercentage(s) + GirlPercentage(s) == 100.0 ==> AddsUp(s)
  {
    if s.totalVotes > 0 {
      var b, g, t := s.boyVotes as real, s.girlVotes as real, s.totalVotes as real;
      var q := (b + g) / t;
      assert b / t + g / t == q;
      assert BoyPercentage(s) + GirlPercentage(s) == q * 100.0;
      assert q * t == b + g;
      if AddsUp(s) {
        assert b + g == t;
        assert q == 1.0;
      }
    }
  }

  class VoteController {
    var stats: VoteStats
    var loading: bool
    var hasVoted: bool

    /** A vote is in flight only while none has been accepted. */
    ghost predicate Valid()
      reads this
    {
      hasVoted ==> !loading
    }

    function CurrentPhase(): Phase
      reads this
    {
      if hasVoted then Voted else if loading then Pending else NotVoted
    }

    /** The two vote buttons carry `disabled={loading || hasVoted}`. */
    function ButtonsEnabled(): (enabled: bool)
      reads this
      ensures enabled <==> CurrentPhase() == NotVoted
    {
      !(loading || hasVoted)
    }

    /** The initial values of the three state cells. */
    constructor ()
      ensures stats == NoVotes && !loading && !hasVoted
      ensures Valid() && CurrentPhase() == NotVoted
    {
      stats := NoVotes;
      loading := false;
      hasVoted := false;
    }

    /** Replaces `stats` with the server's tallies; a throw is logged and changes nothing. */
    method FetchStats(outcome: FetchOutcome)
      modifies this`stats
      ensures stats == (if outcome.Fetched? then outcome.stats else old(stats))
      ensures loading == old(loading) && hasVoted == old(hasVoted)
    {
      if outcome.Fetched? {
        stats := outcome.stats;
      }
    }

    /**
     * The part of `handleVote` before its request is awaited: the already-voted
     * guard, then `loading` set. Returns the `vote_type` posted, if any.
     */
    method StartVote(choice: VoteChoice) returns (request: Option<string>, notice: Notice)
      requires Valid()
      modifies this`loading
      ensures Valid() && stats == old(stats) && hasVoted == old(hasVoted)
      ensures old(hasVoted) ==> request == None && notice == AlreadyVotedNotice && loading == old(loading)
      ensures !old(hasVoted) ==>
        request == Some(Name(choice)) && notice == NoNotice && CurrentPhase() == Pending && !ButtonsEnabled()
    {
      if hasVoted {
        return None, AlreadyVotedNotice;
      }
      loading := true;
      request, notice := Some(Name(choice)), NoNotice;
    }

    /**
     * The part of `handleVote` after its request settles: on acceptance the
     * server's tallies replace `stats` and the vote is recorded; `loading` is
     * cleared on every path.
     */
    method CompleteVote(choice: VoteChoice, outcome: VoteOutcome) returns (notice: Notice)
      requires Valid()
      modifies this`stats, this`loading, this`hasVoted
      ensures Valid() && !loading
      ensures Accepted(outcome) ==>
        stats == outcome.stats && hasVoted && notice == VoteCountedNotice(choice) && CurrentPhase() == Voted
      ensures !Accepted(outcome) ==> stats == old(stats) && hasVoted == old(hasVoted)
      ensures outcome.VoteThrew? ==> notice == ErrorNotice
      ensures outcome.VoteReplied? && !outcome.success ==> notice == NoNotice
    {
      notice := NoNotice;
      match outcome {
        case VoteThrew =>
          notice := ErrorNotice;
        case VoteReplied(success, replied) =>
          if success {
            stats := replied;
            hasVoted := true;
            notice := VoteCountedNotice(choice);
          }
      }
      loading := false;
    }

    /** `handleVote` run to completion, the request settling with `outcome`. */
    method HandleVote(choice: VoteChoice, outcome: VoteOutcome) returns (request: Option<string>, notice: Notice)
      requires Valid()
      modifies this`stats, this`loading, this`hasVoted
      ensures Valid() && !loading
      ensures old(hasVoted) ==>
        request == None && notice == AlreadyVotedNotice && stats == old(stats) && hasVoted
      ensures !old(hasVoted) ==> request == Some(Name(choice))
      ensures !old(hasVoted) && Accepted(outcome) ==>
        stats == outcome.stats && hasVoted && notice == VoteCountedNotice(choice)
      ensures !Accepted(outcome) ==> stats == old(stats) && hasVoted == old(hasVoted)
      ensures outcome.VoteThrew? && !old(hasVoted) ==> notice == ErrorNotice
      ensures outcome.VoteReplied? && !outcome.success && !old(hasVoted) ==> notice == NoNotice
    {
      request, notice := StartVote(choice);
      if request.Some? {
        notice := CompleteVote(choice, outcome);
      }
    }
  }
}
