/** The vocabulary shared by the page and the voting function. */
module Votes {

  /** The two choices a visitor can vote for. */
  datatype VoteChoice = Boy | Girl

  /** The `vote_type` string that stands for a choice on the wire and in the table. */
  function Name(c: VoteChoice): string {
    match c
    case Boy => "boy"
    case Girl => "girl"
  }

  /** The tallies the server reports: the JSON keys `boy_votes`, `girl_votes`, `total_votes`. */
  datatype VoteStats = VoteStats(boyVotes: nat, girlVotes: nat, totalVotes: nat)

  /** The tallies before anything has been fetched. */
  const NoVotes := VoteStats(0, 0, 0)

  /** Every counted vote is a vote for one of the two choices. */
  predicate AddsUp(s: VoteStats) {
    s.boyVotes + s.girlVotes == s.totalVotes
  }
}
