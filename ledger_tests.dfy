/** The contract's test suite, one method per test case. Each starts from a
    fresh contract, makes the test's calls, and promises in its ensures
    exactly what the test asserts; the proofs use only the contract's
    specifications. */
module LedgerTests {
  import opened Common
  import opened Ledger

  const Title: string := "Election 1"
  const Description: string := "Description of Election 1"

  /** "should create an election": index 0 reads back with the given fields, active. */
  method ShouldCreateAnElection(startDate: nat) returns (index: nat, info: ElectionInfo)
    ensures index == 0
    ensures info == ElectionInfo(0, Title, Description, startDate, startDate + 3600, true)
  {
    var voting := new VotingContract();
    index := voting.CreateElection(Title, Description, startDate, startDate + 3600);
    var read := voting.GetElection(0);
    info := read.value;
  }

  /** "should add a candidate to an election": the list goes from 0 to 1 entry. */
  method ShouldAddACandidate(startDate: nat) returns (before: seq<Candidate>, after: seq<Candidate>)
    ensures |before| == 0
    ensures |after| == 1 && after[0].name == "Candidate 1" && after[0].id == 0 && after[0].voteCount == 0
  {
    var voting := new VotingContract();
    var _ := voting.CreateElection(Title, Description, startDate, startDate + 3600);
    before := voting.GetCandidates(0).value;
    var added := voting.AddCandidate(0, "Candidate 1");
    after := voting.GetCandidates(0).value;
  }

  /** "should cast a vote": castVote(0, 0) credits the first candidate added, only it. */
  method ShouldCastAVote(startDate: nat, voter1: Address) returns (counts: seq<nat>)
    ensures counts == [1, 0]
  {
    var voting := new VotingContract();
    var _ := voting.CreateElection(Title, Description, startDate, startDate + 3600);
    var c1 := voting.AddCandidate(0, "Candidate 1");
    var c2 := voting.AddCandidate(0, "Candidate 2");
    assert voting.elections[0].candidates[0].id == 0;
    var vote := voting.CastVote(voter1, 0, 0);
    var cs := voting.GetCandidates(0).value;
    counts := [cs[0].voteCount, cs[1].voteCount];
  }

  /** "should not allow double voting": the second castVote of the same sender
      reverts with "You have already voted" and the count stays 1. */
  method ShouldNotAllowDoubleVoting(startDate: nat, voter1: Address)
    returns (first: Tx<()>, second: Tx<()>, count: nat)
    ensures first.Mined?
    ensures second == Reverted("You have already voted")
    ensures count == 1
  {
    var voting := new VotingContract();
    var _ := voting.CreateElection(Title, Description, startDate, startDate + 3600);
    var c1 := voting.AddCandidate(0, "Candidate 1");
    assert voting.elections[0].candidates[0].id == 0;
    assert HasCandidate(voting.elections[0].candidates, 0);
    first := voting.CastVote(voter1, 0, 0);
    second := voting.CastVote(voter1, 0, 0);
    count := voting.GetCandidates(0).value[0].voteCount;
  }

  /** "should close an election": isActive reads back false. */
  method ShouldCloseAnElection(startDate: nat) returns (isActive: bool)
    ensures !isActive
  {
    var voting := new VotingContract();
    var _ := voting.CreateElection(Title, Description, startDate, startDate + 3600);
    var closed := voting.CloseElection(0);
    isActive := voting.GetElection(0).value.isActive;
  }

  /** "should tally votes after the election has ended": two voters, one vote
      each for the two candidates, then close and tally. */
  method ShouldTallyVotes(startDate: nat, voter1: Address, voter2: Address) returns (counts: seq<nat>)
    requires voter1 != voter2
    ensures counts == [1, 1]
  {
    var voting := new VotingContract();
    var _ := voting.CreateElection(Title, Description, startDate, startDate + 3600);
    var c1 := voting.AddCandidate(0, "Candidate 1");
    var c2 := voting.AddCandidate(0, "Candidate 2");
    assert voting.elections[0].candidates[0].id == 0;
    assert HasCandidate(voting.elections[0].candidates, 0);
    assert voting.elections[0].candidates[1].id == 1;
    assert HasCandidate(voting.elections[0].candidates, 1);
    var v1 := voting.CastVote(voter1, 0, 0);
    assert voting.elections[0].candidates[1].id == 1;
    assert HasCandidate(voting.elections[0].candidates, 1);
    var v2 := voting.CastVote(voter2, 0, 1);
    var closed := voting.CloseElection(0);
    var tally := voting.TallyVotes(0);
    counts := [tally.value[0].voteCount, tally.value[1].voteCount];
  }
}
