/** The Voting contract on the ledger, as its test suite exercises it: a
    sequence of elections indexed from 0, per-election candidate lists with
    vote counts, and the set of (election, voter) pairs that have voted.
    Every write either applies completely (Mined) or changes nothing
    (Reverted). */
module Ledger {
  import opened Common

  type Address = string

  datatype Candidate = Candidate(id: nat, name: string, voteCount: nat)

  datatype Election = Election(
    index: nat,
    title: string,
    description: string,
    startDate: nat,   // Unix seconds
    endDate: nat,     // Unix seconds
    isActive: bool,
    candidates: seq<Candidate>,
    nextCandidateId: nat)

  /** The tuple getElection(i) returns: (id, title, description, startDate, endDate, isActive). */
  datatype ElectionInfo = ElectionInfo(
    index: nat, title: string, description: string, startDate: nat, endDate: nat, isActive: bool)

  /** One successful castVote, kept as a ghost log so that tallies can be
      related to the voters behind them. */
  datatype Ballot = Ballot(election: nat, voter: Address, candidate: nat)

  /** A transaction that was mined with its return value, or reverted with a reason. */
  datatype Tx<T> = Mined(value: T) | Reverted(reason: string)

  /** Revert reasons. Only the first is fixed by the contract's tests; the
      others are placeholders for whatever reason the contract gives. */
  const AlreadyVoted: string := "You have already voted"
  const NotActive: string := "Election is not active"
  const NoSuchElection: string := "Invalid election ID"
  const NoSuchCandidate: string := "Invalid candidate ID"

  function Info(e: Election): ElectionInfo
  {
    ElectionInfo(e.index, e.title, e.description, e.startDate, e.endDate, e.isActive)
  }

  // ---------------------------------------------------------------------------
  // Ballots and tallies

  /** Number of ballots in bs for candidate c of election e. */
  function CountVotes(bs: seq<Ballot>, e: nat, c: nat): nat
  {
    if bs == [] then 0
    else CountVotes(bs[..|bs| - 1], e, c) + (if bs[|bs| - 1].election == e && bs[|bs| - 1].candidate == c then 1 else 0)
  }

  /** The distinct voters whose ballot in election e went to candidate c. */
  ghost function Voters(bs: seq<Ballot>, e: nat, c: nat): set<Address>
  {
    set b | b in bs && b.election == e && b.candidate == c :: b.voter
  }

  /** No voter has two ballots in the same election. */
  ghost predicate OneBallotPerVoter(bs: seq<Ballot>)
  {
    forall j, k :: 0 <= j < k < |bs| ==> (bs[j].election, bs[j].voter) != (bs[k].election, bs[k].voter)
  }

  ghost function VotedPairs(bs: seq<Ballot>): set<(nat, Address)>
  {
    set b | b in bs :: (b.election, b.voter)
  }

  lemma CountVotesAppend(bs: seq<Ballot>, b: Ballot, e: nat, c: nat)
    ensures CountVotes(bs + [b], e, c) == CountVotes(bs, e, c) + (if b.election == e && b.candidate == c then 1 else 0)
  {
    assert (bs + [b])[..|bs|] == bs;
  }

  /** A candidate id no ballot of election e names has no votes. */
  lemma {:induction false} CountVotesUnused(bs: seq<Ballot>, e: nat, c: nat)
    requires forall b :: b in bs && b.election == e ==> b.candidate != c
    ensures CountVotes(bs, e, c) == 0
  {
    if bs != [] {
      assert bs[|bs| - 1] in bs;
      CountVotesUnused(bs[..|bs| - 1], e, c);
    }
  }

  lemma VotersAppend(bs: seq<Ballot>, b: Ballot, e: nat, c: nat)
    ensures Voters(bs + [b], e, c) == Voters(bs, e, c) + (if b.election == e && b.candidate == c then {b.voter} else {})
  {
  }

  /** The last ballot's voter has no earlier ballot in the same election. */
  lemma LastVoterIsNew(bs: seq<Ballot>, e: nat, c: nat)
    requires bs != [] && OneBallotPerVoter(bs)
    requires bs[|bs| - 1].election == e
    ensures bs[|bs| - 1].voter !in Voters(bs[..|bs| - 1], e, c)
  {
  }

  /** With one ballot per voter and election, a candidate's count is the
      number of distinct voters who chose it. */
  lemma {:induction false} CountIsDistinctVoters(bs: seq<Ballot>, e: nat, c: nat)
    requires OneBallotPerVoter(bs)
    ensures CountVotes(bs, e, c) == |Voters(bs, e, c)|
  {
    if bs != [] {
      var front, b := bs[..|bs| - 1], bs[|bs| - 1];
      assert bs == front + [b];
      assert OneBallotPerVoter(front);
      CountIsDistinctVoters(front, e, c);
      VotersAppend(front, b, e, c);
      if b.election == e && b.candidate == c {
        LastVoterIsNew(bs, e, c);
      }
    }
  }

  // ---------------------------------------------------------------------------
  // Candidate lists

  /** Candidate ids are strictly increasing in list order and below the
      election's next id, so every id is unique and a fresh id is unused. */
  ghost predicate IdsAscending(cs: seq<Candidate>, next: nat)
  {
    && (forall j, k :: 0 <= j < k < |cs| ==> cs[j].id < cs[k].id)
    && (forall j :: 0 <= j < |cs| ==> cs[j].id < next)
  }

  predicate HasCandidate(cs: seq<Candidate>, id: nat)
  {
    exists j :: 0 <= j < |cs| && cs[j].id == id
  }

  /** The list after one vote for candidate id. */
  function Credit(cs: seq<Candidate>, id: nat): (r: seq<Candidate>)
    ensures |r| == |cs|
    ensures forall j :: 0 <= j < |cs| ==> r[j].id == cs[j].id && r[j].name == cs[j].name
    ensures forall j :: 0 <= j < |cs| ==>
      r[j].voteCount == cs[j].voteCount + (if cs[j].id == id then 1 else 0)
  {
    seq(|cs|, j requires 0 <= j < |cs| =>
      if cs[j].id == id then cs[j].(voteCount := cs[j].voteCount + 1) else cs[j])
  }

  /** The list after candidate id is renamed. */
  function Rename(cs: seq<Candidate>, id: nat, name: string): (r: seq<Candidate>)
    ensures |r| == |cs|
    ensures forall j :: 0 <= j < |cs| ==> r[j].id == cs[j].id && r[j].voteCount == cs[j].voteCount
    ensures forall j :: 0 <= j < |cs| ==> r[j].name == (if cs[j].id == id then name else cs[j].name)
  {
    seq(|cs|, j requires 0 <= j < |cs| => if cs[j].id == id then cs[j].(name := name) else cs[j])
  }

  /** The list without candidate id, the others kept in order. */
  function Without(cs: seq<Candidate>, id: nat): (r: seq<Candidate>)
    ensures |r| <= |cs|
  {
    if cs == [] then []
    else (if cs[0].id == id then [] else [cs[0]]) + Without(cs[1..], id)
  }

  lemma {:induction false} WithoutMembers(cs: seq<Candidate>, id: nat)
    ensures forall x :: x in Without(cs, id) <==> x in cs && x.id != id
  {
    if cs != [] {
      WithoutMembers(cs[1..], id);
      assert cs == [cs[0]] + cs[1..];
    }
  }

  lemma TailAscending(cs: seq<Candidate>, next: nat)
    requires cs != [] && IdsAscending(cs, next)
    ensures IdsAscending(cs[1..], next)
    ensures forall x :: x in cs[1..] ==> cs[0].id < x.id
  {
    forall j, k | 0 <= j < k < |cs[1..]| ensures cs[1..][j].id < cs[1..][k].id {
      assert cs[1..][j] == cs[j + 1] && cs[1..][k] == cs[k + 1];
    }
  }

  lemma ConsAscending(x: Candidate, rest: seq<Candidate>, next: nat)
    requires IdsAscending(rest, next) && x.id < next
    requires forall y :: y in rest ==> x.id < y.id
    ensures IdsAscending([x] + rest, next)
  {
    var r := [x] + rest;
    forall j, k | 0 <= j < k < |r| ensures r[j].id < r[k].id {
      assert r[k] == rest[k - 1];
      if j > 0 {
        assert r[j] == rest[j - 1];
      }
    }
  }

  /** Removing a candidate keeps the remaining ids ascending. */
  lemma {:induction false} WithoutAscending(cs: seq<Candidate>, id: nat, next: nat)
    requires IdsAscending(cs, next)
    ensures IdsAscending(Without(cs, id), next)
  {
    if cs != [] {
      TailAscending(cs, next);
      WithoutAscending(cs[1..], id, next);
      WithoutMembers(cs[1..], id);
      if cs[0].id != id {
        ConsAscending(cs[0], Without(cs[1..], id), next);
      }
    }
  }

  // ---------------------------------------------------------------------------
  // The contract

  /** Election i's vote counts agree with the ballot log. */
  ghost predicate TallyMatches(e: Election, i: nat, bs: seq<Ballot>)
  {
    forall j :: 0 <= j < |e.candidates| ==> e.candidates[j].voteCount == CountVotes(bs, i, e.candidates[j].id)
  }

  /** An election once closed is never active again, and none disappears. */
  ghost predicate NeverReopened(before: seq<Election>, after: seq<Election>)
  {
    |before| <= |after| && forall i :: 0 <= i < |before| && !before[i].isActive ==> !after[i].isActive
  }

  class VotingContract {
    var elections: seq<Election>
    var hasVoted: set<(nat, Address)>
    ghost var ballots: seq<Ballot>

    ghost predicate Valid()
      reads this
    {
      && (forall i :: 0 <= i < |elections| ==> elections[i].index == i)
      && (forall i :: 0 <= i < |elections| ==> IdsAscending(elections[i].candidates, elections[i].nextCandidateId))
      && (forall i :: 0 <= i < |elections| ==> TallyMatches(elections[i], i, ballots))
      && (forall b :: b in ballots ==> b.election < |elections| && b.candidate < elections[b.election].nextCandidateId)
      && OneBallotPerVoter(ballots)
      && hasVoted == VotedPairs(ballots)
    }

    /** Voting.new(): no elections, nobody has voted. */
    constructor ()
      ensures Valid()
      ensures elections == [] && hasVoted == {} && ballots == []
    {
      elections := [];
      hasVoted := {};
      ballots := [];
    }

    function ElectionCount(): nat
      reads this
    {
      |elections|
    }

    /** getElection(i) and the public getter elections(i). */
    function GetElection(i: nat): Tx<ElectionInfo>
      reads this
    {
      if i < |elections| then Mined(Info(elections[i])) else Reverted(NoSuchElection)
    }

    function GetCandidates(i: nat): Tx<seq<Candidate>>
      reads this
    {
      if i < |elections| then Mined(elections[i].candidates) else Reverted(NoSuchElection)
    }

    function NextCandidateId(i: nat): Tx<nat>
      reads this
    {
      if i < |elections| then Mined(elections[i].nextCandidateId) else Reverted(NoSuchElection)
    }

    /** createElection: appends an active election with no candidates; its
        index is the number of elections before the call. */
    method CreateElection(title: string, description: string, startDate: nat, endDate: nat)
      returns (index: nat)
      requires Valid()
      modifies this
      ensures Valid()
      ensures index == |old(elections)|
      ensures elections == old(elections) + [Election(index, title, description, startDate, endDate, true, [], 0)]
      ensures hasVoted == old(hasVoted) && ballots == old(ballots)
      ensures NeverReopened(old(elections), elections)
    {
      index := |elections|;
      elections := elections + [Election(index, title, description, startDate, endDate, true, [], 0)];
      assert forall i :: 0 <= i < index ==> elections[i] == old(elections)[i];
    }

    /** addCandidate: appends a candidate with no votes under the election's
        next candidate id and returns that id. */
    method AddCandidate(e: nat, name: string) returns (r: Tx<nat>)
      requires Valid()
      modifies this
      ensures Valid()
      ensures r.Mined? <==> e < |old(elections)|
      ensures r.Mined? ==>
        var old_e := old(elections[e]);
        && r.value == old_e.nextCandidateId
        && elections == old(elections)[e := old_e.(
             candidates := old_e.candidates + [Candidate(r.value, name, 0)],
             nextCandidateId := old_e.nextCandidateId + 1)]
      ensures r.Reverted? ==> elections == old(elections)
      ensures e >= |old(elections)| ==> r == Reverted(NoSuchElection)
      ensures hasVoted == old(hasVoted) && ballots == old(ballots)
      ensures NeverReopened(old(elections), elections)
    {
      if e >= |elections| {
        return Reverted(NoSuchElection);
      }
      var el := elections[e];
      var id := el.nextCandidateId;
      forall b | b in ballots && b.election == e ensures b.candidate != id {
      }
      CountVotesUnused(ballots, e, id);
      elections := elections[e := el.(candidates := el.candidates + [Candidate(id, name, 0)],
                                      nextCandidateId := id + 1)];
      r := Mined(id);
    }

    /** updateCandidate: renames candidate c of election e. */
    method UpdateCandidate(e: nat, c: nat, name: string) returns (r: Tx<()>)
      requires Valid()
      modifies this
      ensures Valid()
      ensures r.Mined? <==> e < |old(elections)| && HasCandidate(old(elections[e].candidates), c)
      ensures r.Mined? ==> elections == old(elections)[e := old(elections[e]).(candidates := Rename(old(elections[e].candidates), c, name))]
      ensures r.Reverted? ==> elections == old(elections)
      ensures e >= |old(elections)| ==> r == Reverted(NoSuchElection)
      ensures e < |old(elections)| && !HasCandidate(old(elections[e].candidates), c) ==> r == Reverted(NoSuchCandidate)
      ensures hasVoted == old(hasVoted) && ballots == old(ballots)
      ensures NeverReopened(old(elections), elections)
    {
      if e >= |elections| {
        return Reverted(NoSuchElection);
      }
      var el := elections[e];
      if !HasCandidate(el.candidates, c) {
        return Reverted(NoSuchCandidate);
      }
      elections := elections[e := el.(candidates := Rename(el.candidates, c, name))];
      r := Mined(());
    }

    /** deleteCandidate: removes candidate c of election e; ids are not reused. */
    method DeleteCandidate(e: nat, c: nat) returns (r: Tx<()>)
      requires Valid()
      modifies this
      ensures Valid()
      ensures r.Mined? <==> e < |old(elections)| && HasCandidate(old(elections[e].candidates), c)
      ensures r.Mined? ==> elections == old(elections)[e := old(elections[e]).(candidates := Without(old(elections[e].candidates), c))]
      ensures r.Reverted? ==> elections == old(elections)
      ensures e >= |old(elections)| ==> r == Reverted(NoSuchElection)
      ensures e < |old(elections)| && !HasCandidate(old(elections[e].candidates), c) ==> r == Reverted(NoSuchCandidate)
      ensures hasVoted == old(hasVoted) && ballots == old(ballots)
      ensures NeverReopened(old(elections), elections)
    {
      if e >= |elections| {
        return Reverted(NoSuchElection);
      }
      var el := elections[e];
      if !HasCandidate(el.candidates, c) {
        return Reverted(NoSuchCandidate);
      }
      WithoutAscending(el.candidates, c, el.nextCandidateId);
      WithoutMembers(el.candidates, c);
      var cs := Without(el.candidates, c);
      forall j | 0 <= j < |cs| ensures cs[j].voteCount == CountVotes(ballots, e, cs[j].id) {
        assert cs[j] in el.candidates;
      }
      elections := elections[e := el.(candidates := cs)];
      r := Mined(());
    }

    /** updateElection: replaces the descriptive fields and the dates. */
    method UpdateElection(e: nat, title: string, description: string, startDate: nat, endDate: nat)
      returns (r: Tx<()>)
      requires Valid()
      modifies this
      ensures Valid()
      ensures r.Mined? <==> e < |old(elections)|
      ensures r.Mined? ==> elections == old(elections)[e := old(elections[e]).(
        title := title, description := description, startDate := startDate, endDate := endDate)]
      ensures r.Reverted? ==> elections == old(elections)
      ensures e >= |old(elections)| ==> r == Reverted(NoSuchElection)
      ensures hasVoted == old(hasVoted) && ballots == old(ballots)
      ensures NeverReopened(old(elections), elections)
    {
      if e >= |elections| {
        return Reverted(NoSuchElection);
      }
      elections := elections[e := elections[e].(title := title, description := description,
                                                startDate := startDate, endDate := endDate)];
      r := Mined(());
    }

    /** deleteElection: Solidity's delete resets the record's fields to zero
        values; the index stays, so later indices do not move. */
    method DeleteElection(e: nat) returns (r: Tx<()>)
      requires Valid()
      modifies this
      ensures Valid()
      ensures r.Mined? <==> e < |old(elections)|
      ensures r.Mined? ==> elections == old(elections)[e := old(elections[e]).(
        title := "", description := "", startDate := 0, endDate := 0, isActive := false)]
      ensures r.Reverted? ==> elections == old(elections)
      ensures e >= |old(elections)| ==> r == Reverted(NoSuchElection)
      ensures hasVoted == old(hasVoted) && ballots == old(ballots)
      ensures NeverReopened(old(elections), elections)
    {
      if e >= |elections| {
        return Reverted(NoSuchElection);
      }
      elections := elections[e := elections[e].(title := "", description := "",
                                                startDate := 0, endDate := 0, isActive := false)];
      r := Mined(());
    }

    /** closeElection: clears isActive whatever its value was. */
    method CloseElection(e: nat) returns (r: Tx<()>)
      requires Valid()
      modifies this
      ensures Valid()
      ensures r.Mined? <==> e < |old(elections)|
      ensures r.Mined? ==> elections == old(elections)[e := old(elections[e]).(isActive := false)]
      ensures r.Reverted? ==> elections == old(elections)
      ensures e >= |old(elections)| ==> r == Reverted(NoSuchElection)
      ensures hasVoted == old(hasVoted) && ballots == old(ballots)
      ensures NeverReopened(old(elections), elections)
    {
      if e >= |elections| {
        return Reverted(NoSuchElection);
      }
      elections := elections[e := elections[e].(isActive := false)];
      r := Mined(());
    }

    /** castVote(e, c) sent by voter: one vote per (election, voter), only while
        the election is active and only for an existing candidate. */
    method CastVote(voter: Address, e: nat, c: nat) returns (r: Tx<()>)
      requires Valid()
      modifies this
      ensures Valid()
      ensures r.Mined? <==>
        && e < |old(elections)|
        && old(elections[e].isActive)
        && (e, voter) !in old(hasVoted)
        && HasCandidate(old(elections[e].candidates), c)
      ensures e < |old(elections)| && old(elections[e].isActive) && (e, voter) in old(hasVoted) ==>
        r == Reverted(AlreadyVoted)
      ensures r.Mined? ==>
        && elections == old(elections)[e := old(elections[e]).(candidates := Credit(old(elections[e].candidates), c))]
        && hasVoted == old(hasVoted) + {(e, voter)}
        && ballots == old(ballots) + [Ballot(e, voter, c)]
      ensures r.Reverted? ==> elections == old(elections) && hasVoted == old(hasVoted) && ballots == old(ballots)
      ensures e >= |old(elections)| ==> r == Reverted(NoSuchElection)
      ensures e < |old(elections)| && !old(elections[e].isActive) ==> r == Reverted(NotActive)
      ensures NeverReopened(old(elections), elections)
    {
      if e >= |elections| {
        return Reverted(NoSuchElection);
      }
      var el := elections[e];
      if !el.isActive {
        return Reverted(NotActive);
      }
      if (e, voter) in hasVoted {
        return Reverted(AlreadyVoted);
      }
      if !HasCandidate(el.candidates, c) {
        return Reverted(NoSuchCandidate);
      }
      var b := Ballot(e, voter, c);
      var cs := Credit(el.candidates, c);
      forall i, j | 0 <= i < |elections| && 0 <= j < |elections[i].candidates|
        ensures CountVotes(ballots + [b], i, elections[i].candidates[j].id)
             == CountVotes(ballots, i, elections[i].candidates[j].id)
                + (if i == e && elections[i].candidates[j].id == c then 1 else 0)
      {
        CountVotesAppend(ballots, b, i, elections[i].candidates[j].id);
      }
      forall k | 0 <= k < |ballots| ensures (ballots[k].election, ballots[k].voter) != (e, voter) {
        assert ballots[k] in ballots;
      }
      assert VotedPairs(ballots + [b]) == VotedPairs(ballots) + {(e, voter)};
      elections := elections[e := el.(candidates := cs)];
      hasVoted := hasVoted + {(e, voter)};
      ballots := ballots + [b];
      r := Mined(());
    }

    /** tallyVotes(e): the candidate list, whose every count is the number of
        distinct voters who chose that candidate. */
    method TallyVotes(e: nat) returns (r: Tx<seq<Candidate>>)
      requires Valid()
      ensures r.Mined? <==> e < |elections|
      ensures r.Mined? ==> r.value == elections[e].candidates
      ensures r.Mined? ==> forall j :: 0 <= j < |r.value| ==>
        r.value[j].voteCount == |Voters(ballots, e, r.value[j].id)|
    {
      if e >= |elections| {
        return Reverted(NoSuchElection);
      }
      var cs := elections[e].candidates;
      forall j | 0 <= j < |cs| ensures cs[j].voteCount == |Voters(ballots, e, cs[j].id)| {
        CountIsDistinctVoters(ballots, e, cs[j].id);
      }
      r := Mined(cs);
    }
  }
}
