/** The candidate request handlers: add, rename and remove a candidate, and
    list the candidates of every election. The election id in a route
    parameter is handed to the contract as a decimal string. */
module CandidateController {
  import opened Common
  import opened Js
  import Ledger
  import Mirror

  const NotActive: string := "Election is not active"
  const CandidateNotFound: string := "Candidate not found"
  const NoElections: string := "No elections found"
  const NoCandidates: string := "No candidates found"
  /** The error ethers raises for a string a uint256 parameter cannot encode. */
  const InvalidArgument: string := "invalid BigNumberish value"

  /** The election the parameter names exists and is active on the ledger. */
  predicate ActiveElection(elections: seq<Ledger.Election>, electionIdParam: string)
  {
    ParseDecimal(electionIdParam).Some? && ParseDecimal(electionIdParam).value < |elections|
    && elections[ParseDecimal(electionIdParam).value].isActive
  }

  /** The mirror document addCandidate saves; the transaction hash it passes
      is not a field of the schema, so strict mode drops it. */
  function CandidateRowOf(candidateId: nat, electionIdParam: string, name: string): Mirror.CandidateRow
  {
    Mirror.CandidateRow(Show(candidateId), name, None, electionIdParam, None)
  }

  /** addCandidate: 500 "Election is not active" before any transaction when
      the ledger reports the election inactive; the candidate id recorded in
      the mirror is the election's next candidate id read before the add. */
  method AddCandidate(
    ledger: Ledger.VotingContract, db: Mirror.Database, electionIdParam: string, name: string, receiptOk: bool)
    returns (r: Result<Mirror.CandidateRow>)
    requires ledger.Valid() && db.Valid()
    modifies ledger, db
    ensures ledger.Valid() && db.Valid()
    ensures ParseDecimal(electionIdParam).Some? && ParseDecimal(electionIdParam).value < |old(ledger.elections)|
      && !old(ledger.elections[ParseDecimal(electionIdParam).value].isActive)
      ==> r == Err(500, NotActive)
    ensures ActiveElection(old(ledger.elections), electionIdParam) && receiptOk ==>
      var e := ParseDecimal(electionIdParam).value;
      var before := old(ledger.elections[e]);
      ledger.elections == old(ledger.elections)[e := before.(
        candidates := before.candidates + [Ledger.Candidate(before.nextCandidateId, name, 0)],
        nextCandidateId := before.nextCandidateId + 1)]
    ensures !(ActiveElection(old(ledger.elections), electionIdParam) && receiptOk) ==>
      ledger.elections == old(ledger.elections)
    ensures r.Ok? <==>
      && ActiveElection(old(ledger.elections), electionIdParam) && receiptOk && name != ""
      && Show(old(ledger.elections[ParseDecimal(electionIdParam).value].nextCandidateId)) !in old(db.candidates)
    // an _id already in the mirror fails the save after the ledger append
    ensures ActiveElection(old(ledger.elections), electionIdParam) && receiptOk && name != ""
      && Show(old(ledger.elections[ParseDecimal(electionIdParam).value].nextCandidateId)) in old(db.candidates)
      ==> r == Err(500, Mirror.DuplicateKey)
    // the recorded id is the id the ledger gave the candidate it appended
    ensures r.Ok? ==>
      var cs := ledger.elections[ParseDecimal(electionIdParam).value].candidates;
      && cs != [] && cs[|cs| - 1].name == name
      && r.value == CandidateRowOf(cs[|cs| - 1].id, electionIdParam, name)
      && db.candidates == old(db.candidates)[r.value.id := r.value]
    ensures r.Err? ==> r.status == 500 && db.candidates == old(db.candidates)
    ensures ledger.hasVoted == old(ledger.hasVoted) && ledger.ballots == old(ledger.ballots)
    ensures db.elections == old(db.elections) && db.snapshots == old(db.snapshots)
  {
    var e := ParseDecimal(electionIdParam);
    if e.None? {
      return Err(500, InvalidArgument);
    }
    var read := ledger.GetElection(e.value);
    if read.Reverted? {
      return Err(500, read.reason);
    }
    if !read.value.isActive {
      return Err(500, NotActive);
    }
    var nextId := ledger.NextCandidateId(e.value).value;
    if !receiptOk {
      return Err(500, TxFailed);
    }
    var tx := ledger.AddCandidate(e.value, name);
    var row := CandidateRowOf(nextId, electionIdParam, name);
    var saved := db.SaveCandidate(row);
    if saved.Err? {
      return Err(500, saved.msg);
    }
    r := Ok(row);
  }

  /** updateCandidate: refused for an inactive election; after the ledger
      rename the mirror row with that _id gets the new name and nothing else
      (the transaction hash is not a schema field). The response carries the
      updated row, or null when the mirror has none. */
  method UpdateCandidate(
    ledger: Ledger.VotingContract, db: Mirror.Database, electionIdParam: string, candidateId: string,
    name: string, receiptOk: bool)
    returns (r: Result<Option<Mirror.CandidateRow>>)
    requires ledger.Valid() && db.Valid()
    modifies ledger, db
    ensures ledger.Valid() && db.Valid()
    ensures ParseDecimal(electionIdParam).Some? && ParseDecimal(electionIdParam).value < |old(ledger.elections)|
      && !old(ledger.elections[ParseDecimal(electionIdParam).value].isActive)
      ==> r == Err(500, NotActive)
    ensures r.Ok? <==>
      && ActiveElection(old(ledger.elections), electionIdParam)
      && ParseDecimal(candidateId).Some?
      && Ledger.HasCandidate(old(ledger.elections[ParseDecimal(electionIdParam).value].candidates),
                             ParseDecimal(candidateId).value)
      && receiptOk
    ensures r.Ok? ==>
      var e := ParseDecimal(electionIdParam).value;
      && ledger.elections == old(ledger.elections)[e := old(ledger.elections[e]).(
           candidates := Ledger.Rename(old(ledger.elections[e].candidates), ParseDecimal(candidateId).value, name))]
      && (r.value.Some? <==> candidateId in old(db.candidates))
      && (r.value.Some? ==> r.value.value == old(db.candidates[candidateId]).(name := name))
      && db.candidates == (if candidateId in old(db.candidates)
                           then old(db.candidates)[candidateId := old(db.candidates[candidateId]).(name := name)]
                           else old(db.candidates))
    ensures r.Err? ==> r.status == 500 && ledger.elections == old(ledger.elections) && db.candidates == old(db.candidates)
    ensures ledger.hasVoted == old(ledger.hasVoted) && ledger.ballots == old(ledger.ballots)
    ensures db.elections == old(db.elections) && db.snapshots == old(db.snapshots)
  {
    var e := ParseDecimal(electionIdParam);
    if e.None? {
      return Err(500, InvalidArgument);
    }
    var read := ledger.GetElection(e.value);
    if read.Reverted? {
      return Err(500, read.reason);
    }
    if !read.value.isActive {
      return Err(500, NotActive);
    }
    var c := ParseDecimal(candidateId);
    if c.None? {
      return Err(500, InvalidArgument);
    }
    if !Ledger.HasCandidate(ledger.elections[e.value].candidates, c.value) {
      return Err(500, Ledger.NoSuchCandidate);
    }
    if !receiptOk {
      return Err(500, TxFailed);
    }
    var tx := ledger.UpdateCandidate(e.value, c.value, name);
    var updated := db.RenameCandidate(candidateId, name);
    r := Ok(updated);
  }

  /** deleteCandidate: 404 when the mirror has no candidate with that _id;
      no check of the election's status; the ledger delete uses the election
      id stored on the mirror row, and the row is removed only afterwards. */
  method DeleteCandidate(ledger: Ledger.VotingContract, db: Mirror.Database, candidateId: string, receiptOk: bool)
    returns (r: Result<()>)
    requires ledger.Valid() && db.Valid()
    modifies ledger, db
    ensures ledger.Valid() && db.Valid()
    ensures candidateId !in old(db.candidates) ==> r == Err(404, CandidateNotFound)
    ensures r.Ok? <==>
      && candidateId in old(db.candidates)
      && var e := ParseDecimal(old(db.candidates[candidateId].electionId));
         var c := ParseDecimal(candidateId);
         && e.Some? && c.Some? && e.value < |old(ledger.elections)|
         && Ledger.HasCandidate(old(ledger.elections[e.value].candidates), c.value)
         && receiptOk
    ensures r.Ok? ==>
      var e := ParseDecimal(old(db.candidates[candidateId].electionId)).value;
      && ledger.elections == old(ledger.elections)[e := old(ledger.elections[e]).(
           candidates := Ledger.Without(old(ledger.elections[e].candidates), ParseDecimal(candidateId).value))]
      && db.candidates == old(db.candidates) - {candidateId}
    ensures r.Err? ==> ledger.elections == old(ledger.elections) && db.candidates == old(db.candidates)
    ensures ledger.hasVoted == old(ledger.hasVoted) && ledger.ballots == old(ledger.ballots)
    ensures db.elections == old(db.elections) && db.snapshots == old(db.snapshots)
  {
    if candidateId !in db.candidates {
      return Err(404, CandidateNotFound);
    }
    var e := ParseDecimal(db.candidates[candidateId].electionId);
    var c := ParseDecimal(candidateId);
    if e.None? || c.None? {
      return Err(500, InvalidArgument);
    }
    if e.value >= |ledger.elections| {
      return Err(500, Ledger.NoSuchElection);
    }
    if !Ledger.HasCandidate(ledger.elections[e.value].candidates, c.value) {
      return Err(500, Ledger.NoSuchCandidate);
    }
    if !receiptOk {
      return Err(500, TxFailed);
    }
    var tx := ledger.DeleteCandidate(e.value, c.value);
    db.DeleteCandidate(candidateId);
    r := Ok(());
  }

  // ---------------------------------------------------------------------------
  // Listing every candidate

  /** One element of the getCandidates response. */
  datatype CandidateEntry = CandidateEntry(
    id: nat, name: string, voteCount: nat, electionId: nat, electionTitle: string)

  function EntryOf(c: Ledger.Candidate, i: nat, title: string): CandidateEntry
  {
    CandidateEntry(c.id, c.name, c.voteCount, i, title)
  }

  /** The candidates of election i, each tagged with i and the election's title. */
  function Entries(cs: seq<Ledger.Candidate>, i: nat, title: string): (r: seq<CandidateEntry>)
    ensures |r| == |cs|
  {
    seq(|cs|, j requires 0 <= j < |cs| => EntryOf(cs[j], i, title))
  }

  /** The candidates of elections 0 .. n-1, election by election. */
  function Flatten(es: seq<Ledger.Election>, n: nat): seq<CandidateEntry>
    requires n <= |es|
  {
    if n == 0 then [] else Flatten(es, n - 1) + Entries(es[n - 1].candidates, n - 1, es[n - 1].title)
  }

  /** Number of candidates of elections 0 .. n-1. */
  function TotalCandidates(es: seq<Ledger.Election>, n: nat): nat
    requires n <= |es|
  {
    if n == 0 then 0 else TotalCandidates(es, n - 1) + |es[n - 1].candidates|
  }

  /** The flattened list is as long as all candidate lists together. */
  lemma {:induction false} FlattenLength(es: seq<Ledger.Election>, n: nat)
    requires n <= |es|
    ensures |Flatten(es, n)| == TotalCandidates(es, n)
  {
    if n > 0 {
      FlattenLength(es, n - 1);
    }
  }

  /** The flattened list is empty exactly when every election up to n has no
      candidate. */
  lemma {:induction false} FlattenEmpty(es: seq<Ledger.Election>, n: nat)
    requires n <= |es|
    ensures Flatten(es, n) == [] <==> forall i :: 0 <= i < n ==> es[i].candidates == []
  {
    if n > 0 {
      FlattenEmpty(es, n - 1);
    }
  }

  /** Every entry of the flattened list is a candidate of the election it
      names, tagged with that election's title. */
  lemma {:induction false} FlattenSound(es: seq<Ledger.Election>, n: nat)
    requires n <= |es|
    ensures forall x :: x in Flatten(es, n) ==>
      x.electionId < n && x.electionTitle == es[x.electionId].title
      && Ledger.Candidate(x.id, x.name, x.voteCount) in es[x.electionId].candidates
  {
    if n > 0 {
      FlattenSound(es, n - 1);
      var tail := Entries(es[n - 1].candidates, n - 1, es[n - 1].title);
      forall x | x in tail
        ensures x.electionId == n - 1 && Ledger.Candidate(x.id, x.name, x.voteCount) in es[n - 1].candidates
      {
        var j :| 0 <= j < |tail| && tail[j] == x;
        assert es[n - 1].candidates[j] == Ledger.Candidate(x.id, x.name, x.voteCount);
      }
    }
  }

  /** getCandidates: 404 with no elections, the flattened list otherwise, 404
      when that list is empty. */
  method GetCandidates(ledger: Ledger.VotingContract) returns (r: Result<seq<CandidateEntry>>)
    requires ledger.Valid()
    ensures |ledger.elections| == 0 ==> r == Err(404, NoElections)
    ensures |ledger.elections| > 0 && (forall i :: 0 <= i < |ledger.elections| ==> ledger.elections[i].candidates == [])
      ==> r == Err(404, NoCandidates)
    ensures r.Ok? <==> exists i :: 0 <= i < |ledger.elections| && ledger.elections[i].candidates != []
    ensures r.Ok? ==> r.value == Flatten(ledger.elections, |ledger.elections|)
    ensures r.Ok? ==> |r.value| == TotalCandidates(ledger.elections, |ledger.elections|)
  {
    var total := ledger.ElectionCount();
    if total == 0 {
      return Err(404, NoElections);
    }
    var all: seq<CandidateEntry> := [];
    for i := 0 to total
      invariant all == Flatten(ledger.elections, i)
    {
      var election := ledger.GetElection(i).value;
      var candidates := ledger.GetCandidates(i).value;
      all := all + Entries(candidates, i, election.title);
    }
    FlattenEmpty(ledger.elections, total);
    FlattenLength(ledger.elections, total);
    if |all| == 0 {
      return Err(404, NoCandidates);
    }
    r := Ok(all);
  }

  // ---------------------------------------------------------------------------
  // Candidate documents across elections

  /** The mirror keys a candidate by its per-election id alone: the first
      candidate of a second election gets the _id "0" the first election's
      first candidate already holds, so its save fails after the ledger has
      appended it. */
  method FirstCandidatesOfTwoElections(startDate: nat)
    returns (first: Result<Mirror.CandidateRow>, second: Result<Mirror.CandidateRow>, onLedger: nat)
    ensures first.Ok? && first.value.id == "0"
    ensures second == Err(500, Mirror.DuplicateKey)
    ensures onLedger == 1
  {
    var ledger := new Ledger.VotingContract();
    var db := new Mirror.Database();
    var e0 := ledger.CreateElection("Election 1", "First", startDate, startDate + 3600);
    var e1 := ledger.CreateElection("Election 2", "Second", startDate, startDate + 3600);
    ParseDecimalShow(0);
    ParseDecimalShow(1);
    assert Show(0) == "0" && Show(1) == "1";
    first := AddCandidate(ledger, db, "0", "Candidate 1", true);
    assert "0" in db.candidates && ledger.elections[1].nextCandidateId == 0;
    second := AddCandidate(ledger, db, "1", "Candidate 2", true);
    onLedger := |ledger.elections[1].candidates|;
  }
}
