/** The tally request handler: results are served, and a snapshot of them
    stored, only once the election is closed and its end date has passed. */
module ResultController {
  import opened Common
  import opened Js
  import Ledger
  import Mirror

  const MissingId: string := "Election ID is missing"
  const StillOpen: string := "Election is still active or voting has not ended yet"
  /** The SyntaxError BigInt raises for a string that is not an integer. */
  const NotAnInteger: string := "Cannot convert to a BigInt"

  /** The response: the election's title and dates (decimal strings of Unix
      seconds) and the results object. */
  datatype Tally = Tally(title: string, startDate: string, endDate: string, results: Mirror.ResultsMap)

  /** The gate: results only for an election that is closed and whose end
      date lies strictly in the past. */
  predicate ResultsAvailable(info: Ledger.ElectionInfo, nowSeconds: nat)
  {
    !info.isActive && nowSeconds > info.endDate
  }

  function EntryOf(c: Ledger.Candidate): Mirror.ResultEntry
  {
    Mirror.ResultEntry(c.name, Show(c.voteCount))
  }

  /** The results object the forEach builds, candidate by candidate, a later
      candidate with the same key overwriting an earlier one. */
  function ResultsOf(cs: seq<Ledger.Candidate>): Mirror.ResultsMap
  {
    if cs == [] then map[]
    else ResultsOf(cs[..|cs| - 1])[Show(cs[|cs| - 1].id) := EntryOf(cs[|cs| - 1])]
  }

  /** The keys are exactly the candidate ids as decimal strings. */
  lemma {:induction false} ResultsKeys(cs: seq<Ledger.Candidate>)
    ensures ResultsOf(cs).Keys == set c | c in cs :: Show(c.id)
  {
    if cs != [] {
      var front := cs[..|cs| - 1];
      ResultsKeys(front);
      assert cs == front + [cs[|cs| - 1]];
    }
  }

  /** With distinct candidate ids every candidate keeps its own entry, holding
      its name and its count as a decimal string. */
  lemma {:induction false} ResultsEntries(cs: seq<Ledger.Candidate>)
    requires forall j, k :: 0 <= j < k < |cs| ==> cs[j].id != cs[k].id
    ensures forall j :: 0 <= j < |cs| ==>
      Show(cs[j].id) in ResultsOf(cs) && ResultsOf(cs)[Show(cs[j].id)] == EntryOf(cs[j])
  {
    if cs != [] {
      var front, last := cs[..|cs| - 1], cs[|cs| - 1];
      ResultsEntries(front);
      forall j | 0 <= j < |front|
        ensures Show(front[j].id) != Show(last.id)
      {
        ShowInjective(front[j].id, last.id);
      }
    }
  }

  /** The forEach loop that fills the results object. */
  method BuildResults(cs: seq<Ledger.Candidate>) returns (results: Mirror.ResultsMap)
    ensures results == ResultsOf(cs)
  {
    results := map[];
    for j := 0 to |cs|
      invariant results == ResultsOf(cs[..j])
    {
      assert cs[..j + 1][..j] == cs[..j];
      results := results[Show(cs[j].id) := EntryOf(cs[j])];
    }
    assert cs[..|cs|] == cs;
  }

  /** The upsert under key succeeds: the key already has its document, or
      no snapshot document exists yet. */
  predicate SnapshotFits(snapshots: map<string, Mirror.ResultsMap>, key: string)
  {
    key in snapshots || snapshots == map[]
  }

  /** tallyVotes: 400 for a missing id before the ledger is read; 400 with
      the gate's message while the election is active or not yet ended; then
      the ledger tally, the snapshot upsert under the id as given (a 500 when
      the unique numericId index refuses it), and the same results in the
      response. */
  method TallyVotes(ledger: Ledger.VotingContract, db: Mirror.Database, electionIdParam: string, nowSeconds: nat)
    returns (r: Result<Tally>)
    requires ledger.Valid() && db.Valid()
    modifies db
    ensures db.Valid()
    ensures electionIdParam == "" ==> r == Err(400, MissingId)
    ensures electionIdParam != "" && ParseDecimal(electionIdParam).None? ==> r == Err(500, NotAnInteger)
    ensures ParseDecimal(electionIdParam).Some? && ParseDecimal(electionIdParam).value >= |ledger.elections|
      ==> r == Err(500, Ledger.NoSuchElection)
    ensures ParseDecimal(electionIdParam).Some? && ParseDecimal(electionIdParam).value < |ledger.elections|
      && !ResultsAvailable(Ledger.Info(ledger.elections[ParseDecimal(electionIdParam).value]), nowSeconds)
      ==> r == Err(400, StillOpen)
    ensures ParseDecimal(electionIdParam).Some? && ParseDecimal(electionIdParam).value < |ledger.elections|
      && ResultsAvailable(Ledger.Info(ledger.elections[ParseDecimal(electionIdParam).value]), nowSeconds)
      && !SnapshotFits(old(db.snapshots), electionIdParam)
      ==> r == Err(500, Mirror.DuplicateKey)
    ensures r.Ok? <==>
      && ParseDecimal(electionIdParam).Some? && ParseDecimal(electionIdParam).value < |ledger.elections|
      && ResultsAvailable(Ledger.Info(ledger.elections[ParseDecimal(electionIdParam).value]), nowSeconds)
      && SnapshotFits(old(db.snapshots), electionIdParam)
    ensures r.Ok? ==>
      var e := ledger.elections[ParseDecimal(electionIdParam).value];
      && r.value == Tally(e.title, Show(e.startDate), Show(e.endDate), ResultsOf(e.candidates))
      && db.snapshots == old(db.snapshots)[electionIdParam := r.value.results]
      // each candidate's entry counts the distinct voters who chose it
      && (forall j :: 0 <= j < |e.candidates| ==>
            var c := e.candidates[j];
            Show(c.id) in r.value.results
            && r.value.results[Show(c.id)] == Mirror.ResultEntry(
                 c.name, Show(|Ledger.Voters(ledger.ballots, ParseDecimal(electionIdParam).value, c.id)|)))
    ensures r.Err? ==> db.snapshots == old(db.snapshots)
    ensures db.elections == old(db.elections) && db.candidates == old(db.candidates)
  {
    if electionIdParam == "" {
      return Err(400, MissingId);
    }
    var id := ParseDecimal(electionIdParam);
    if id.None? {
      return Err(500, NotAnInteger);
    }
    var read := ledger.GetElection(id.value);
    if read.Reverted? {
      return Err(500, read.reason);
    }
    var info := read.value;
    if !ResultsAvailable(info, nowSeconds) {
      return Err(400, StillOpen);
    }
    var tally := ledger.TallyVotes(id.value);
    var candidates := tally.value;
    var results := BuildResults(candidates);
    ResultsEntries(candidates);
    var saved := db.UpsertSnapshot(electionIdParam, results);
    if saved.Err? {
      return Err(500, saved.msg);
    }
    r := Ok(Tally(info.title, Show(info.startDate), Show(info.endDate), results));
  }

  /** Two tallies in a row on an unchanged ledger return the same results and
      leave the same snapshot as one. */
  method TallyTwice(ledger: Ledger.VotingContract, db: Mirror.Database, electionIdParam: string, nowSeconds: nat)
    returns (first: Result<Tally>, second: Result<Tally>)
    requires ledger.Valid() && db.Valid()
    modifies db
    ensures first == second
    ensures first.Ok? ==> db.snapshots == old(db.snapshots)[electionIdParam := first.value.results]
    ensures first.Err? ==> db.snapshots == old(db.snapshots)
  {
    first := TallyVotes(ledger, db, electionIdParam, nowSeconds);
    second := TallyVotes(ledger, db, electionIdParam, nowSeconds);
  }

  /** Two ended, closed elections on a fresh mirror: the first tally inserts
      its snapshot document, and the first tally of the other election is
      refused by the unique numericId index. */
  method SecondElectionTallyFails(startDate: nat)
    returns (first: Result<Tally>, second: Result<Tally>)
    ensures first.Ok? && first.value.title == "Election 1"
    ensures second == Err(500, Mirror.DuplicateKey)
  {
    var ledger := new Ledger.VotingContract();
    var _ := ledger.CreateElection("Election 1", "First", startDate, startDate + 3600);
    var _ := ledger.CreateElection("Election 2", "Second", startDate, startDate + 3600);
    var _ := ledger.CloseElection(0);
    var _ := ledger.CloseElection(1);
    var db := new Mirror.Database();
    ParseDecimalShow(0);
    ParseDecimalShow(1);
    assert Show(0) == "0" && Show(1) == "1";
    first := TallyVotes(ledger, db, "0", startDate + 7200);
    second := TallyVotes(ledger, db, "1", startDate + 7200);
  }
}
