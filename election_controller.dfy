/** The election request handlers: create, list, read one, update, delete
    and close. Each is a chain of guards, then a ledger write, then a mirror
    write made only once the ledger receipt is good.

    The adminAuth middleware in front of create, update, delete and close is
    the first guard of those handlers. `receiptOk` says whether the ledger
    transaction was mined with a truthy status; when it is false the ledger
    is left as it was. */
module ElectionController {
  import opened Common
  import opened Js
  import Ledger
  import Mirror

  const Unauthorized: string := "Unauthorized"
  const NotAuthorized: string := "User not authorized"
  const InvalidDates: string := "Invalid dates provided"
  const ElectionNotFound: string := "Election not found"
  const TooEarlyToDelete: string := "Election cannot be deleted before its end date"
  const Closed: string := "Election closed successfully"
  /** The error ethers raises for a value a uint256 parameter cannot encode. */
  const InvalidArgument: string := "invalid BigNumberish value"

  /** The first numericId handed out after a server start. */
  const FirstNumericId: nat := 187580

  /** The module-level nextNumericId counter. */
  class NumericIdCounter {
    var next: nat

    /** The counter starts at FirstNumericId and only goes up. */
    ghost predicate Valid()
      reads this
    {
      next >= FirstNumericId
    }

    constructor ()
      ensures Valid() && next == FirstNumericId
    {
      next := FirstNumericId;
    }

    /** getNextNumericId: the current value; the counter moves one up. */
    method Take() returns (id: nat)
      requires Valid()
      modifies this
      ensures Valid() && id == old(next) && next == id + 1
    {
      id := next;
      next := next + 1;
    }
  }

  /** Server state in which every election created since the start took one
      counter value: the counter is FirstNumericId ahead of the ledger. */
  ghost predicate InLockstep(counter: NumericIdCounter, ledger: Ledger.VotingContract)
    reads counter, ledger
  {
    counter.next == FirstNumericId + |ledger.elections|
  }

  /** The first two values a fresh counter hands out: FirstNumericId, then
      the next integer. */
  method TwoIds() returns (first: nat, second: nat)
    ensures first == FirstNumericId && second == first + 1
  {
    var counter := new NumericIdCounter();
    first := counter.Take();
    second := counter.Take();
  }

  // ---------------------------------------------------------------------------
  // Reading elections

  datatype CandidateDto = CandidateDto(candidateId: string, name: string)

  /** One element of the getElections response; dates are in milliseconds. */
  datatype ElectionDto = ElectionDto(
    electionId: string,
    title: string,
    description: string,
    startDate: int,
    endDate: int,
    isActive: bool,
    candidates: seq<CandidateDto>)

  /** An election whose start and end are both non-zero, the check the read
      handlers make before building a DTO. */
  predicate Complete(info: Ledger.ElectionInfo)
  {
    info.startDate != 0 && info.endDate != 0
  }

  function CandidateDtoOf(c: Ledger.Candidate): CandidateDto
  {
    CandidateDto(Show(c.id), c.name)
  }

  function CandidateDtos(cs: seq<Ledger.Candidate>): (r: seq<CandidateDto>)
    ensures |r| == |cs|
  {
    seq(|cs|, j requires 0 <= j < |cs| => CandidateDtoOf(cs[j]))
  }

  function DtoOf(info: Ledger.ElectionInfo, candidates: seq<CandidateDto>): ElectionDto
  {
    ElectionDto(Show(info.index), info.title, info.description,
                info.startDate * 1000, info.endDate * 1000, info.isActive, candidates)
  }

  /** The DTO of election i: its candidates, or none when reading them failed. */
  function ElectionDtoAt(ledger: Ledger.VotingContract, i: nat, candidatesFail: bool): ElectionDto
    reads ledger
    requires i < |ledger.elections|
  {
    DtoOf(Ledger.Info(ledger.elections[i]),
          if candidatesFail then [] else CandidateDtos(ledger.elections[i].candidates))
  }

  function IncompleteMsg(id: string): string
  {
    "Election details for ID " + id + " are incomplete"
  }

  /** The loop over one election's candidate list. */
  method CollectCandidates(cs: seq<Ledger.Candidate>) returns (out: seq<CandidateDto>)
    ensures |out| == |cs|
    ensures forall j :: 0 <= j < |cs| ==> out[j] == CandidateDto(Show(cs[j].id), cs[j].name)
  {
    out := [];
    for j := 0 to |cs|
      invariant |out| == j
      invariant forall k :: 0 <= k < j ==> out[k] == CandidateDto(Show(cs[k].id), cs[k].name)
    {
      out := out + [CandidateDto(Show(cs[j].id), cs[j].name)];
    }
  }

  /** getElections: one entry per ledger index, in index order; the call
      fails as a whole at the first election without a start or an end.
      `candidatesFail` holds the indices whose candidate read fails; those
      elections are listed with no candidates. */
  method GetElections(ledger: Ledger.VotingContract, candidatesFail: set<nat>)
    returns (r: Result<seq<ElectionDto>>)
    requires ledger.Valid()
    ensures r.Ok? <==> forall i :: 0 <= i < |ledger.elections| ==> Complete(Ledger.Info(ledger.elections[i]))
    ensures r.Ok? ==>
      && |r.value| == |ledger.elections|
      && (forall i :: 0 <= i < |r.value| ==> r.value[i] == ElectionDtoAt(ledger, i, i in candidatesFail))
      && (forall i :: 0 <= i < |r.value| ==> r.value[i].electionId == Show(i))
    ensures r.Err? ==>
      exists i :: 0 <= i < |ledger.elections|
        && !Complete(Ledger.Info(ledger.elections[i]))
        && (forall k :: 0 <= k < i ==> Complete(Ledger.Info(ledger.elections[k])))
        && r == Err(500, IncompleteMsg(Show(i)))
  {
    var out: seq<ElectionDto> := [];
    var count := ledger.ElectionCount();
    for i := 0 to count
      invariant |out| == i
      invariant forall k :: 0 <= k < i ==> Complete(Ledger.Info(ledger.elections[k]))
      invariant forall k :: 0 <= k < i ==> out[k] == ElectionDtoAt(ledger, k, k in candidatesFail)
    {
      var info := ledger.GetElection(i).value;
      if !Complete(info) {
        return Err(500, IncompleteMsg(Show(i)));
      }
      var candidates: seq<CandidateDto> := [];
      if i !in candidatesFail {
        candidates := CollectCandidates(ledger.GetCandidates(i).value);
      }
      out := out + [DtoOf(info, candidates)];
    }
    r := Ok(out);
  }

  /** getElectionById: the id parameter goes through parseInt; NaN, a negative
      number or an index past the end is a 500, as is an incomplete election. */
  method GetElectionById(ledger: Ledger.VotingContract, idParam: string, candidatesFail: bool)
    returns (r: Result<ElectionDto>)
    requires ledger.Valid()
    ensures r.Ok? <==>
      && ParseInt(idParam).Some?
      && 0 <= ParseInt(idParam).value < |ledger.elections|
      && Complete(Ledger.Info(ledger.elections[ParseInt(idParam).value]))
    ensures r.Ok? ==>
      && r.value == ElectionDtoAt(ledger, ParseInt(idParam).value, candidatesFail)
      && r.value.electionId == Show(ParseInt(idParam).value)
    ensures r.Err? ==> r.status == 500
  {
    var id := ParseInt(idParam);
    if id.None? || id.value < 0 {
      return Err(500, InvalidArgument);
    }
    var read := ledger.GetElection(id.value);
    if read.Reverted? {
      return Err(500, read.reason);
    }
    if !Complete(read.value) {
      return Err(500, IncompleteMsg(Show(id.value)));
    }
    var candidates: seq<CandidateDto> := [];
    if !candidatesFail {
      candidates := CollectCandidates(ledger.GetCandidates(id.value).value);
    }
    r := Ok(DtoOf(read.value, candidates));
  }

  // ---------------------------------------------------------------------------
  // Creating an election

  /** createElection as written. The dates are the Unix seconds moment-timezone
      produced, None for an invalid date (NaN, which ethers refuses). After the
      receipt the handler takes a counter value and reads elections(numericId)
      back: `getterReverts` says whether that public getter reverts for an
      index past the end (an array) or returns a zeroed record (a mapping).
      The mirror row gets the counter value as its numericId. */
  method CreateElection(
    ledger: Ledger.VotingContract, db: Mirror.Database, counter: NumericIdCounter,
    requester: Principal, title: string, description: string,
    startDate: Option<int>, endDate: Option<int>, receiptOk: bool, getterReverts: bool)
    returns (r: Result<Mirror.DocId>)
    requires ledger.Valid() && db.Valid() && counter.Valid()
    modifies ledger, db, counter
    ensures ledger.Valid() && db.Valid() && counter.Valid()
    ensures !IsAdmin(requester) ==> r == Err(403, Unauthorized)
    ensures IsAdmin(requester) && r.Err? ==> r.status == 500
    ensures r.Ok? <==>
      && IsAdmin(requester) && ValidTimestamps(startDate, endDate) && receiptOk
      && !(getterReverts && old(counter.next) >= |old(ledger.elections)| + 1)
      && Mirror.RequiredPresent(RowDoc(title, description, startDate, endDate, requester, old(counter.next)))
      && !Mirror.NumericIdTaken(old(db.elections), old(counter.next))
    // the ledger write happens exactly when the guards and the receipt pass
    ensures IsAdmin(requester) && ValidTimestamps(startDate, endDate) && receiptOk ==>
      && ledger.elections == old(ledger.elections) + [Ledger.Election(|old(ledger.elections)|, title, description,
           startDate.value as nat, endDate.value as nat, true, [], 0)]
      && counter.next == old(counter.next) + 1
    ensures !(IsAdmin(requester) && ValidTimestamps(startDate, endDate) && receiptOk) ==>
      ledger.elections == old(ledger.elections) && counter.next == old(counter.next)
    ensures r.Ok? ==> db.elections == old(db.elections)[r.value := Mirror.RowOf(
      RowDoc(title, description, startDate, endDate, requester, old(counter.next)), old(counter.next))]
    ensures r.Err? ==> db.elections == old(db.elections)
    ensures old(InLockstep(counter, ledger)) ==> InLockstep(counter, ledger)
    ensures r.Ok? && old(InLockstep(counter, ledger)) ==>
      r.value in db.elections && db.elections[r.value].numericId == FirstNumericId + |ledger.elections| - 1
    ensures ledger.hasVoted == old(ledger.hasVoted) && ledger.ballots == old(ledger.ballots)
    ensures db.candidates == old(db.candidates) && db.snapshots == old(db.snapshots)
  {
    if !IsAdmin(requester) {
      return Err(403, Unauthorized);
    }
    if !ValidTimestamps(startDate, endDate) {
      return Err(500, InvalidArgument);
    }
    if !receiptOk {
      return Err(500, TxFailed);
    }
    var index := ledger.CreateElection(title, description, startDate.value as nat, endDate.value as nat);
    var numericId := counter.Take();
    var details := ledger.GetElection(numericId);
    if getterReverts && details.Reverted? {
      return Err(500, details.reason);
    }
    var saved := db.SaveElection(RowDoc(title, description, startDate, endDate, requester, numericId));
    if saved.Err? {
      return Err(500, saved.msg);
    }
    r := Ok(saved.value);
  }

  /** Dates the ledger accepts: both given and not before 1970. */
  predicate ValidTimestamps(startDate: Option<int>, endDate: Option<int>)
  {
    startDate.Some? && endDate.Some? && startDate.value >= 0 && endDate.value >= 0
  }

  /** The document createElection hands to save(). */
  function RowDoc(title: string, description: string, startDate: Option<int>, endDate: Option<int>,
                  requester: Principal, numericId: int): Mirror.ElectionDoc
    requires ValidTimestamps(startDate, endDate)
  {
    Mirror.ElectionDoc(Some(numericId), title, description, startDate.value as nat, endDate.value as nat,
                       requester.id, ReceiptHash)
  }

  /** createElection with the mirror keyed by the ledger index, so that
      updateElection and deleteElection, which address the ledger by
      numericId, reach it: numericId is the index createElection returned,
      and the row is stored without the pre-save hook, which would renumber
      index 0. */
  method CreateElectionReconciled(
    ledger: Ledger.VotingContract, db: Mirror.Database,
    requester: Principal, title: string, description: string,
    startDate: Option<int>, endDate: Option<int>, receiptOk: bool)
    returns (r: Result<Mirror.DocId>)
    requires ledger.Valid() && db.Valid()
    modifies ledger, db
    ensures ledger.Valid() && db.Valid()
    ensures !IsAdmin(requester) ==> r == Err(403, Unauthorized)
    ensures r.Ok? <==>
      && IsAdmin(requester) && ValidTimestamps(startDate, endDate) && receiptOk
      && Mirror.RequiredPresent(RowDoc(title, description, startDate, endDate, requester, |old(ledger.elections)|))
      && !Mirror.NumericIdTaken(old(db.elections), |old(ledger.elections)|)
    ensures IsAdmin(requester) && ValidTimestamps(startDate, endDate) && receiptOk ==>
      ledger.elections == old(ledger.elections) + [Ledger.Election(|old(ledger.elections)|, title, description,
           startDate.value as nat, endDate.value as nat, true, [], 0)]
    ensures !(IsAdmin(requester) && ValidTimestamps(startDate, endDate) && receiptOk) ==>
      ledger.elections == old(ledger.elections)
    // the row's numericId is the ledger index of the election just created
    ensures r.Ok? ==>
      && r.value in db.elections
      && db.elections[r.value].numericId == |ledger.elections| - 1
      && ledger.elections[db.elections[r.value].numericId].title == db.elections[r.value].title
      && db.elections == old(db.elections)[r.value := Mirror.RowOf(
           RowDoc(title, description, startDate, endDate, requester, |old(ledger.elections)|),
           |old(ledger.elections)|)]
    ensures r.Err? ==> db.elections == old(db.elections)
    ensures ledger.hasVoted == old(ledger.hasVoted) && ledger.ballots == old(ledger.ballots)
    ensures db.candidates == old(db.candidates) && db.snapshots == old(db.snapshots)
  {
    if !IsAdmin(requester) {
      return Err(403, Unauthorized);
    }
    if !ValidTimestamps(startDate, endDate) {
      return Err(500, InvalidArgument);
    }
    if !receiptOk {
      return Err(500, TxFailed);
    }
    var index := ledger.CreateElection(title, description, startDate.value as nat, endDate.value as nat);
    var saved := db.InsertElection(RowDoc(title, description, startDate, endDate, requester, index));
    if saved.Err? {
      return Err(500, saved.msg);
    }
    r := Ok(saved.value);
  }

  // ---------------------------------------------------------------------------
  // Updating, deleting and closing

  /** The date check of updateElection: both dates valid and end after start. */
  predicate DatesInOrder(startDate: Option<int>, endDate: Option<int>)
  {
    startDate.Some? && endDate.Some? && endDate.value > startDate.value
  }

  /** The row after a successful update: only title, description, dates and
      the transaction hash field are assigned, the last from the receipt's
      undefined transactionHash, so no hash is left stored. */
  function Updated(row: Mirror.ElectionRow, title: string, description: string,
                   startDate: nat, endDate: nat): Mirror.ElectionRow
  {
    row.(title := title, description := description, startDate := startDate, endDate := endDate, txHash := ReceiptHash)
  }

  /** The guards of updateElection pass and the ledger accepts the update at
      the row's numericId, so the transaction is sent. */
  ghost predicate UpdateSent(
    ledgerBefore: seq<Ledger.Election>, rowsBefore: map<Mirror.DocId, Mirror.ElectionRow>,
    requester: Principal, docId: Mirror.DocId, startDate: Option<int>, endDate: Option<int>)
  {
    && IsAdmin(requester) && DatesInOrder(startDate, endDate) && docId in rowsBefore
    && rowsBefore[docId].createdBy == requester.id
    && 0 <= startDate.value
    && 0 <= rowsBefore[docId].numericId < |ledgerBefore|
  }

  /** updateElection: 403 for a non-admin, then 400 for bad dates, 404 for a
      missing row, 403 for a requester other than the creator, all before the
      ledger; then the ledger update at the row's numericId, and the mirror
      row is rewritten only after a good receipt. */
  method UpdateElection(
    ledger: Ledger.VotingContract, db: Mirror.Database, requester: Principal, docId: Mirror.DocId,
    title: string, description: string, startDate: Option<int>, endDate: Option<int>,
    receiptOk: bool)
    returns (r: Result<Mirror.ElectionRow>)
    requires ledger.Valid() && db.Valid()
    modifies ledger, db
    ensures ledger.Valid() && db.Valid()
    ensures !IsAdmin(requester) ==> r == Err(403, Unauthorized)
    ensures IsAdmin(requester) && !DatesInOrder(startDate, endDate) ==> r == Err(400, InvalidDates)
    ensures IsAdmin(requester) && DatesInOrder(startDate, endDate) && docId !in old(db.elections) ==>
      r == Err(404, ElectionNotFound)
    ensures IsAdmin(requester) && DatesInOrder(startDate, endDate) && docId in old(db.elections)
      && old(db.elections[docId].createdBy) != requester.id
      ==> r == Err(403, NotAuthorized)
    ensures UpdateSent(old(ledger.elections), old(db.elections), requester, docId, startDate, endDate) && receiptOk
      ==> var n := old(db.elections[docId].numericId);
          ledger.elections == old(ledger.elections)[n := old(ledger.elections[n]).(
            title := title, description := description,
            startDate := startDate.value as nat, endDate := endDate.value as nat)]
    ensures !(UpdateSent(old(ledger.elections), old(db.elections), requester, docId, startDate, endDate) && receiptOk)
      ==> ledger.elections == old(ledger.elections)
    ensures IsAdmin(requester) && DatesInOrder(startDate, endDate) && docId in old(db.elections)
      && old(db.elections[docId].createdBy) == requester.id
      && 0 <= startDate.value && old(db.elections[docId].numericId) >= |old(ledger.elections)|
      ==> r == Err(500, Ledger.NoSuchElection)
    ensures r.Ok? <==>
      UpdateSent(old(ledger.elections), old(db.elections), requester, docId, startDate, endDate)
      && receiptOk && title != "" && description != ""
    ensures r.Ok? ==>
      && r.value == Updated(old(db.elections[docId]), title, description,
                            startDate.value as nat, endDate.value as nat)
      && db.elections == old(db.elections)[docId := r.value]
    ensures r.Err? ==> db.elections == old(db.elections)
    ensures ledger.hasVoted == old(ledger.hasVoted) && ledger.ballots == old(ledger.ballots)
    ensures db.candidates == old(db.candidates) && db.snapshots == old(db.snapshots)
  {
    if !IsAdmin(requester) {
      return Err(403, Unauthorized);
    }
    if !DatesInOrder(startDate, endDate) {
      return Err(400, InvalidDates);
    }
    if docId !in db.elections {
      return Err(404, ElectionNotFound);
    }
    var row := db.elections[docId];
    if row.createdBy != requester.id {
      return Err(403, NotAuthorized);
    }
    if row.numericId < 0 || startDate.value < 0 {
      return Err(500, InvalidArgument);
    }
    if !receiptOk {
      if row.numericId >= |ledger.elections| {
        return Err(500, Ledger.NoSuchElection);
      }
      return Err(500, TxFailed);
    }
    var tx := ledger.UpdateElection(row.numericId, title, description, startDate.value as nat, endDate.value as nat);
    if tx.Reverted? {
      return Err(500, tx.reason);
    }
    var updated := Updated(row, title, description, startDate.value as nat, endDate.value as nat);
    var saved := db.ReplaceElection(docId, updated);
    if saved.Err? {
      return Err(500, saved.msg);
    }
    r := Ok(updated);
  }

  /** The deletion guard as written: `currentTime < election.endDate`
      compares seconds with a Date, which converts to milliseconds. */
  predicate DeleteTooEarlyAsWritten(nowSeconds: int, endDateSeconds: nat)
  {
    nowSeconds < endDateSeconds * 1000
  }

  /** The deletion guard with both sides in seconds. */
  predicate DeleteTooEarly(nowSeconds: int, endDateSeconds: nat)
  {
    nowSeconds < endDateSeconds
  }

  /** deleteElection as written: the guard refuses until the current time in
      seconds reaches the end date's value in milliseconds. */
  method DeleteElection(
    ledger: Ledger.VotingContract, db: Mirror.Database, requester: Principal, docId: Mirror.DocId,
    nowSeconds: int, receiptOk: bool)
    returns (r: Result<()>)
    requires ledger.Valid() && db.Valid()
    modifies ledger, db
    ensures ledger.Valid() && db.Valid()
    ensures IsAdmin(requester) && docId in old(db.elections) && old(db.elections[docId].createdBy) == requester.id
      && DeleteTooEarlyAsWritten(nowSeconds, old(db.elections[docId].endDate))
      ==> r == Err(400, TooEarlyToDelete)
    ensures r.Ok? <==>
      && IsAdmin(requester) && docId in old(db.elections) && old(db.elections[docId].createdBy) == requester.id
      && !DeleteTooEarlyAsWritten(nowSeconds, old(db.elections[docId].endDate))
      && 0 <= old(db.elections[docId].numericId) < |old(ledger.elections)| && receiptOk
    ensures DeleteOutcome(r, old(ledger.elections), ledger.elections, old(db.elections), db.elections,
                          requester, docId)
    ensures ledger.hasVoted == old(ledger.hasVoted) && ledger.ballots == old(ledger.ballots)
    ensures db.candidates == old(db.candidates) && db.snapshots == old(db.snapshots)
  {
    if !IsAdmin(requester) {
      return Err(403, Unauthorized);
    }
    if docId !in db.elections {
      return Err(404, ElectionNotFound);
    }
    if db.elections[docId].createdBy != requester.id {
      return Err(403, NotAuthorized);
    }
    if DeleteTooEarlyAsWritten(nowSeconds, db.elections[docId].endDate) {
      return Err(400, TooEarlyToDelete);
    }
    r := DeleteOnLedgerThenMirror(ledger, db, docId, receiptOk);
  }

  /** deleteElection with the guard in seconds on both sides. */
  method DeleteElectionIntended(
    ledger: Ledger.VotingContract, db: Mirror.Database, requester: Principal, docId: Mirror.DocId,
    nowSeconds: int, receiptOk: bool)
    returns (r: Result<()>)
    requires ledger.Valid() && db.Valid()
    modifies ledger, db
    ensures ledger.Valid() && db.Valid()
    ensures IsAdmin(requester) && docId in old(db.elections) && old(db.elections[docId].createdBy) == requester.id
      && nowSeconds < old(db.elections[docId].endDate)
      ==> r == Err(400, TooEarlyToDelete)
    ensures r.Ok? <==>
      && IsAdmin(requester) && docId in old(db.elections) && old(db.elections[docId].createdBy) == requester.id
      && old(db.elections[docId].endDate) <= nowSeconds
      && 0 <= old(db.elections[docId].numericId) < |old(ledger.elections)| && receiptOk
    ensures DeleteOutcome(r, old(ledger.elections), ledger.elections, old(db.elections), db.elections,
                          requester, docId)
    ensures ledger.hasVoted == old(ledger.hasVoted) && ledger.ballots == old(ledger.ballots)
    ensures db.candidates == old(db.candidates) && db.snapshots == old(db.snapshots)
  {
    if !IsAdmin(requester) {
      return Err(403, Unauthorized);
    }
    if docId !in db.elections {
      return Err(404, ElectionNotFound);
    }
    if db.elections[docId].createdBy != requester.id {
      return Err(403, NotAuthorized);
    }
    if DeleteTooEarly(nowSeconds, db.elections[docId].endDate) {
      return Err(400, TooEarlyToDelete);
    }
    r := DeleteOnLedgerThenMirror(ledger, db, docId, receiptOk);
  }

  /** What a delete leaves behind: on success the ledger election is zeroed at
      the row's numericId and the row is gone; on any failure, whether a
      guard's 403, 404 or 400 or a refused ledger transaction's 500, the
      ledger and the mirror are untouched. */
  ghost predicate DeleteOutcome(
    r: Result<()>, ledgerBefore: seq<Ledger.Election>, ledgerAfter: seq<Ledger.Election>,
    rowsBefore: map<Mirror.DocId, Mirror.ElectionRow>, rowsAfter: map<Mirror.DocId, Mirror.ElectionRow>,
    requester: Principal, docId: Mirror.DocId)
  {
    && (!IsAdmin(requester) ==> r == Err(403, Unauthorized))
    && (IsAdmin(requester) && docId !in rowsBefore ==> r == Err(404, ElectionNotFound))
    && (IsAdmin(requester) && docId in rowsBefore && rowsBefore[docId].createdBy != requester.id ==>
          r == Err(403, NotAuthorized))
    && (r.Ok? ==>
          docId in rowsBefore && 0 <= rowsBefore[docId].numericId < |ledgerBefore|
          && ledgerAfter == ledgerBefore[rowsBefore[docId].numericId := ledgerBefore[rowsBefore[docId].numericId].(
               title := "", description := "", startDate := 0, endDate := 0, isActive := false)]
          && rowsAfter == rowsBefore - {docId})
    && (r.Err? ==> rowsAfter == rowsBefore && ledgerAfter == ledgerBefore)
  }

  /** The tail shared by both deletes: the ledger delete at the row's
      numericId, then, after a good receipt, the mirror delete. */
  method DeleteOnLedgerThenMirror(ledger: Ledger.VotingContract, db: Mirror.Database, docId: Mirror.DocId,
                                  receiptOk: bool)
    returns (r: Result<()>)
    requires ledger.Valid() && db.Valid() && docId in db.elections
    modifies ledger, db
    ensures ledger.Valid() && db.Valid()
    ensures r.Ok? <==> 0 <= old(db.elections[docId].numericId) < |old(ledger.elections)| && receiptOk
    ensures r.Err? ==> r.status == 500 && db.elections == old(db.elections) && ledger.elections == old(ledger.elections)
    ensures r.Ok? ==>
      var n := old(db.elections[docId].numericId);
      && ledger.elections == old(ledger.elections)[n := old(ledger.elections[n]).(
           title := "", description := "", startDate := 0, endDate := 0, isActive := false)]
      && db.elections == old(db.elections) - {docId}
    ensures ledger.hasVoted == old(ledger.hasVoted) && ledger.ballots == old(ledger.ballots)
    ensures db.candidates == old(db.candidates) && db.snapshots == old(db.snapshots)
  {
    var n := db.elections[docId].numericId;
    if n < 0 {
      return Err(500, InvalidArgument);
    }
    if n >= |ledger.elections| {
      return Err(500, Ledger.NoSuchElection);
    }
    if !receiptOk {
      return Err(500, TxFailed);
    }
    var tx := ledger.DeleteElection(n);
    db.DeleteElection(docId);
    r := Ok(());
  }

  /** closeElection: the id parameter is passed to the contract as it is (a
      decimal string); the election is closed whatever its status. */
  method CloseElection(ledger: Ledger.VotingContract, requester: Principal, idParam: string, receiptOk: bool)
    returns (r: Result<string>)
    requires ledger.Valid()
    modifies ledger
    ensures ledger.Valid()
    ensures !IsAdmin(requester) ==> r == Err(403, Unauthorized)
    ensures r.Ok? <==>
      IsAdmin(requester) && ParseDecimal(idParam).Some? && ParseDecimal(idParam).value < |old(ledger.elections)| && receiptOk
    ensures r.Ok? ==>
      && r.value == Closed
      && var e := ParseDecimal(idParam).value;
         ledger.elections == old(ledger.elections)[e := old(ledger.elections[e]).(isActive := false)]
    ensures r.Err? ==> ledger.elections == old(ledger.elections)
    ensures ledger.hasVoted == old(ledger.hasVoted) && ledger.ballots == old(ledger.ballots)
  {
    if !IsAdmin(requester) {
      return Err(403, Unauthorized);
    }
    var id := ParseDecimal(idParam);
    if id.None? {
      return Err(500, InvalidArgument);
    }
    if id.value >= |ledger.elections| {
      return Err(500, Ledger.NoSuchElection);
    }
    if !receiptOk {
      return Err(500, TxFailed);
    }
    var tx := ledger.CloseElection(id.value);
    r := Ok(Closed);
  }

  // ---------------------------------------------------------------------------
  // The numericId against the ledger index, on a freshly started server

  /** As written, with an elections getter that reverts past the end: the
      ledger gains election 0, the read-back at 187580 reverts, the mirror
      stays empty and the request fails. */
  method CreateWithArrayGetter(admin: Principal, startDate: nat)
    returns (created: Result<Mirror.DocId>, ledgerCount: nat, rowCount: nat)
    requires IsAdmin(admin)
    ensures created.Err? && created.status == 500
    ensures ledgerCount == 1 && rowCount == 0
  {
    var ledger := new Ledger.VotingContract();
    var db := new Mirror.Database();
    var counter := new NumericIdCounter();
    created := CreateElection(ledger, db, counter, admin, "Election 1", "Description of Election 1",
                              Some(startDate), Some(startDate + 3600), true, true);
    ledgerCount := |ledger.elections|;
    rowCount := |db.elections|;
  }

  /** As written, with an elections getter that returns a zeroed record: the
      row is saved under numericId 187580, and updating it sends the ledger
      update to index 187580, which does not exist; election 0 keeps its
      title. */
  method CreateThenUpdateWithMappingGetter(admin: Principal, startDate: nat)
    returns (created: Result<Mirror.DocId>, numericId: int, updated: Result<Mirror.ElectionRow>, ledgerTitle: string)
    requires IsAdmin(admin)
    ensures created.Ok? && numericId == FirstNumericId
    ensures updated == Err(500, Ledger.NoSuchElection)
    ensures ledgerTitle == "Election 1"
  {
    var ledger := new Ledger.VotingContract();
    var db := new Mirror.Database();
    var counter := new NumericIdCounter();
    created := CreateElection(ledger, db, counter, admin, "Election 1", "Description of Election 1",
                              Some(startDate), Some(startDate + 3600), true, false);
    numericId := db.elections[created.value].numericId;
    updated := UpdateElection(ledger, db, admin, created.value, "Election 2", "Moved by an hour",
                              Some(startDate + 3600), Some(startDate + 7200), true);
    ledgerTitle := ledger.elections[0].title;
  }

  /** The pre-save hook alone would not reconcile the two: a first election
      saved with the ledger index 0 as its numericId is stored as 1. */
  method HookRenumbersIndexZero(admin: Principal, startDate: nat) returns (numericId: int)
    ensures numericId == 1
  {
    var db := new Mirror.Database();
    var saved := db.SaveElection(Mirror.ElectionDoc(Some(0), "Election 1", "Description of Election 1",
                                                     startDate, startDate + 3600, admin.id, None));
    numericId := db.elections[saved.value].numericId;
  }

  /** With the row keyed by the ledger index, the same create-then-update
      reaches election 0 on the ledger and the mirror row follows it. */
  method CreateThenUpdateReconciled(admin: Principal, startDate: nat)
    returns (created: Result<Mirror.DocId>, numericId: int, updated: Result<Mirror.ElectionRow>, ledgerTitle: string)
    requires IsAdmin(admin)
    ensures created.Ok? && numericId == 0
    ensures updated.Ok? && updated.value.title == "Election 2"
    ensures ledgerTitle == "Election 2"
  {
    var ledger := new Ledger.VotingContract();
    var db := new Mirror.Database();
    created := CreateElectionReconciled(ledger, db, admin, "Election 1", "Description of Election 1",
                                        Some(startDate), Some(startDate + 3600), true);
    numericId := db.elections[created.value].numericId;
    updated := UpdateElection(ledger, db, admin, created.value, "Election 2", "Moved by an hour",
                              Some(startDate + 3600), Some(startDate + 7200), true);
    ledgerTitle := ledger.elections[0].title;
  }

  // ---------------------------------------------------------------------------
  // The deletion guard

  /** As written, an election that ended an hour ago cannot be deleted: its
      end date in milliseconds is still ahead of the time in seconds. */
  lemma DeleteRefusedAfterEnd(endDate: nat, nowSeconds: int)
    requires 0 < endDate <= nowSeconds < endDate * 1000
    ensures DeleteTooEarlyAsWritten(nowSeconds, endDate)
    ensures !DeleteTooEarly(nowSeconds, endDate)
  {
  }

  /** With an end date of 1 700 000 000 (November 2023) the written guard
      refuses every deletion before the time in seconds reaches
      1 700 000 000 000, some fifty thousand years later. */
  lemma DeleteRefusedForMillennia()
    ensures DeleteTooEarlyAsWritten(1700000000 + 3600, 1700000000)
    ensures !DeleteTooEarly(1700000000 + 3600, 1700000000)
    ensures !DeleteTooEarlyAsWritten(1700000000000, 1700000000)
  {
  }
}
