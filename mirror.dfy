/** The off-chain document store that mirrors the ledger: the Election
    collection with its schema rules and its pre-save numericId hook, the
    Candidate collection, and the results snapshots written by the tally.

    Mongoose runs a document's schema validation as the first pre-save step,
    before the hooks a schema registers itself, so a `required` field that is
    absent fails validation before the numericId hook could fill it. */
module Mirror {
  import opened Common

  /** ObjectId of a stored document. */
  type DocId = nat

  datatype ResultEntry = ResultEntry(name: string, voteCount: string)

  /** A results object: candidate id (as a decimal string) to name and count. */
  type ResultsMap = map<string, ResultEntry>

  /** A stored Election document. Dates are Unix seconds; txHash is the
      blockchainTransactionHash field, None when it is not stored. */
  datatype ElectionRow = ElectionRow(
    numericId: int,
    title: string,
    description: string,
    startDate: nat,
    endDate: nat,
    createdBy: UserId,
    txHash: Option<string>,
    results: ResultsMap)

  /** An Election document as handed to save(); numericId is None when the
      field was not set. */
  datatype ElectionDoc = ElectionDoc(
    numericId: Option<int>,
    title: string,
    description: string,
    startDate: nat,
    endDate: nat,
    createdBy: UserId,
    txHash: Option<string>)

  /** A stored Candidate document; _id is the ledger candidate id as a string. */
  datatype CandidateRow = CandidateRow(
    id: string,
    name: string,
    party: Option<string>,
    electionId: string,
    blockchainId: Option<string>)

  const ValidationFailed: string := "Election validation failed"
  const CandidateValidationFailed: string := "Candidate validation failed"
  const DuplicateKey: string := "E11000 duplicate key error"

  /** The schema's required fields: numericId present, title and description
      non-empty (Mongoose's required check refuses the empty string). */
  predicate RequiredPresent(doc: ElectionDoc)
  {
    doc.numericId.Some? && doc.title != "" && doc.description != ""
  }

  /** v is the numericId of the election the hook's findOne().sort('-numericId') returns. */
  ghost predicate IsHighest(m: map<DocId, ElectionRow>, v: int)
  {
    && (exists d :: d in m && m[d].numericId == v)
    && (forall d :: d in m ==> m[d].numericId <= v)
  }

  ghost predicate UniqueNumericIds(m: map<DocId, ElectionRow>)
  {
    forall d1, d2 :: d1 in m && d2 in m && d1 != d2 ==> m[d1].numericId != m[d2].numericId
  }

  predicate NumericIdTaken(m: map<DocId, ElectionRow>, n: int)
  {
    exists d :: d in m && m[d].numericId == n
  }

  function RowOf(doc: ElectionDoc, numericId: int): ElectionRow
  {
    ElectionRow(numericId, doc.title, doc.description, doc.startDate, doc.endDate,
                doc.createdBy, doc.txHash, map[])
  }

  class Database {
    var elections: map<DocId, ElectionRow>
    var candidates: map<string, CandidateRow>
    /** The documents the tally's upsert inserts into the Election
        collection, keyed by the electionId the tally request named. None of
        them has a numericId. */
    var snapshots: map<string, ResultsMap>
    var nextDocId: DocId

    ghost predicate Valid()
      reads this
    {
      && (forall d :: d in elections ==> d < nextDocId)
      && UniqueNumericIds(elections)
      && (forall k :: k in candidates ==> candidates[k].id == k)
      // the unique, non-sparse numericId index admits one document without it
      && |snapshots| <= 1
    }

    constructor ()
      ensures Valid()
      ensures elections == map[] && candidates == map[] && snapshots == map[]
    {
      elections := map[];
      candidates := map[];
      snapshots := map[];
      nextDocId := 0;
    }

    /** findOne().sort('-numericId'): the highest numericId stored, None when
        the collection is empty. */
    method LastNumericId() returns (last: Option<int>)
      ensures last.None? <==> elections == map[]
      ensures last.Some? ==> IsHighest(elections, last.value)
    {
      var keys := elections.Keys;
      last := None;
      while keys != {}
        invariant keys <= elections.Keys
        invariant last.None? ==> keys == elections.Keys
        invariant last.Some? ==> exists d :: d in elections && elections[d].numericId == last.value
        invariant last.Some? ==> forall d :: d in elections && d !in keys ==> elections[d].numericId <= last.value
        decreases keys
      {
        var d :| d in keys;
        if last.None? || elections[d].numericId > last.value {
          last := Some(elections[d].numericId);
        }
        keys := keys - {d};
      }
      if last.None? {
        assert elections.Keys == {};
      }
    }

    /** new Election(doc).save(): schema validation, then the pre-save hook
        (a falsy numericId becomes the highest stored numericId + 1, or 1 in an
        empty collection), then the unique index on numericId. */
    method SaveElection(doc: ElectionDoc) returns (r: Result<DocId>)
      requires Valid()
      modifies this
      ensures Valid()
      ensures !RequiredPresent(doc) ==> r == Err(500, ValidationFailed)
      ensures RequiredPresent(doc) && doc.numericId.value != 0 ==>
        (r.Ok? <==> !NumericIdTaken(old(elections), doc.numericId.value))
      ensures RequiredPresent(doc) && doc.numericId.value == 0 ==> r.Ok?
      ensures r.Ok? ==>
        && r.value !in old(elections) && r.value in elections
        && elections == old(elections)[r.value := RowOf(doc, elections[r.value].numericId)]
      ensures r.Ok? && doc.numericId.value != 0 ==> elections[r.value].numericId == doc.numericId.value
      ensures r.Ok? && doc.numericId.value == 0 && old(elections) == map[] ==> elections[r.value].numericId == 1
      ensures r.Ok? && doc.numericId.value == 0 && old(elections) != map[] ==>
        IsHighest(old(elections), elections[r.value].numericId - 1)
      ensures r.Err? ==> elections == old(elections)
      ensures candidates == old(candidates) && snapshots == old(snapshots)
    {
      if !RequiredPresent(doc) {
        return Err(500, ValidationFailed);
      }
      var numericId := doc.numericId.value;
      if numericId == 0 {
        var last := LastNumericId();
        numericId := if last.Some? then last.value + 1 else 1;
      }
      if NumericIdTaken(elections, numericId) {
        return Err(500, DuplicateKey);
      }
      var d := nextDocId;
      elections := elections[d := RowOf(doc, numericId)];
      nextDocId := nextDocId + 1;
      r := Ok(d);
    }

    /** save() under a schema without the pre-save numericId hook: validation,
        then the unique index; the given numericId is stored as it is, 0
        included. */
    method InsertElection(doc: ElectionDoc) returns (r: Result<DocId>)
      requires Valid()
      modifies this
      ensures Valid()
      ensures r.Ok? <==> RequiredPresent(doc) && !NumericIdTaken(old(elections), doc.numericId.value)
      ensures r.Ok? ==>
        && r.value !in old(elections)
        && elections == old(elections)[r.value := RowOf(doc, doc.numericId.value)]
      ensures r.Err? ==> elections == old(elections)
      ensures candidates == old(candidates) && snapshots == old(snapshots)
    {
      if !RequiredPresent(doc) {
        return Err(500, ValidationFailed);
      }
      if NumericIdTaken(elections, doc.numericId.value) {
        return Err(500, DuplicateKey);
      }
      var d := nextDocId;
      elections := elections[d := RowOf(doc, doc.numericId.value)];
      nextDocId := nextDocId + 1;
      r := Ok(d);
    }

    /** election.save() on a stored document after its fields were assigned:
        validation of the required fields, then the write. */
    method ReplaceElection(d: DocId, row: ElectionRow) returns (r: Result<()>)
      requires Valid()
      requires d in elections && row.numericId == elections[d].numericId
      modifies this
      ensures Valid()
      ensures r.Ok? <==> row.title != "" && row.description != ""
      ensures r.Ok? ==> elections == old(elections)[d := row]
      ensures r.Err? ==> elections == old(elections)
      ensures candidates == old(candidates) && snapshots == old(snapshots)
    {
      if row.title == "" || row.description == "" {
        return Err(500, ValidationFailed);
      }
      elections := elections[d := row];
      r := Ok(());
    }

    /** Election.findByIdAndDelete(d). */
    method DeleteElection(d: DocId)
      requires Valid()
      modifies this
      ensures Valid()
      ensures elections == old(elections) - {d}
      ensures candidates == old(candidates) && snapshots == old(snapshots)
    {
      elections := elections - {d};
    }

    /** new Candidate(row).save(): required _id, name and electionId, then the
        unique _id index. */
    method SaveCandidate(row: CandidateRow) returns (r: Result<()>)
      requires Valid()
      modifies this
      ensures Valid()
      ensures r.Ok? <==> row.id != "" && row.name != "" && row.electionId != "" && row.id !in old(candidates)
      ensures row.id != "" && row.name != "" && row.electionId != "" && row.id in old(candidates) ==>
        r == Err(500, DuplicateKey)
      ensures r.Ok? ==> candidates == old(candidates)[row.id := row]
      ensures r.Err? ==> candidates == old(candidates)
      ensures elections == old(elections) && snapshots == old(snapshots)
    {
      if row.id == "" || row.name == "" || row.electionId == "" {
        return Err(500, CandidateValidationFailed);
      }
      if row.id in candidates {
        return Err(500, DuplicateKey);
      }
      candidates := candidates[row.id := row];
      r := Ok(());
    }

    /** Candidate.findByIdAndUpdate(id, { name }, { new: true }): the updated
        document, or None (null) when there is none; update validators do
        not run. */
    method RenameCandidate(id: string, name: string) returns (updated: Option<CandidateRow>)
      requires Valid()
      modifies this
      ensures Valid()
      ensures updated.Some? <==> id in old(candidates)
      ensures updated.Some? ==>
        && updated.value == old(candidates[id]).(name := name)
        && candidates == old(candidates)[id := updated.value]
      ensures updated.None? ==> candidates == old(candidates)
      ensures elections == old(elections) && snapshots == old(snapshots)
    {
      if id !in candidates {
        return None;
      }
      updated := Some(candidates[id].(name := name));
      candidates := candidates[id := updated.value];
    }

    /** Candidate.findByIdAndDelete(id). */
    method DeleteCandidate(id: string)
      requires Valid()
      modifies this
      ensures Valid()
      ensures candidates == old(candidates) - {id}
      ensures elections == old(elections) && snapshots == old(snapshots)
    {
      candidates := candidates - {id};
    }

    /** Election.findOneAndUpdate({ electionId }, { results }, { upsert: true })
        with strictQuery false, the default from Mongoose 7. The schema has no
        electionId, but the filter is kept, so it matches only a document an
        earlier upsert inserted; a match gets the new results. Otherwise a
        document holding electionId and results is inserted, without a
        numericId, which the unique index refuses once such a document
        exists. */
    method UpsertSnapshot(key: string, results: ResultsMap) returns (r: Result<()>)
      requires Valid()
      modifies this
      ensures Valid()
      ensures r.Ok? <==> key in old(snapshots) || old(snapshots) == map[]
      ensures r.Ok? ==> snapshots == old(snapshots)[key := results]
      ensures r.Err? ==> r == Err(500, DuplicateKey) && snapshots == old(snapshots)
      ensures elections == old(elections) && candidates == old(candidates)
    {
      if key !in snapshots && snapshots != map[] {
        return Err(500, DuplicateKey);
      }
      snapshots := snapshots[key := results];
      r := Ok(());
    }
  }
}
