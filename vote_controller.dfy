/** The vote request handler: both ids through parseInt, the voter's key
    checked, then castVote sent from the voter's own wallet. */
module VoteController {
  import opened Common
  import opened Js
  import Ledger

  const InvalidIds: string := "Invalid electionId or candidateId"
  const InvalidKey: string := "Invalid private key"
  /** The error ethers raises when a transaction sent with a fixed gas limit
      is mined with status 0. */
  const ExecutionReverted: string := "transaction execution reverted"
  /** The error ethers raises for a negative uint256 argument. */
  const InvalidArgument: string := "invalid BigNumberish value"
  const VoteCast: string := "Vote cast successfully"

  /** The JSON body of a successful vote. */
  datatype VoteReply = VoteReply(message: string, transactionHash: Option<string>)

  predicate IsHexDigit(c: char)
  {
    '0' <= c <= '9' || 'a' <= c <= 'f' || 'A' <= c <= 'F'
  }

  /** ethers.isHexString: "0x" followed by hexadecimal digits only. */
  predicate IsHexString(s: string)
  {
    |s| >= 2 && s[0] == '0' && s[1] == 'x' && forall i :: 2 <= i < |s| ==> IsHexDigit(s[i])
  }

  /** The key check: present, a hex string, and 66 characters long. */
  predicate ValidPrivateKey(key: Option<string>)
  {
    key.Some? && key.value != "" && IsHexString(key.value) && |key.value| == 66
  }

  /** The private key the handler reads from the user's wallet, absent
      without a wallet. */
  function KeyOf(wallet: Option<Wallet>): Option<string>
  {
    if wallet.Some? then Some(wallet.value.privateKey) else None
  }

  /** A key passes the check exactly when it is "0x" followed by 64
      hexadecimal digits. */
  lemma ValidKeyShape(key: string)
    ensures ValidPrivateKey(Some(key)) <==>
      exists ds :: |ds| == 64 && (forall i :: 0 <= i < 64 ==> IsHexDigit(ds[i])) && key == "0x" + ds
  {
    if ValidPrivateKey(Some(key)) {
      var ds := key[2..];
      assert key == "0x" + ds;
      assert forall i :: 0 <= i < 64 ==> ds[i] == key[i + 2];
    }
    if exists ds :: |ds| == 64 && (forall i :: 0 <= i < 64 ==> IsHexDigit(ds[i])) && key == "0x" + ds {
      var ds :| |ds| == 64 && (forall i :: 0 <= i < 64 ==> IsHexDigit(ds[i])) && key == "0x" + ds;
      assert forall i :: 2 <= i < |key| ==> key[i] == ds[i - 2];
    }
  }

  /** The ledger would accept castVote(e, c) from voter. */
  predicate Accepts(ledger: Ledger.VotingContract, voter: Ledger.Address, e: int, c: int)
    reads ledger
  {
    && 0 <= e < |ledger.elections| && 0 <= c
    && ledger.elections[e].isActive
    && (e, voter) !in ledger.hasVoted
    && Ledger.HasCandidate(ledger.elections[e].candidates, c)
  }

  /** castVote: 400 unless both ids parse, then 400 unless the key passes,
      both before the ledger; the vote is signed by the voter's wallet. The
      response's transactionHash is `receipt.transactionHash`, which is
      undefined, so the JSON body carries only the message. */
  method CastVote(
    ledger: Ledger.VotingContract, electionIdRaw: string, candidateIdRaw: string,
    wallet: Option<Wallet>, receiptOk: bool)
    returns (r: Result<VoteReply>)
    requires ledger.Valid()
    modifies ledger
    ensures ledger.Valid()
    ensures ParseInt(electionIdRaw).None? || ParseInt(candidateIdRaw).None? ==> r == Err(400, InvalidIds)
    ensures ParseInt(electionIdRaw).Some? && ParseInt(candidateIdRaw).Some? && !ValidPrivateKey(KeyOf(wallet))
      ==> r == Err(400, InvalidKey)
    ensures r.Ok? <==>
      && ParseInt(electionIdRaw).Some? && ParseInt(candidateIdRaw).Some? && ValidPrivateKey(KeyOf(wallet))
      && old(Accepts(ledger, wallet.value.address, ParseInt(electionIdRaw).value, ParseInt(candidateIdRaw).value))
      && receiptOk
    ensures r.Ok? ==>
      var e := ParseInt(electionIdRaw).value as nat;
      var c := ParseInt(candidateIdRaw).value as nat;
      && r.value == VoteReply(VoteCast, ReceiptHash)
      && ledger.elections == old(ledger.elections)[e := old(ledger.elections[e]).(
           candidates := Ledger.Credit(old(ledger.elections[e].candidates), c))]
      && ledger.hasVoted == old(ledger.hasVoted) + {(e, wallet.value.address)}
    // a second vote from the same wallet in the same election is refused
    ensures ParseInt(electionIdRaw).Some? && ParseInt(candidateIdRaw).Some? && ValidPrivateKey(KeyOf(wallet))
      && ParseInt(electionIdRaw).value >= 0 && ParseInt(candidateIdRaw).value >= 0
      && (ParseInt(electionIdRaw).value, wallet.value.address) in old(ledger.hasVoted)
      ==> r == Err(500, ExecutionReverted)
    ensures r.Err? ==> ledger.elections == old(ledger.elections) && ledger.hasVoted == old(ledger.hasVoted)
  {
    var e := ParseInt(electionIdRaw);
    var c := ParseInt(candidateIdRaw);
    if e.None? || c.None? {
      return Err(400, InvalidIds);
    }
    var key := KeyOf(wallet);
    if !ValidPrivateKey(key) {
      return Err(400, InvalidKey);
    }
    if e.value < 0 || c.value < 0 {
      return Err(500, InvalidArgument);
    }
    var voter := wallet.value.address;
    if !(receiptOk && Accepts(ledger, voter, e.value, c.value)) {
      return Err(500, ExecutionReverted);
    }
    var tx := ledger.CastVote(voter, e.value, c.value);
    r := Ok(VoteReply(VoteCast, ReceiptHash));
  }

  /** The same wallet voting twice in one election: the first vote is counted,
      the second is refused and the count stays at one. */
  method VoteTwice(wallet: Wallet, startDate: nat) returns (first: Result<VoteReply>, second: Result<VoteReply>, count: nat)
    requires ValidPrivateKey(Some(wallet.privateKey))
    ensures first == Ok(VoteReply("Vote cast successfully", None))
    ensures second == Err(500, ExecutionReverted)
    ensures count == 1
  {
    var ledger := new Ledger.VotingContract();
    var _ := ledger.CreateElection("Election 1", "Description of Election 1", startDate, startDate + 3600);
    var _ := ledger.AddCandidate(0, "Candidate 1");
    assert ledger.elections[0].candidates[0].id == 0;
    ParseIntShowPrefix(0, []);
    assert Show(0) + [] == "0";
    assert ParseInt("0") == Some(0);
    first := CastVote(ledger, "0", "0", Some(wallet), true);
    assert (0, wallet.address) in ledger.hasVoted;
    assert ledger.elections[0].candidates[0].voteCount == 1;
    second := CastVote(ledger, "0", "0", Some(wallet), true);
    count := ledger.elections[0].candidates[0].voteCount;
  }
}
