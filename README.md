# Voting-Dapp election registry, modelled in Dafny

The Voting-Dapp backend keeps each election in two places:

- **The ledger.** The Voting contract holds the elections (indexed from 0), their candidates with vote counts, and the set of (election, voter) pairs that have voted.
- **The mirror.** A MongoDB store holds one Election document per election and one Candidate document per candidate. The tally handler also upserts a results document into the Election collection.

The request handlers for elections, candidates, votes and results share one shape:

1. A chain of guards: admin role, then input validation, existence and ownership.
2. A ledger transaction.
3. A mirror write, made only once the transaction receipt is good.

Registration and login keep a user table in which the email and the national id are each unique. In the web client, the election list filters elections by title and shows ten per page.

The model has these parts:

- **Ledger** (`ledger.dfy`): the Voting contract as a class whose methods update its fields. A ghost ballot log backs the invariant that every vote count equals the number of distinct voters who chose that candidate.
- **LedgerTests** (`ledger_tests.dfy`): the contract's six test cases, each stated as a method whose `ensures` is what the test asserts.
- **Mirror** (`mirror.dfy`): the document store as a class with these parts:
  - the Election schema's required and unique fields;
  - its pre-save `numericId` hook;
  - the Candidate collection keyed by `_id`;
  - the results documents the tally upserts.
- **The controllers**, one module each, as methods over a ledger and a mirror:
  - `ElectionController`, with the module-level `numericId` counter as a class;
  - `CandidateController`;
  - `VoteController`;
  - `ResultController`;
  - `AuthController`, with the user table as a class.
- **ElectionList** (`election_list.dfy`): the list page's state as a class, with the filter, page slice and page count as functions.
- **Common** and **Js**: shared values and the JavaScript built-ins the handlers use:
  - `parseInt`, with its prefix and sign behaviour;
  - `toString` of integers;
  - strict decimal parsing (`BigInt` and the contract encoder);
  - `trim`;
  - `toLowerCase`.

Inputs the handlers get from outside the model are parameters:

- whether a transaction receipt has a truthy status (`receiptOk`);
- the current time, in Unix seconds;
- the bcrypt salt;
- the wallet created at registration.

The contract's source is not part of this model, so its behaviour is inferred:

- Its test suite pins down `createElection`, `addCandidate`, `castVote`, `closeElection` and `tallyVotes`.
- Every other entry point is modelled by the handlers' use of it:
  - a write reverts for an election index past the end, or for an unknown candidate id;
  - `deleteElection` zeroes the election's fields;
  - `castVote` reverts for an inactive election, for a voter who has already voted there, and for an unknown candidate.

The handlers read `receipt.transactionHash`, which a transaction receipt of ethers v6 (the version whose `JsonRpcProvider` and `isHexString` the handlers call) does not have: it names the hash `hash`. So no election row keeps a transaction hash, and the vote response carries none. `Common.ReceiptHash` is that undefined value.

The mirror keys a candidate by its per-election id alone. As a result, the first candidate of a second election collides with the first candidate of the first election; `CandidateController.FirstCandidatesOfTwoElections` shows this.

## Model

| member | source | states |
|---|---|---|
| Js.Show | Backend/src/controllers/resultController.js:79-81 | `toString` of a non-negative integer is a non-empty string of decimal digits with no leading zero |
| Js.ValueShow | Backend/src/controllers/resultController.js:79-81 | reading back the digits `toString` writes gives the number again |
| Js.ShowInjective | Backend/src/controllers/resultController.js:77-83 | distinct ids have distinct decimal strings, so they make distinct keys of the results object |
| Js.DigitPrefix | Backend/src/controllers/voteController.js:29-30 | the longest run of leading decimal digits: it is a prefix, all digits, and stops at the first non-digit |
| Js.ParseInt | Backend/src/controllers/voteController.js:29-30 | `parseInt(s, 10)` is NaN exactly when no digit follows the leading white space and optional sign |
| Js.ParseIntShowPrefix | Backend/src/controllers/voteController.js:29-30 | the digits of n followed by anything not starting with a digit parse to n (a digit prefix is accepted) |
| Js.ParseIntDigits | Backend/src/controllers/voteController.js:29-30 | a run of digits followed by anything not starting with a digit parses to the value of the digits |
| Js.ParseIntMinusDigits | Backend/src/controllers/voteController.js:29-41 | "-" followed by digits parses to the negative of their value, an integer that passes the handler's integer check |
| Js.ParseDecimal | Backend/src/controllers/resultController.js:41 | a string converts to an unsigned integer exactly when it is non-empty and all decimal digits |
| Js.ParseDecimalShow | Backend/src/controllers/resultController.js:41 | converting `toString(n)` back gives n |
| Js.TrimStart | frontend/src/Components/election/ElectionLists/ElectionLists.jsx:41 | the result is a suffix of the input and does not start with white space |
| Js.TrimEnd | frontend/src/Components/election/ElectionLists/ElectionLists.jsx:41 | the result is a prefix of the input and does not end with white space |
| Js.TrimStartRemovesSpace | frontend/src/Components/election/ElectionLists/ElectionLists.jsx:41 | every character `TrimStart` removes is white space |
| Js.TrimEndRemovesSpace | frontend/src/Components/election/ElectionLists/ElectionLists.jsx:41 | every character `TrimEnd` removes is white space |
| Js.TrimBlank | frontend/src/Components/election/ElectionLists/ElectionLists.jsx:41 | a string of white space only trims to the empty string |
| Js.ToLower | frontend/src/Components/election/ElectionLists/ElectionLists.jsx:41 | lowercasing keeps the length |
| Ledger.CountVotesAppend | Backend/src/contracts/test/test.js:54-74 | one more ballot adds one to exactly the count of the election and candidate it names |
| Ledger.CountIsDistinctVoters | Backend/src/contracts/test/test.js:121-147 | with one ballot per voter and election, a candidate's count is the number of distinct voters who chose it |
| Ledger.Credit | Backend/src/contracts/test/test.js:66-73 | a vote adds exactly one to the count of the candidate with that id and leaves every other count, every id and name, and the list's length as they were |
| Ledger.Rename | Backend/src/controllers/candidateController.js:142 | the candidate with that id gets the new name; every other name, every id and vote count, and the list's length stay as they were |
| Ledger.WithoutMembers | Backend/src/controllers/candidateController.js:192 | after removing candidate id, the list holds exactly the other candidates |
| Ledger.WithoutAscending | Backend/src/controllers/candidateController.js:192 | removing a candidate keeps the ids strictly ascending and below the next id |
| Ledger.VotingContract.constructor | Backend/src/contracts/test/test.js:11-13 | a new contract has no elections and no voters |
| Ledger.VotingContract.CreateElection | Backend/src/contracts/test/test.js:15-33 | appends an active election with the given fields and no candidates; its index is the previous count |
| Ledger.VotingContract.AddCandidate | Backend/src/contracts/test/test.js:35-52 | appends one candidate with the next id, the given name and 0 votes; reverts past the end and changes nothing |
| Ledger.VotingContract.UpdateCandidate | Backend/src/controllers/candidateController.js:142 | renames the candidate and nothing else; reverts for an unknown election or candidate and changes nothing |
| Ledger.VotingContract.DeleteCandidate | Backend/src/controllers/candidateController.js:192 | removes exactly that candidate, keeping the order; reverts for an unknown election or candidate |
| Ledger.VotingContract.UpdateElection | Backend/src/controllers/electionController.js:262-268 | replaces title, description and dates at that index and nothing else; reverts past the end |
| Ledger.VotingContract.DeleteElection | Backend/src/controllers/electionController.js:314 | zeroes the election's fields and marks it inactive, keeping its index and candidates; reverts past the end |
| Ledger.VotingContract.CloseElection | Backend/src/contracts/test/test.js:100-119 | sets isActive to false whatever its status; a closed election is never active again |
| Ledger.VotingContract.CastVote | Backend/src/contracts/test/test.js:54-98 | a vote is accepted exactly when the election exists, is active, has the candidate, and the voter has not voted in it; it credits that candidate with one vote and records the voter; a second vote reverts with "You have already voted" and changes nothing |
| Ledger.VotingContract.TallyVotes | Backend/src/contracts/test/test.js:121-147 | returns the election's candidates, each count equal to the number of distinct voters who chose it |
| LedgerTests.ShouldCreateAnElection | Backend/src/contracts/test/test.js:15-33 | index 0 reads back with the given title, description and dates, active |
| LedgerTests.ShouldAddACandidate | Backend/src/contracts/test/test.js:35-52 | the candidate list goes from 0 entries to 1, with id 0 and the given name |
| LedgerTests.ShouldCastAVote | Backend/src/contracts/test/test.js:54-74 | `castVote(0, 0)` gives the first candidate 1 vote and the second 0 |
| LedgerTests.ShouldNotAllowDoubleVoting | Backend/src/contracts/test/test.js:76-98 | the second vote reverts with "You have already voted" and the count stays 1 |
| LedgerTests.ShouldCloseAnElection | Backend/src/contracts/test/test.js:100-119 | isActive reads back false |
| LedgerTests.ShouldTallyVotes | Backend/src/contracts/test/test.js:121-147 | two voters, one vote for each candidate: the tally is [1, 1] |
| Mirror.Database.LastNumericId | Backend/src/models/electionModel.js:53 | the highest stored numericId, or none exactly when the collection is empty |
| Mirror.Database.SaveElection | Backend/src/models/electionModel.js:4-57 | validation of the required fields first; a numericId of 0 becomes the highest stored + 1 (1 in an empty collection); a non-zero one is kept; a taken numericId is a duplicate-key error; on success one new document, nothing else changes |
| Mirror.Database.InsertElection | Backend/src/models/electionModel.js:5-30 | validation and the unique numericId index without the hook; the given numericId is stored unchanged |
| Mirror.Database.ReplaceElection | Backend/src/controllers/electionController.js:279-284 | re-saving a document with an empty title or description fails validation and changes nothing; otherwise the row is replaced |
| Mirror.Database.DeleteElection | Backend/src/controllers/electionController.js:325 | removes exactly that document |
| Mirror.Database.SaveCandidate | Backend/src/models/candidateModel.js:5-27 | saved exactly when _id, name and electionId are non-empty and the _id is free; a taken _id is a duplicate-key error |
| Mirror.Database.RenameCandidate | Backend/src/controllers/candidateController.js:152-155 | returns the renamed document, or none when no document has that _id; only the name changes |
| Mirror.Database.DeleteCandidate | Backend/src/controllers/candidateController.js:202 | removes exactly that document |
| Mirror.Database.UpsertSnapshot | Backend/src/controllers/resultController.js:88-92 | overwrites the results of the document an earlier upsert made for that id; otherwise inserts one, which succeeds exactly when no such document exists yet and is a duplicate-key 500 on the unique numericId index otherwise; at most one such document ever exists; nothing else changes |
| ElectionController.NumericIdCounter.constructor | Backend/src/controllers/electionController.js:7 | the counter starts at 187580 |
| ElectionController.NumericIdCounter.Take | Backend/src/controllers/electionController.js:33-37 | returns the current value and moves the counter one up |
| ElectionController.TwoIds | Backend/src/controllers/electionController.js:7-37 | a fresh counter hands out 187580, then 187581 |
| ElectionController.CollectCandidates | Backend/src/controllers/electionController.js:147-157 | one DTO per candidate, in order, with its id as a decimal string and its name |
| ElectionController.GetElections | Backend/src/controllers/electionController.js:121-181 | succeeds exactly when every election has a non-zero start and end; then one entry per ledger index in order, dates in milliseconds, and candidates empty where reading them failed; otherwise a 500 naming the first incomplete index |
| ElectionController.GetElectionById | Backend/src/controllers/electionController.js:183-233 | succeeds exactly when the id parses to an existing index whose election is complete, and returns that election's DTO; every error is a 500 |
| ElectionController.CreateElection | Backend/src/controllers/electionController.js:39-119 | 403 for a non-admin. The ledger election is appended and the counter advanced exactly when the dates are valid and the receipt is good. The mirror row gets the counter value as numericId, and is saved exactly when the read-back at that value does not revert and validation and the unique index pass. The counter stays 187580 ahead of the ledger |
| ElectionController.CreateElectionReconciled | Backend/src/controllers/electionController.js:39-119 | the same handler with the row keyed by the ledger index: the saved row's numericId is the index of the election just appended, whose title it carries |
| ElectionController.UpdateElection | Backend/src/controllers/electionController.js:235-293 | 403 non-admin, then 400 bad dates, 404 missing row, 403 not the creator, all before the ledger. The ledger update goes to the row's numericId; a numericId past the ledger's end is a 500 carrying the ledger's revert. The mirror row changes only after a good receipt, and only title, description, dates and hash, the last set to the receipt's undefined `transactionHash` |
| ElectionController.DeleteElection | Backend/src/controllers/electionController.js:295-331 | the guards in order; 400 while the time in seconds is below the end date in milliseconds; on success the ledger election is zeroed and the row removed |
| ElectionController.DeleteElectionIntended | Backend/src/controllers/electionController.js:295-331 | the same handler with the end-date guard in seconds on both sides: allowed from the end date on |
| ElectionController.DeleteOnLedgerThenMirror | Backend/src/controllers/electionController.js:314-326 | the ledger delete at the row's numericId, and the row removed only after a good receipt; any failure is a 500 that changes nothing |
| ElectionController.CloseElection | Backend/src/controllers/electionController.js:333-365 | 403 for a non-admin; closes the election the decimal id names whatever its status, exactly when it exists and the receipt is good |
| ElectionController.CreateWithArrayGetter | Backend/src/controllers/electionController.js:88-93 | on a fresh server with an array getter, the ledger gains election 0, the read-back at 187580 fails, and no row is saved |
| ElectionController.CreateThenUpdateWithMappingGetter | Backend/src/controllers/electionController.js:88-268 | with a mapping getter, the row is saved with numericId 187580; updating it reverts on the ledger, and election 0 keeps its title |
| ElectionController.HookRenumbersIndexZero | Backend/src/models/electionModel.js:51-57 | a first election saved with the ledger index 0 as its numericId is stored as 1 |
| ElectionController.CreateThenUpdateReconciled | Backend/src/controllers/electionController.js:262-284 | keyed by the ledger index, the same create-then-update renames ledger election 0 and its row |
| ElectionController.DeleteRefusedAfterEnd | Backend/src/controllers/electionController.js:309-312 | as written, an election that has ended is still refused deletion, while the seconds guard allows it |
| ElectionController.DeleteRefusedForMillennia | Backend/src/controllers/electionController.js:309-312 | with an end date of 1700000000 the written guard refuses an hour after the end and first allows at 1700000000000 seconds |
| CandidateController.AddCandidate | Backend/src/controllers/candidateController.js:45-108 | 500 "Election is not active" before any transaction for an inactive election. The ledger append happens exactly for an active election with a good receipt. The recorded id is the ledger's next id read before the add, which is the id of the appended candidate. A taken _id fails after the ledger append |
| CandidateController.UpdateCandidate | Backend/src/controllers/candidateController.js:114-165 | refused for an inactive election; after the ledger rename, the mirror row with that _id gets the new name and nothing else; the response holds that row, or null when there is none |
| CandidateController.DeleteCandidate | Backend/src/controllers/candidateController.js:170-212 | 404 when the mirror has no such candidate; no status check; the ledger delete uses the row's election id; the row is removed only after the ledger delete |
| CandidateController.FlattenLength | Backend/src/controllers/candidateController.js:237-253 | the flattened list is as long as all candidate lists together |
| CandidateController.FlattenEmpty | Backend/src/controllers/candidateController.js:237-257 | the flattened list is empty exactly when no election has a candidate |
| CandidateController.FlattenSound | Backend/src/controllers/candidateController.js:244-252 | every entry is a candidate of the election it names, tagged with that election's title |
| CandidateController.GetCandidates | Backend/src/controllers/candidateController.js:216-268 | 404 with no elections; 404 when no election has a candidate; otherwise the candidates of elections 0..n-1 in order, as many as all lists together |
| CandidateController.FirstCandidatesOfTwoElections | Backend/src/controllers/candidateController.js:86-98 | the first candidate of the second election gets the _id "0" already taken, so its save fails after the ledger append |
| VoteController.ValidKeyShape | Backend/src/controllers/voteController.js:43-46 | a key passes the check exactly when it is "0x" followed by 64 hexadecimal digits |
| VoteController.CastVote | Backend/src/controllers/voteController.js:26-75 | 400 unless both ids parse, then 400 unless the key passes, both before the ledger. Success exactly when the ledger accepts the vote from the wallet's address and the receipt is good; it credits that candidate, and the body holds only the message, because the receipt's `transactionHash` is undefined. A second vote by the same wallet is a 500 "transaction execution reverted" and changes nothing |
| VoteController.VoteTwice | Backend/src/controllers/voteController.js:26-75 | the same wallet voting twice: the first vote succeeds, the second fails, and the count is 1 |
| ResultController.ResultsKeys | Backend/src/controllers/resultController.js:77-83 | the results object's keys are exactly the candidate ids as decimal strings |
| ResultController.ResultsEntries | Backend/src/controllers/resultController.js:77-83 | with distinct ids, every candidate's entry holds its name and its count as a decimal string |
| ResultController.BuildResults | Backend/src/controllers/resultController.js:77-83 | the forEach loop builds the results object candidate by candidate |
| ResultController.TallyVotes | Backend/src/controllers/resultController.js:27-108 | 400 for a missing id before the ledger; 400 "Election is still active or voting has not ended yet" unless the election is closed and its end date has passed. Then a 500 duplicate key when the upsert would insert a second results document. Otherwise title, dates and results, each entry counting the distinct voters, with the same results upserted under the id as given |
| ResultController.TallyTwice | Backend/src/controllers/resultController.js:88-92 | two tallies on an unchanged ledger give the same answer and leave the same snapshot as one |
| ResultController.SecondElectionTallyFails | Backend/src/controllers/resultController.js:88-106 | after the first election's tally inserts its results document, the first tally of a second ended, closed election is a 500 duplicate key |
| AuthController.FindByEmail | Backend/src/controllers/authController.js:93 | finds a user with that email, or none exactly when no user has it |
| AuthController.UserTable.Register | Backend/src/controllers/authController.js:21-80 | 400 for a missing required field, then 400 when the email or the national id is taken; the national-id-only refusal is unreachable. Otherwise a new user with the hashed password and the role (default "user"), and tokens carrying its id and role. Email and national id stay unique |
| AuthController.UserTable.Login | Backend/src/controllers/authController.js:84-120 | succeeds exactly when a user has that email and the password matches its digest, with that user's tokens; every failure is the same 400 "Invalid Credentials" |
| AuthController.GetCurrentUser | Backend/src/controllers/authController.js:129-153 | 401 without a user, 400 without a full name, otherwise exactly full name, email, phone number and national id |
| AuthController.RegisterThenLogin | Backend/src/controllers/authController.js:21-120 | logging in after registering returns the same session, whose token carries id 0 and role "user" |
| AuthController.WrongPasswordLooksLikeUnknownEmail | Backend/src/controllers/authController.js:93-103 | a wrong password and an unknown email get the same error |
| ElectionList.Filter | frontend/src/Components/election/ElectionLists/ElectionLists.jsx:40-42 | the filtered list is no longer than the list |
| ElectionList.FilterMembers | frontend/src/Components/election/ElectionLists/ElectionLists.jsx:39-43 | an election is listed exactly when its lowercased title contains the lowercased, trimmed search term |
| ElectionList.FilterAll | frontend/src/Components/election/ElectionLists/ElectionLists.jsx:40-42 | when every election matches, the filter keeps the list as it is, in order |
| ElectionList.BlankTermKeepsAll | frontend/src/Components/election/ElectionLists/ElectionLists.jsx:41 | an empty or white-space search term keeps every election |
| ElectionList.PageCount | frontend/src/Components/election/ElectionLists/ElectionLists.jsx:96 | the number of buttons is the least k with 10k at least the list's length |
| ElectionList.PageBounds | frontend/src/Components/election/ElectionLists/ElectionLists.jsx:59-61 | a page holds at most 10 elections, the j-th being element (p-1)*10+j of the filtered list |
| ElectionList.PagesInRange | frontend/src/Components/election/ElectionLists/ElectionLists.jsx:59-96 | a page is non-empty exactly when its number is a button's |
| ElectionList.PagesUpTo | frontend/src/Components/election/ElectionLists/ElectionLists.jsx:59-61 | pages 1..k together are the list up to the end of page k |
| ElectionList.AllPages | frontend/src/Components/election/ElectionLists/ElectionLists.jsx:59-96 | concatenating the pages of all buttons gives back the filtered list |
| ElectionList.ElectionListView.constructor | frontend/src/Components/election/ElectionLists/ElectionLists.jsx:11-16 | an empty list, no search term, page 1, loading, no error |
| ElectionList.ElectionListView.Visible | frontend/src/Components/election/ElectionLists/ElectionLists.jsx:59-61 | at most 10 elections, each from the list and matching the search term |
| ElectionList.ElectionListView.OnFetched | frontend/src/Components/election/ElectionLists/ElectionLists.jsx:19-37 | an array becomes the list, filtered, at page 1; anything else sets the error and leaves the list; loading ends either way |
| ElectionList.ElectionListView.OnSearchChange | frontend/src/Components/election/ElectionLists/ElectionLists.jsx:39-49 | a new search term refilters the list and resets the page to 1 |
| ElectionList.ElectionListView.OnPageChange | frontend/src/Components/election/ElectionLists/ElectionLists.jsx:51-53 | selects the page and changes nothing else |

## Left out

- The Voting contract's source is not part of this model. Guards other than those its tests exercise are inferred from how the handlers call it. `addCandidate`, `updateCandidate` and `deleteCandidate` on the ledger do not require an active election.
- The ledger's revert reasons "Invalid election ID", "Invalid candidate ID" and "Election is not active" are placeholders. Only "You have already voted" comes from the contract's tests. The handlers pass any revert on as a 500, so only the status matters to them.
- ElectionController.CreateElection: `title` and `description` are always present. In the source `req.body` may lack them; ethers then refuses `undefined` before any transaction, which is a 500 with the ledger and the mirror unchanged. That case is not modelled, and the nearest input, an empty string, reaches the ledger write and fails only at the mirror's validation.
- ElectionController.UpdateElection: `title` and `description` are always present. In the source a missing one makes ethers refuse the update after the guards and before any transaction, a 500 that changes nothing. That case is not modelled.
- ElectionController.CreateElection: whether the public `elections(i)` getter reverts past the end (an array) or returns a zeroed record (a mapping) depends on the contract's source. It is the input `getterReverts`.
- CandidateController.AddCandidate: `name` is always present. In the source `req.body` may lack it. Ethers then refuses `undefined` for the string argument of `addCandidate`, after the status check and before any transaction, which is a 500 that changes nothing. That case is not modelled, and the nearest input, an empty string, is appended on the ledger and then fails the Candidate schema's required check.
- CandidateController.UpdateCandidate: `name` is always present. In the source a missing one makes ethers refuse `updateCandidate` before any transaction, a 500 that changes nothing. That case is not modelled, and an empty string is accepted as the new name.
- CandidateController.AddCandidate and CandidateController.UpdateCandidate: for an election id past the end, the model reports the getter's revert. With a mapping getter the handler would report "Election is not active" instead. Either way the response is a 500 that changes nothing.
- Date parsing with moment-timezone (Africa/Douala) is a library. Dates arrive as Unix seconds, or None for an invalid date. The ISO strings stored in the mirror are kept as seconds.
- Dates before 1970 (negative seconds): ethers refuses them for a uint256 argument. The model refuses them with the same 500, without ethers' exact message.
- Js.ToLower lowercases ASCII letters only; Unicode case mapping is not modelled.
- Js.ParseInt returns an unbounded integer. JavaScript loses precision past 2^53, and the model does not capture that.
- Js.ParseDecimal accepts only plain digit strings. `BigInt` and ethers also accept surrounding white space, 0x/0o/0b prefixes, a leading "+" (`BigInt("+3")` is 3) and "-0" (ethers reads it as 0), which are not modelled. The model answers a 500 for those ids in `ResultController.TallyVotes`, `CandidateController.AddCandidate` and `ElectionController.CloseElection`, where the source goes on.
- Mirror.Database.UpsertSnapshot and ResultController.TallyVotes follow strictQuery false, the default from Mongoose 7. The filter field `electionId` is kept although the Election schema lacks it. The first tally of an id inserts `{electionId, results}` without a numericId; later tallies of that id update it. The unique, non-sparse numericId index admits one such document, so the first tally of a second id is a 500 (`ResultController.SecondElectionTallyFails`). The Mongoose version is not part of this model. Under strictQuery true the filter would be dropped and the upsert would overwrite the results of whichever Election document comes first; that is not modelled.
- Mirror.Database.UpsertSnapshot keeps the results documents apart from the election rows. In the source they share the Election collection, so the pre-save hook's `findOne().sort('-numericId')` can return a results document when the collection holds no election row. The hook would then compute NaN from its missing numericId, where the model's hook stores 1. That case is not modelled.
- Malformed ObjectId strings (a CastError from `findById`) are not modelled; document ids are numbers.
- The pre-save hook runs on every `save()`. `Mirror.Database.ReplaceElection` does not re-run it. On the as-written path (`SaveElection`) a stored numericId is never 0, so re-running the hook would change nothing. The reconciled design (`InsertElection`, `CreateThenUpdateReconciled`) drops the hook altogether, on insert and on re-save, because the hook would renumber the election at ledger index 0.
- Each request runs alone. Concurrent requests, nonce ordering and the interleaving of awaits are not modelled.
- Wallet creation and funding (walletService.mjs, transactionService.js) are network transactions. The wallet is an input to `AuthController.UserTable.Register`, and its address is assumed to be the one the private key signs for.
- bcrypt and JWT are libraries:
  - a digest is the salt and the password it was made from;
  - `compare` is equality of the password;
  - a token is its payload together with the kind of secret that signed it.
  bcrypt's truncation of passwords to 72 bytes is not modelled.
- userModel.js is not part of this model. The user's fields are those the handlers read and write.
- `logout`, `refreshToken`, the adminController handlers and the authentication middleware are not modelled. The vote routes import a `getVotingHistory` that voteController.js does not define.
- The provider, signer and contract set-up in each controller, and the server and route files, are I/O. The adminAuth middleware is modelled as the first guard of the four admin election routes.
- The ethers error messages in the model (`invalid BigNumberish value`, `transaction execution reverted`) stand for whatever error ethers raises. The handlers pass any such error on as a 500, and only the status is part of their contract.
- `ElectionList.ElectionListView` models the component's state once React has run the effects a change triggers. Renders in between are not modelled.
- The rendering of the list page, the results page and the other React components is UI and is left out.

## Findings

| source | as written | input that shows it | evidently intended | confidence | as-written member | corrected member |
|---|---|---|---|---|---|---|
| Backend/src/controllers/electionController.js:7-105 | The mirror row's numericId comes from a counter that starts at 187580 on every server start. The ledger indexes elections from 0, and update and delete address the ledger by that numericId | A fresh server: create one election, then update it. With an array getter the create fails after the ledger write (`CreateWithArrayGetter`). With a mapping getter the update goes to index 187580 and reverts (`CreateThenUpdateWithMappingGetter`). The pre-save hook would store index 0 as 1 (`HookRenumbersIndexZero`) | The row's numericId is the index `createElection` gave the election on the ledger, so that update and delete reach it | not executed | ElectionController.CreateElection | ElectionController.CreateElectionReconciled |
| Backend/src/controllers/electionController.js:309-312 | `currentTime` is in seconds but `election.endDate` is a Date, which compares as milliseconds, so deletion is refused until some fifty thousand years after the end | End date 1700000000, one hour after it: refused (`DeleteRefusedAfterEnd`, `DeleteRefusedForMillennia`) | Deletion is allowed once the time in seconds reaches the end date in seconds | not executed | ElectionController.DeleteElection | ElectionController.DeleteElectionIntended |
