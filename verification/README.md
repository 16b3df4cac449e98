# A verified model of the Theta Rosetta adaptor

The adaptor presents the Theta blockchain through the Rosetta API. Two of its parts carry
the behaviour that is hard to get right, and both are modelled here.

**The stake-return ledger.** A withdrawn stake is paid out 28800 blocks later. Serving a
block writes each of its withdrawals into a key-value store under the key of the height at
which it is due, and then reads the store to append the stakes due at its own height. The
store is seeded once from a snapshot of three stake pools. Requests run concurrently and
without locks, so every write is a Get and a later Put of a whole list. The modules
`StakeStore`, `Runs`, `Payouts`, `Conservation`, `Interleaving`, `Serial`, `Races`, `Losses`,
`Parallel`, `Snapshot`, `Records` and `Seeding` model this as a class over a map and as a machine of interleaved Get
and Put steps, which refines the class when requests do not overlap. They prove exactly-once
return over whole runs, idempotence and conservation of value from the snapshot to the
responses, in any order of heights and when requests overlap, and say exactly when all
interleavings agree and when overlapping requests or the snapshot lose entries.

**The translation between operations and transactions.** `Transfers` and `Parsers` print
transactions as lists of operations and prove what those lists mean as changes of account
balances. `Construction` matches a client's operations, builds a transaction from them and
parses it back; `RoundTrip` and `Calls` prove what is accepted and built, and what survives the
way there and back, in both directions.
`Decimal`, `Float64` and `BigEndian` model the spellings that values pass through,
`Matching` the greedy matcher, `Permutations` a fact about reordered lists.

Addresses are represented by their checksummed spelling. `canon` stands for HexToAddress
followed by Address.String; `keccak` and `withdrawId` stand for hashes. Answers of the node
are arguments. A block's withdrawal carries the stake that the node reports for it, since the
source dereferences a missing stake. Whenever the blocks of one height are served, they are
taken to withdraw the same stakes (`Runs.Consistent`); anything else about them, such as their
status, may differ from request to request.

Where the code departs from its documentation or evident intent, the model follows the code:

- the fee is taken off every input of a transfer but charged once (`Transfers.SendFaithfulIff`);
- a released fund's TFuel is printed as a debit (`Parsers.ParseReleaseFundTx`);
- comparisons with `big.NewInt(0)` compare pointers, so zero amounts still print an operation;
- some lists relate their first operation to index -1 or 1 (the well-formedness clauses);
- lists of guardian and elite edge node entries are extended but not stored back
  (`Snapshot.KeptEntries`, `Snapshot.SnapshotLosslessIff`);
- seeded hashes restart their index with every candidate (`Snapshot.SeedHashClashIff`);
- a failing status answer makes the snapshot return without an error and without seeding;
- the store is read and written without a lock (`Losses.LosslessIff`, `Losses.ConfluenceIff`);
- Preprocess names operation 0 of the match as signer, Payloads the client's first operation
  (`RoundTrip.SignerIff`, `RoundTrip.SignedBySenderIff`).

## Model

| member | source | states |
|---|---|---|
| Transfers.ParseSendTx | common/utils.go:251-364 | the two loops and the fee produce exactly the chained list that the meaning lemmas are about |
| Transfers.SendPrinted | common/utils.go:251-364 | the list, operation by operation: type, account, amount, sequence and signature of two operations per input and output, then the fee; all chained, with the given status |
| Transfers.SendMeaning | common/utils.go:284-361 | every account's balance change is the transfer's true effect plus one fee per input of the account, minus one fee for the last input's account |
| Transfers.SendFaithfulIff | common/utils.go:287-361 | all accounts get their true balance change if and only if there is one input or no fee |
| Transfers.SendNet | common/utils.go:284-361 | over all operations Theta adds up to outputs less inputs; TFuel does if and only if there is one input or no fee, and exceeds it by one fee per further input |
| Transfers.SendWellFormedIff | common/utils.go:306-345 | indexes and relations are well formed unless outputs come first |
| Parsers.ParseReserveFundTx | common/utils.go:366-426 | every operation's type, account, amount and metadata; source debited coins and fee; well formed unless both coins are nil |
| Parsers.ParseReleaseFundTx | common/utils.go:428-486 | every operation; Theta credited but TFuel debited; a refund minus fee if and only if no TFuel is released |
| Parsers.ParseSmartContractTxForConstruction | common/utils.go:564-631 | one From operation per nonzero coin of the caller, then one To operation per nonzero coin of the callee, always well formed; every account's change is what it receives less what it sends |
| Parsers.ParseSmartContractTx | common/utils.go:633-700 | operation k shows change k of token types 0 and 1, debits as From and credits as To; per account, the From operations alone are what the node reports as taken, the To operations what it reports as given, and the rest is gas paid by the sender |
| Parsers.ParseDepositStakeTx | common/utils.go:702-771 | every operation; source debited stake and fee; always well formed |
| Parsers.ParseWithdrawStakeTx | common/utils.go:773-790 | one operation, charging the fee to the source |
| Parsers.ParseReturnStakeTx | common/utils.go:792-837 | an operation per coin that is not nil, with type, account, amount and metadata |
| Parsers.ReturnMeaning | common/utils.go:792-837 | a return credits its source with the stake's coins, zero stored as nil or not |
| Parsers.ParseStakeRewardDistributionTx | common/utils.go:839-898 | every operation; beneficiary credited, holder charged; well formed only without beneficiary coins |
| Matching.MatchIff | services/construction.go:700-704 | greedy matching over disjoint descriptions succeeds with m if and only if m is a permutation of the operations satisfying the descriptions |
| Matching.MatchPermutation | services/construction.go:767-771 | the order of the operations does not matter |
| Matching.MatchMap | services/construction.go:700-704 | matching sees only what the descriptions can see: the match of the images is the image of the match |
| Construction.ShapesIff | services/construction.go:669-778 | two operations are accepted exactly as a TFuel debit and credit, five exactly as Theta and TFuel debits and credits and a TFuel fee, in any order; else the number or the match is refused |
| Construction.PreprocessIff | services/construction.go:91-157 | Preprocess accepts exactly the operations with an assignment that names one payer and another payee, and takes fee and signer from it |
| Construction.ConstructionPreprocess | services/construction.go:91-157 | accepts exactly those; the options are type, signer and a transfer's fee, and each of gas limit, gas price and data exactly if the metadata has it, with its value; a refusal names the first failing check |
| Construction.ConstructionParse | services/construction.go:461-490 | refuses exactly unsupported types; else signer, fee or gas terms, a well-formed list, and true balance changes if and only if it is a contract call or a transfer with one input or no fee |
| Construction.CombineIff | services/construction.go:518-560 | succeeds if and only if there is one signature, it verifies for the account it claims, and the type is supported; then signs that account's first input, or the caller, and changes nothing else; else the error says which is missing |
| RoundTrip.PermutationInvariance | services/construction.go:101-142 | requests that list the same types, accounts and amounts in another order, numbered anew, get the same Preprocess answer, the same success or error of Payloads, and the same transaction |
| RoundTrip.SignerIff | services/construction.go:424-435 | Preprocess and Payloads name the same signer if and only if no output operation comes first |
| RoundTrip.TransferParsed | services/construction.go:368-407 | Payloads then Parse: types and amounts kept, accounts of operations 0 and 2, canonical order |
| RoundTrip.TransferRoundTripIff | services/construction.go:108-131 | a client's five operations come back unchanged if and only if parties agree and spellings are canonical |
| RoundTrip.AcceptedRoundTrip | services/construction.go:368-407 | what Preprocess accepts comes back as a permutation of what was sent |
| RoundTrip.TransferRebuiltIff | services/construction.go:375-407 | a one-to-one transfer's operations are accepted if and only if it is payable, and rebuild it |
| RoundTrip.RebuiltUnchangedIff | common/utils.go:284-304 | only the signature is lost if and only if the transfer was normalized |
| RoundTrip.SignedBySenderIff | services/construction.go:518-553 | Combine yields the sender's signature if and only if no output operation came first, or payer and payee are one address spelled twice |
| RoundTrip.SigningKeepsContent | services/construction.go:542-553 | signing changes no operation's type, account or amount |
| RoundTrip.ContractRoundTripIff | services/construction.go:307-366 | Payloads then Parse returns exactly the operations that move something; all of them if and only if both do, spelled canonically |
| Calls.PayloadsIff | services/construction.go:280-412 | succeeds if and only if there is a sequence and the operations can be ordered as a call or a transfer; the error says which is missing |
| Calls.CallBuilt | services/construction.go:307-366 | the call has the two operations' canonical parties and amounts and the request's sequence, gas limit, gas price and data; the first operation's account is asked to sign |
| Calls.TransferBuilt | services/construction.go:368-407 | the same for a transfer, with its fee added to the input's TFuel |
| Calls.CallRebuiltIff | services/construction.go:307-366 | a call's printed operations are accepted if and only if it moves no Theta and positive TFuel on both sides, and rebuild it with the request's terms |
| Calls.CallUnchangedIff | common/utils.go:564-631 | only the signature is lost if and only if the call was normalized and has the request's terms |
| Calls.SignedByCallerIff | services/construction.go:518-553 | Combine yields the caller's signature if and only if the caller's operation came first, or caller and callee are one address; else an unsigned call |
| RoundTrip.SequenceSurvivesIff | services/construction.go:200-298 | while its float64 fits a uint64, the next sequence survives the JSON number if and only if it has 53 significant bits; two to the 53 plus one does not |
| Float64.RoundRepresentable | services/construction.go:298 | decoding yields a float64 |
| Float64.RoundNearest | services/construction.go:298 | no float64 is nearer |
| Float64.TieToEven | services/construction.go:298 | of two equally near neighbours, the one with the even significand is chosen |
| Decimal.ParsePrint | common/utils.go:267 | a printed amount parses back to itself, whatever its sign |
| Decimal.PrintParse | services/construction.go:369-377 | a parsed spelling is printed back if and only if it is canonical |
| Decimal.ParseForms | common/utils.go:267 | exactly numerals after at most one sign are parsed, leading zeros do not count, and a minus negates |
| BigEndian.Bytes | common/utils.go:962 | decodes to its argument and has no leading zero |
| BigEndian.BytesUnique | common/stake_service.go:229 | no other spelling without leading zero |
| BigEndian.KeysInjective | services/block.go:161 | keys agree if and only if heights do; at most eight bytes |
| StakeStore.RecordFresh | common/utils.go:963-975 | new withdrawals are appended, all and in order |
| StakeStore.RecordIdempotent | common/utils.go:964-972 | recording twice is recording once |
| StakeStore.BlockService.ParseWithdrawal | common/utils.go:942-989 | the one key written and its new list, with nil coins stored as zeros; nothing else changes |
| StakeStore.BlockService.Block | services/block.go:140-171 | the new store and the whole response: a withdrawal shows its fee under a derived identifier, other transactions as parsed, then the returns, including the zero operations that stored nil coins print |
| Runs.ResponseStable | services/block.go:153-169 | writes made while serving a block never change the stakes it returns |
| Runs.ServedKey | common/utils.go:962-976 | a served block's key holds its withdrawals recorded once, after any run |
| Runs.SameBlocksSameStore | common/utils.go:962-976 | the store depends only on the set of heights served |
| Runs.ServeAgain | common/utils.go:964-972 | serving a height again, whatever the block's status by then, changes nothing |
| Runs.ExactlyOnce | services/block.go:158-169 | each withdrawal is returned once by every response at its due height after it was served, and by no other response |
| Payouts.ReturnedOnce | services/block.go:158-169 | a withdrawal of a served block is returned under its own transaction hash exactly once by every later response 28800 blocks on and by no other; the return pays its stake to its source in the currency of its purpose, operation by operation |
| Runs.NothingForeign | services/block.go:158-169 | nothing is returned that was not seeded or withdrawn for that height |
| Conservation.DueInCompleteRun | services/block.go:158-169 | in a complete run, served in any order that puts a block before the one that returns its stakes, seeded and live stakes never share a key |
| Conservation.Conserved | common/utils.go:792-837 | over such a run every account is paid exactly its seeded stakes and the stakes withdrawn in blocks whose due height is served |
| Conservation.InOrderComplete | common/utils.go:948-960 | serving every block once in order is such a run, and what matures is what it withdraws a locking period before its end |
| Parallel.ConservedInParallel | services/block.go:140-171 | the same total is paid by overlapping requests in any interleaving in which each answers after the stakes due at its height were recorded |
| Seeding.KeptHeld | common/stake_service.go:72-234 | what is stored for a height is worth, per account and currency, the pool stakes that the snapshot keeps for it |
| Seeding.SnapshotThenRun | common/stake_service.go:226-231 | from an empty store, snapshot and then complete run pay every account exactly its kept pool stakes and its matured withdrawals |
| Interleaving.Confluence | common/utils.go:960-980 | every interleaving of complete requests ends in the store of any sequential order, if for heights requested twice the store has the inner withdrawals already |
| Serial.SerialRefines | services/block.go:140-171 | requests that do not overlap leave the store and give every response of the sequential endpoint |
| Races.RaceSafety | common/utils.go:963-976 | after any schedule, finished or not, no hash is repeated, nothing foreign appears, nothing is dropped that was there before all requests; once no request for the height has anything left to write, first and last withdrawals are present |
| Races.AnswersSound | services/block.go:158-169 | in every interleaving a response shows the seeded stakes, then distinct withdrawals of the block that withdraws for its height and nothing else; the seeded stakes alone if no such block is requested |
| Races.AnswerComplete | services/block.go:158-169 | a response given after the last write for its height has the first and last withdrawals, and every one of them, recorded once, if for heights requested twice the store has the inner withdrawals already |
| Races.LoneIsBlock | services/block.go:140-171 | every complete schedule of a request that nothing overlaps does what the sequential endpoint does |
| Losses.LosingSchedule | common/utils.go:963-976 | among any requests, two that overlap at one height can lose any withdrawal strictly between the first and the last that is not stored yet |
| Losses.LosslessIff | common/utils.go:963-976 | for distinct hashes, no interleaving of any number of requests loses a withdrawal if and only if all those strictly between the first and the last are stored already; for new ones, if and only if there are at most two |
| Losses.ConfluenceIff | common/utils.go:960-980 | for distinct hashes, all interleavings of any requests end in the sequential store if and only if for heights requested twice the store has the inner withdrawals already |
| Snapshot.PoolOrdered | common/stake_service.go:101-127 | a pool's entries for a height are exactly its withdrawn stakes with that return height, in pool order |
| Records.PoolRecords | common/stake_service.go:101-127 | each of them is recorded under the hash of its pool's prefix, the block hash and its position within its candidate, with its source, holder and coins |
| Records.PoolClashIff | common/stake_service.go:103-114 | two records of a pool share an identifier if and only if their positions within their candidates agree |
| Records.StoredRecords | common/stake_service.go:72-234 | the list stored for a height is that of all validators' stakes due there, else of the first guardian's, else of the first elite edge node's |
| Snapshot.GroupPool | common/stake_service.go:150-175 | the nested loops group all entries, or only first ones without write-back |
| Snapshot.KeptEntries | common/stake_service.go:168-172 | what the three pools leave at a height, and when that is everything |
| Snapshot.SnapshotLosslessIff | common/stake_service.go:72-234 | the snapshot loses nothing if and only if no height has entries that the write-back misses |
| Snapshot.StakeService.GenStakesForSnapshot | common/stake_service.go:72-234 | the seeded store, or the first pool error in the order validators, guardians, elite edge nodes with the store unchanged |
| Snapshot.SeedHashClashIff | common/stake_service.go:103-114 | seeded hashes agree if and only if pool and position within the candidate do |
| Snapshot.SeedIsBounded | common/stake_service.go:226-231 | seeding from stakes due within the locking period gives what conservation assumes |
| Snapshot.FindStake | common/stake_service.go:270-298 | the first stake of the source under the holder, withdrawn or not; none only if there is none |

## Left out

- JSON-RPC, HTTP, routing, configuration and LevelDB itself: answers are arguments, and Get fails exactly on absent keys.
- RLP, hex, Keccak, secp256k1 and the transaction codec are not part of the repository: encoding and decoding are taken to undo each other, except that the store's RLP gives a nil coin back as zero.
- The Rosetta SDK's MatchOperations is not part of the repository: Matching.Match is an assumption about it, without sub-accounts.
- Theta's SetSignature is not part of the repository: Construction.SetSignature is an assumption about it, and ConstructionCombine is therefore modelled on values, without the update in place.
- The constants core.ReturnLockingPeriod and the stake purposes are not part of the repository: 28800 is taken from the comment at common/utils.go:948, purposes 0 and 1 are validator and guardian.
- Construction.Payloads: gas price, gas limit and contract data enter already decoded, because their formatting depends on library behaviour.
- RoundTrip.SequenceSurvivesIff: the conversion of a float64 of two to the 64 or more to uint64 depends on the platform and is not modelled.
- Conservation.Conserved: assumes that seeded stakes are due at most one locking period after the snapshot, which the node's pools are expected to meet.
- Parallel.ConservedInParallel: assumes that no due height wraps around onto a requested height, which would take heights near two to the 64.
- Payouts.ReturnedOnce: assumes that the hashes of withdrawals are unique within and between blocks and never equal a seeded hash; Runs.ExactlyOnce assumes it of their records.
- ParseTx's dispatch, and coinbase, slash, service-payment and split-rule transactions: straight-line lists, and for coinbase one loop over the outputs simpler than that of a transfer.
- AssembleTx has no caller.
- The suggested fee, account balances, mempool, network endpoints, error tables and the growth of the shared error messages.
- BlockTransaction and the mempool on withdrawals, which pass no store and panic.
