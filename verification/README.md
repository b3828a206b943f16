# Multisig: a verified model

A multisig account holds a list of owners and a threshold. An owner proposes a list of instructions, owners
approve it, and once enough have approved, any owner executes it: the instructions run in order, all or nothing,
with the multisig's derived address as an extra signer. The owners and the threshold themselves change only in
this way. An owner change advances a sequence number, which makes every pending proposal stale.

The project models that program in two layers and proves that the lower one computes the upper one.

- The typed layer (`Protocol.dfy`) is the protocol as functions on a map of accounts, every check in the source's
  order with the source's error. `History.dfy` makes runs of it and records, from the accepted calls alone, who
  created, proposed, signed and changed what. The theorems about whole runs are here: `Invariant`, `Batch`, `Runs`,
  `Approvals`, `Authorisation`, `Lifecycle`, `Epochs`, `Configuration`, `Lamports`, `Laws`, `Acceptance` (what each
  handler answers, and exactly when it accepts), `NoLockout`, `Transfers`, and `Limits`, which holds the runs that show
  where the guarantees end.
- The byte layer (`Program.dfy`) is the program as it is written: a class whose account buffers are decoded,
  overwritten in place and closed, lengths computed with wrapping 64-bit arithmetic, batches run by a loop. It reads an
  account by its bytes alone. Every handler is proved to do, on what the bytes mean, what the typed function does,
  errors included; `RunCalls` carries this to whole runs without further hypotheses, so a theorem about runs is about
  the bytes, under the hypotheses it states. What the bytes mean includes which handler wrote them last; the class keeps
  that in a ghost field, for the proof only.

`Borsh.dfy`, `State.dfy` and `Instructions.dfy` are the byte layouts, after the section "Specification" of the Borsh
specification (borsh.io); `Bytes.dfy` writes the layouts out without codecs; `Layouts.dfy` is about telling the two
account types apart. `Client.dfy` interprets the
TypeScript client's schemas.

## How to read a run theorem

`Run(e, s0, calls)` says: the environment is valid, the program has written nothing in `s0`, no call is signed by a
derived address, multisigs are founded at clear addresses (see Hypotheses), and no multisig has 2^32 owner changes.
`At(e, s0, calls, n)` is the world before call `n`. A rejected call changes nothing. `Executes(e, w, c, x)`,
`Approves`, `Proposes` and `Cancels` say that call `c` was accepted in `w` as that instruction on the transaction
account `x`. `Signed(e, s0, calls, n, q, x, o, epoch)` says that an accepted
proposing or approving call that names multisig `q`, signed by `o` when `q` had seen `epoch` owner changes, belongs to
the proposal that is live at `x` before call `n`. `Describes(e, s0, calls, n, x, owners)` says of the approval vector
at `x` what program/src/state/transaction.rs:14 says: one flag for each of `owners`, set exactly when that owner signed.

## Hypotheses

- The derived address is an uninterpreted partial function of multisig address and nonce without collisions, and
  derived addresses never sign a call from outside.
- A nested call may name only accounts passed to its caller, may mark as signer only those that signed the caller and
  the executing multisig's derived address, and as writable only those writable in the caller.
- Another program's call is any list of two effects: moving lamports out of an account that is not this program's into
  any account, and rewriting an account that is not this program's. So it may credit this program's accounts, keeps
  the lamport total and does not call back. It may give an account to this program, but only zero-filled, as the
  runtime demands; `BlankIsInert` and `BlankForever` show that nothing is ever done with such an account. Its answers
  are parameters.
- A stored instruction of this program is one of the three administrative instructions.
- Multisigs are founded at clear addresses only. The two layouts carry no tag, so some byte strings read both as a
  multisig and as a transaction, and the program does not refuse them. What decides is the address of the multisig that
  the transaction names: its first four bytes lie where the other layout counts its owners (`DecodesAsBoth`). An address
  is clear (`Clear`) when a multisig with as many owners as that count says would exceed the 10240 bytes of an account,
  that is, when the count is above 319, as it is for all but one address in about 13 million; anyone can look before
  founding. `ClearSeparates` shows that this is enough, and `ClearIsExact` that for a count of at least 1 it is exactly
  the condition: every other address has data that reads as both. The program does not make this check, and the run
  theorems say nothing of multisigs founded at other addresses. (A count of 0 is excluded because of the zero-filled
  accounts above.)
- At most 255 owners at creation, where a theorem says so. Whole-run authorisation does not need it. Without it two
  casts to u8 lose their meaning. The clamp leaves a threshold of 0 exactly when the new list's length is a multiple of
  256 (`ClampKeepsThreshold`); `WideMultisigLosesItsThreshold` is a run in which it does, and in which one owner then
  takes over alone. The approval count is compared modulo 256 (`ThresholdTest`, for any number of owners);
  `CountWrapsAt256` is a run in which 256 approvals are too few for a threshold of 2.
- The lamport total fits in a u64, where a theorem says so.
- Arithmetic wraps: the release build (`package.json`, script `build`) has no profile that checks for overflow. `usize`
  has 64 bits.
- Accounts made in a nested call hold at most 10240 bytes, the runtime's limit.
- The flags of an account are those of the whole message, which the runtime merges.

## Where the code and its comments differ

- program/src/state/transaction.rs:14 describes the approval vector without reservation. What holds of every pending
  proposal, stale or not, is that its vector describes the owners its multisig had when it was proposed
  (`VectorOfAnyTransaction`). It describes the current owners if and only if they are as many and each flag is set
  exactly when the current owner at its place is among the flagged ones of that time (`VectorAgainstCurrentOwners`),
  so always while the sequence numbers agree (`ApprovalVectorMeaning`). `VectorMisleadsAfterSwap` is a run in which it
  does not: after the two owners have been listed in the other order, the first flag is set for an owner who never
  signed. The code guards approve and execute by the sequence number (`StaleIsDead`).
- program/src/instructions/common.rs:32-33 subtracts the new number of owners from the old, which is negative when a
  list grows back, as tests/setOwnersTest.ts:31-49 requires. `WrappedPaddingIsExact` shows that the wrapped result is
  the true one for every list that passes validation.

## Model

| member | source | states |
|---|---|---|
| Authorisation.Authorised | program/src/instructions/execute_transaction.rs:11-80 | In any run, if a multisig's configuration differs between two states, some call between them executed a proposal of that multisig which, at that moment, at least the threshold of distinct current owners had signed, as proposer or approver of that very proposal, in the current owner-set epoch |
| Acceptance.ExecutionIsAccepted | program/src/instructions/execute_transaction.rs:11-80 | In every state of a run, for every list of accounts and every stored list: an execution is accepted if and only if the first five accounts are a multisig, its derived signer, a live transaction of it with its sequence number, writable, a different writable refundee and a signing owner, the approving owners modulo 256 reach the threshold, and the stored instructions run; no other flag and no further account matters |
| Acceptance.ValidateAnswer | program/src/instructions/execute_transaction.rs:50-80 | For every list of accounts execute's checks answer with the error of the first condition that fails, in the source's order, and otherwise hand on the derived signer, both accounts and what they read as |
| Acceptance.ExecuteAnswer | program/src/instructions/execute_transaction.rs:11-39 | Execute answers with the first error of its checks, its batch and its close |
| Acceptance.ApproveReadyIff | program/src/instructions/approve_transaction.rs:9-44 | In a reachable state an approval is accepted if and only if a signing owner approves a writable live transaction of the named multisig with its sequence number |
| Acceptance.ApproveAnswer | program/src/instructions/approve_transaction.rs:9-44 | For every list of accounts: the error of the first condition that fails, in order, or exactly one flag set in exactly one account |
| Acceptance.CancelReadyIff | program/src/instructions/cancel_transaction.rs:9-44 | In a reachable state a cancellation is accepted if and only if a signing owner names a writable live transaction of the multisig, stale or not, and another writable account as refundee |
| Acceptance.CancelAnswer | program/src/instructions/cancel_transaction.rs:9-44 | For every list of accounts: the error of the first condition that fails, in order, or the close |
| Acceptance.CloseAnswer | program/src/instructions/common.rs:11-21 | A close is refused exactly when the sum leaves u64; otherwise the balance moves, the account is an empty one of the system program, and no other is touched |
| Acceptance.ProposeReadyIff | program/src/instructions/propose_transaction.rs:60-123 | In a reachable state, with a signing owner, the system program, rights, an unused address, a payer with the rent and a size within bounds, a list of any length is accepted exactly when it is not empty, and the empty one is answered with MissingInstructions; otherwise none is |
| Acceptance.ProposeAnswer | program/src/instructions/propose_transaction.rs:60-123 | For every list of accounts: the error of the first condition that fails, in order, or exactly the proposal, with the proposer's flag alone, in an account that holds exactly the rent of its size, at the payer's cost alone |
| Acceptance.CreateAnswer | program/src/instructions/create_multisig.rs:24-74 | For every list of accounts: the error of the first condition that fails, in order, or exactly the given configuration in an account that holds exactly the rent of 14 + 32 * owners bytes, at the payer's cost alone |
| Acceptance.FoundingCosts | program/src/instructions/create_multisig.rs:45-54 | Every accepted creation moves exactly the rent of 14 + 32 * owners bytes from the payer to the new account, and nothing else |
| Acceptance.ProposalCosts | program/src/instructions/propose_transaction.rs:90-99 | Every accepted proposal moves exactly the rent of its size from the payer to the new account, and nothing else |
| Acceptance.AdminAnswer | program/src/instructions/common.rs:23-76 | The three administrative instructions: the error of the first condition of authority and arguments that fails, or exactly the described configuration, padding of zeros included, in exactly the named account |
| Acceptance.InvokeAnswer | program/src/instructions/execute_transaction.rs:21-34 | One stored instruction: refused rights, a nested administrative call or its error, or what the called program answers |
| Acceptance.ProcessAnswer | program/src/processor.rs:65-93 | Undecodable data is answered with InvalidInstructionData; each instruction goes to its own handler |
| Transfers.TransferIsExecuted | program/src/instructions/execute_transaction.rs:11-39 | After any run a ready execution of one stored transfer of another program continues the run: the recipient has the amount, the derived signer that much less, the transaction account is closed into the refundee, no other account is touched |
| Transfers.OrdinaryTransfer | ts/instructions/executeTransaction.ts:15-30 | A run in full: founding 2 of 3, proposal, approvals, and an execution with a read-only multisig account that transfers 300 lamports |
| Authorisation.ChangeNeedsExecution | program/src/instructions/set_owners.rs:16-35 | A multisig never disappears, and its data changes over a stretch of a run only if the stretch holds an accepted execution that names it |
| Authorisation.ExecutionIsBacked | program/src/instructions/execute_transaction.rs:66-77 | Every accepted execution of a run is backed by a set of current owners, at least as large as the threshold, each of whom signed the live proposal in the current epoch |
| Authorisation.MultisigFrame | program/src/processor.rs:65-93 | No instruction or outside effect other than an execution naming the multisig alters its data |
| Authorisation.ExecuteReach | program/src/instructions/execute_transaction.rs:14-38 | An executed batch, whatever it stores, alters the data of no program account but its own multisig and the transaction account it closes |
| Authorisation.ThresholdTest | program/src/instructions/execute_transaction.rs:76-77 | For any number of owners: passing the u8 count means that the number of distinct approving owners modulo 256, hence that number itself, is at least the threshold, and being turned away by it means that the number modulo 256 is below; with at most 255 founding owners, that the number itself is |
| Authorisation.CountIsCardinality | program/src/instructions/execute_transaction.rs:76 | For distinct owners the number of set flags is the number of approving owners |
| Approvals.ApprovalVectorMeaning | program/src/state/transaction.rs:14-17 | In every reachable state no live transaction is ahead of its multisig, whose sequence number counts its owner changes; and the vector of one that is not behind describes the current owners, who alone have signed |
| Epochs.VectorOfAnyTransaction | program/src/state/transaction.rs:14-17 | In every reachable state every live transaction, stale or not, was made by a proposing call of the run that names its multisig and carries exactly its instructions, and since which it has not ended; it has the sequence number of that moment, and its vector describes the owners its multisig had then, who alone have signed |
| Epochs.VectorAgainstCurrentOwners | program/src/state/transaction.rs:14-15 | The vector describes the current owners if and only if they are as many as at proposal time and each flag is set exactly when the current owner at its place is among the flagged ones of that time |
| Limits.VectorMisleadsAfterSwap | program/src/state/transaction.rs:14-15 | A run in which it does not: two owners, a pending proposal signed by the first, then the owners swapped; the first flag is set though the first owner never signed |
| Epochs.EpochHasOneOwnerList | program/src/instructions/common.rs:34-36 | Between two states of a run with the same count of owner changes a multisig's owners are the same list |
| Batch.BatchKeepsOwners | program/src/instructions/common.rs:29-36 | A batch that counts no owner change of its multisig leaves its owners as they are |
| Configuration.ConfigurationIsDescribed | program/src/instructions/execute_transaction.rs:16-38 | Over any stretch of a run a multisig goes from its configuration at the start to the one that the instructions executed for it in the stretch describe, in their order, and nothing else |
| Configuration.ConfigurationSinceFounding | program/src/instructions/create_multisig.rs:38-56 | A multisig's configuration is determined by its founding and the instructions executed for it since |
| Configuration.ExecuteDescribes | program/src/instructions/execute_transaction.rs:16-38 | An accepted execution leaves exactly the configuration that the administrative instructions of its proposal describe, applied from left to right |
| Configuration.ExecutedWasProposed | program/src/instructions/propose_transaction.rs:84-100 | The instructions of every accepted execution are those that an earlier call of the run carried, which made the proposal and since which it has not ended |
| Layouts.DecodesAsBoth | program/src/state/transaction.rs:20-26 | If bytes read both as a multisig and as a transaction, the first four bytes of the address named by the transaction count the owners of the multisig, and the bytes have room for them |
| Layouts.ClearIsExact | program/src/state/multisig.rs:16-22 | For an address with a nonzero count, some data within the limit reads both as a multisig and as a transaction of that address if and only if the address is not clear |
| Approvals.SignaturesAreCalls | program/src/instructions/approve_transaction.rs:21-25 | The signatures recorded for a live proposal are exactly the accepted signing calls since it was proposed |
| Approvals.ProposalStep | program/src/instructions/propose_transaction.rs:75-100 | How any call moves the record of a proposal: proposing starts it with the proposer's signature alone, approving adds one, executing and cancelling end it, nothing else touches it |
| Laws.ApproveStaysInRange | program/src/instructions/approve_transaction.rs:21-23 | In a reachable state the approver's index never lies outside the approval vector |
| Laws.ApprovalOrderIsIrrelevant | program/src/instructions/approve_transaction.rs:21-25 | On a current proposal, two lists of approvers with the same members, in any order and with any repetitions, have the same outcome: same accounts or same refusal |
| Laws.ApprovalsMark | program/src/instructions/approve_transaction.rs:9-27 | A list of approvals succeeds exactly when all its members are owners, and then sets exactly their flags |
| Runs.Reachable | program/src/processor.rs:65-93 | Every state of every run satisfies the invariant on configurations, live proposals, approval vectors and sequence numbers |
| Runs.NextKeepsInv | program/src/processor.rs:65-93 | Every instruction, accepted or not, and every outside effect keeps the invariant |
| Runs.AdminNeverFromOutside | program/src/instructions/common.rs:57-62 | The administrative instructions always fail when called from outside |
| Invariant.CreateKeepsInv | program/src/instructions/create_multisig.rs:24-74 | Creation establishes the invariant for the new multisig and keeps it elsewhere |
| Invariant.ProposeKeepsInv | program/src/instructions/propose_transaction.rs:60-123 | A proposal's vector is aligned with the owners and records its proposer only |
| Invariant.ApproveKeepsInv | program/src/instructions/approve_transaction.rs:9-44 | An approval keeps vector and signatures in agreement |
| Invariant.AdminFacts | program/src/instructions/common.rs:44-76 | In a reachable state an administrative instruction succeeds only on a multisig whose derived address has signed, and is then exactly one change of that account |
| Invariant.AdminKeepsInv | program/src/instructions/common.rs:23-42 | Each administrative change keeps every configuration sound and every pending proposal either aligned or stale |
| Invariant.CloseKeepsInv | program/src/instructions/common.rs:11-21 | Closing a transaction account keeps the invariant, with the proposal forgotten |
| Invariant.UniqueIsDistinct | program/src/errors.rs:80-88 | The pairwise check accepts exactly the lists without duplicates |
| Batch.ExecuteKeepsInv | program/src/instructions/execute_transaction.rs:11-39 | A validated batch and its close keep the invariant |
| Batch.BatchKeepsInv | program/src/instructions/execute_transaction.rs:17-36 | A successful batch, at any length and with any mixture of external and administrative calls, keeps the invariant and changes no program data but the executing multisig's |
| Batch.BatchConcat | program/src/instructions/execute_transaction.rs:17-36 | The batch runs from left to right and stops at the first failure: it may be cut anywhere, the first part's failure is the whole's, otherwise the second part continues from the first part's state |
| Batch.AnswerOfCall | program/src/instructions/execute_transaction.rs:17-36 | The k-th call of another program in a batch is decided by the k-th answer |
| Batch.InvocationOfStored | program/src/instructions/execute_transaction.rs:21-33 | The runtime call keeps program, data, accounts in order and writable flags; only the derived address's signer flag changes, and it is set |
| Batch.OnlyOwnSigner | program/src/instructions/execute_transaction.rs:28-34 | A derived address counts as a signer in a batch only if it is the executing multisig's own |
| Batch.AdminFromBatch | program/src/instructions/common.rs:44-62 | An administrative instruction that succeeds inside a batch is about the executing multisig, and touches that one only |
| Lifecycle.ConfigurationForever | program/src/instructions/common.rs:29-76 | From creation with n owners on: distinct owners, between 1 and n of them, threshold within their number and at least 1 when n is below 256, the creation nonce, the creation capacity, a padding of exactly 32 zero bytes for every owner it lacks; and an owner list is accepted exactly when it has no duplicates, is not empty and has at most n members |
| Lifecycle.LiveStoresSomething | program/src/instructions/propose_transaction.rs:121 | Every live transaction of every reachable state stores at least one instruction |
| Lifecycle.AtMostOnce | program/src/instructions/execute_transaction.rs:38 | Between an execution or cancellation at an address and any later execution, cancellation or approval there lies a new accepted proposal there |
| Lifecycle.ClosedUntilProposed | program/src/instructions/common.rs:11-21 | An address without a live proposal rejects approve, execute and cancel until one is proposed there |
| Lifecycle.FreshProposal | program/src/instructions/propose_transaction.rs:75-100 | A proposal is made only at an address without one, has the current sequence number, one flag per owner, and exactly one flag set, the proposer's |
| Lifecycle.StaleIsDead | program/src/instructions/approve_transaction.rs:39 | Once a proposal's sequence number is behind its multisig's, no continuation of the run approves or executes it |
| Lifecycle.StaleRejects | program/src/instructions/execute_transaction.rs:67 | A stale proposal is neither approved nor executed by any call |
| Lifecycle.SeqnoGrows | program/src/instructions/common.rs:36 | No call lowers a multisig's sequence number |
| Lifecycle.BlankIsInert | program/src/instructions/execute_transaction.rs:61-66 | A zero-filled account given to the program by another is used by no accepted instruction as its multisig or transaction, and no call changes its owner or data |
| Lifecycle.BlankForever | program/src/processor.rs:65-93 | Such an account stays as it is for the rest of any run |
| State.ZeroedMultisig | program/src/state/multisig.rs:17-22 | Zero-filled bytes read as no multisig but one without owners and padding |
| State.ZeroedReadsAsMultisig | program/src/state/multisig.rs:17-22 | 14 zero bytes do read as a multisig, without owners |
| State.ZeroedTransaction | program/src/state/transaction.rs:21-26 | Zero-filled bytes read as no transaction but one without flags, of the multisig at the zero address |
| Lifecycle.Isolated | program/src/instructions/common.rs:44-62 | A stretch of a run whose instructions all name one multisig, executed administrative batches included, leaves every other multisig and its pending proposals, votes included, as they were |
| NoLockout.EveryConfigurationIsReachable | program/src/instructions/set_owners_and_change_threshold.rs:17-38 | After any run, with at most 255 founding owners: for every list of distinct owners within the founding number and every threshold between 1 and its length, at least a threshold of owners with keys, an unused address and a funded payer suffice for calls, signed by key holders alone, that lead to exactly that configuration; the result is again a run while the change counter is below its last value |
| NoLockout.GoalIsReached | program/src/instructions/execute_transaction.rs:11-39 | For any number of owners and any administrative instruction the multisig accepts: a group of distinct owners whose number modulo 256 reaches the threshold gets exactly the configuration the instruction describes by proposing, approving and executing, in any order of the group |
| NoLockout.VotesAreCast | program/src/instructions/execute_transaction.rs:66-77 | For any number of owners and any stored instruction that fits: after the proposal and approvals of a group exactly the group's flags are set, and execution passes its checks if and only if the group's number modulo 256 is at least the threshold; otherwise it is refused for want of approvals |
| NoLockout.PlanIsSigned | program/src/instructions/execute_transaction.rs:26-34 | The calls that reach the goal are signed by holders of keys only |
| NoLockout.FoundingSucceeds | program/src/instructions/create_multisig.rs:24-74 | After any run, where a derived address exists for an unused clear address and a nonce, one call of a funded payer founds a multisig of exactly the given distinct owners, as many as an account holds, and any threshold between 1 and their number modulo 256; the payer has paid exactly the rent; the result is again a run |
| Lamports.Conservation | program/src/instructions/common.rs:11-21 | Every run keeps the sum of all lamports |
| Lamports.CloseMoves | program/src/instructions/common.rs:11-21 | A close moves the whole balance to the refundee, fails exactly when the sum leaves u64, and never when the total fits in u64 |
| Lamports.RentIsRecoverable | program/src/instructions/cancel_transaction.rs:9-44 | In every reachable state each live transaction, stale or not, is cancelled by any current owner's signed call: the account is emptied and the refundee has its whole balance |
| NoLockout.RentIsRecovered | tests/cancelTransactionTest.ts:36-61 | After any run, the cancelling call of any current owner with a key continues the run, for every live transaction, stale or not, to a state where its account is empty and the refundee has its whole balance |
| Laws.CombinedIsSequence | program/src/instructions/set_owners_and_change_threshold.rs:17-38 | The combined instruction is set-owners then change-threshold as one atomic step: same accepted inputs, same error, same final accounts |
| Laws.WrappedPaddingIsExact | program/src/instructions/common.rs:29-35 | For every validated list the padding length computed modulo 2^64 is the true one, also where the subtraction is negative, and the capacity is kept |
| Laws.ResizingKeepsCapacity | tests/setOwnersTest.ts:31-49 | Any sequence of shrinks and growths, computed with the wrapping padding length, is accepted exactly when every list has no duplicates, is not empty and fits the original capacity; it keeps the capacity and ends with the last list |
| Laws.ClampKeepsThreshold | program/src/instructions/common.rs:37-39 | After an owner change the threshold is within the owners; it is at least 1 exactly when the number of owners is not a multiple of 256; below 256 it is the smaller of the old threshold and that number |
| Limits.WideMultisigLosesItsThreshold | program/src/instructions/common.rs:37-39 | A run: 258 owners found a multisig with threshold 2, two of them have 256 made its owners, the threshold becomes 0, and calls that owner 0 alone signs for the group then make owner 0 the sole owner |
| Limits.CountWrapsAt256 | program/src/instructions/execute_transaction.rs:76-77 | A run in which 256 of 258 owners approve a proposal of a multisig with threshold 2, and execution is refused for want of approvals |
| State.MultisigRoundTrip | program/src/state/multisig.rs:7-22 | Decoding undoes encoding, and bytes that are accepted are the encoding of the value read |
| State.TransactionRoundTrip | program/src/state/transaction.rs:8-26 | The same for transactions with their nested instruction lists |
| Bytes.MultisigLayout | program/src/state/multisig.rs:7-14 | A multisig's data is, byte by byte: count of owners, owners, threshold, nonce, sequence number, count and bytes of padding, a count being four bytes of which byte i is digit i in base 256 |
| Bytes.MultisigBegins | program/src/state/multisig.rs:7-14 | Its first four bytes are the number of owners, least significant byte first |
| Bytes.TransactionLayout | program/src/state/transaction.rs:8-18 | A transaction's data byte by byte, with its nested instructions, accounts and flags |
| Bytes.InstructionLayout | program/src/processor.rs:19-63 | Each instruction's data byte by byte: its discriminator 0 to 7, then its fields |
| Bytes.U32Written | program/src/state/multisig.rs:12 | Byte i of the u32 encoding is v / 256^i % 256 |
| Bytes.U32Read | program/src/state/multisig.rs:12 | The reader returns the sum of b[i] * 256^i |
| State.MultisigLen | program/src/state/multisig.rs:24-30 | The hand-written length is the length of the encoding |
| State.TransactionLen | program/src/state/transaction.rs:28-33 | The hand-written length is the length of the encoding |
| State.InstructionDataLen | program/src/instructions/propose_transaction.rs:38-44 | The hand-written length of a stored instruction is the length of its encoding |
| Instructions.DecodeOfEncode | program/src/processor.rs:19-63 | Decoding undoes encoding for all eight instructions |
| Instructions.EncodeOfDecode | program/src/processor.rs:65-71 | Every accepted byte string is the encoding of the instruction read from it |
| Client.ClientToProgram | ts/instructions/proposeTransaction.ts:16-56 | What the TypeScript schemas write for an instruction, the program reads back as that instruction |
| Client.ClientAgrees | ts/instructions/index.ts:10-19 | The client's bytes, written by its own rules for counts and discriminators, are the program's encoding, byte for byte |
| Borsh.VecLawful | program/src/state/transaction.rs:8-18 | A container of lawfully coded elements is lawfully coded: reading undoes writing whatever follows, and encodings are unique |
| Protocol.Position | program/src/instructions/approve_transaction.rs:21-22 | The first index of the owner, absent exactly for non-owners |
| Program.ExactBuffers | program/src/state/multisig.rs:17-30 | Whenever the ledger is valid, the data of each account the program has written is the encoding of its value and as long as its `len()` |
| Program.MultisigWriteIsReadable | program/src/instructions/common.rs:25-40 | A multisig written over a buffer is read back if and only if it fills the buffer; a shorter one leaves bytes that are rejected |
| Program.TransactionWriteIsReadable | program/src/instructions/approve_transaction.rs:25 | The same for a transaction |
| Program.SerializeInto | program/src/instructions/common.rs:25 | Writing into a slice replaces its beginning and keeps its tail, and fails when the value is longer |
| Program.Ledger.StoreMultisig | program/src/instructions/common.rs:25-40 | An in-place write of a multisig of the buffer's size leaves exactly that multisig, and every other account as it was |
| Program.Ledger.LoadMultisig | program/src/state/multisig.rs:17-22 | A checked read decodes the account's bytes, whoever wrote them, and agrees with what the account means |
| Program.Ledger.LoadTransaction | program/src/state/transaction.rs:21-26 | A checked read decodes the account's bytes, whoever wrote them, and agrees with what the account means |
| Program.Ledger.CheckAuthority | program/src/instructions/set_owners.rs:23-31 | The byte-level checks of the administrative handlers answer as the typed ones |
| Program.Ledger.Validate | program/src/instructions/execute_transaction.rs:50-80 | The byte-level validation of execute answers as the typed one, in its order of errors |
| Program.Ledger.ExecuteSetOwners | program/src/instructions/common.rs:29-42 | The field-by-field update with wrapping arithmetic writes the intended configuration into the same buffer |
| Program.Ledger.SetOwners | program/src/instructions/set_owners.rs:16-35 | On what the bytes mean: the owner change or its first error |
| Program.Ledger.ChangeThreshold | program/src/instructions/change_threshold.rs:16-35 | On what the bytes mean: the threshold change or its first error |
| Program.Ledger.SetOwnersAndChangeThreshold | program/src/instructions/set_owners_and_change_threshold.rs:17-38 | Two writes of one buffer amount to the combined change, or its first error |
| Program.Ledger.CreateMultisig | program/src/instructions/create_multisig.rs:24-74 | On what the bytes mean: a new multisig paid for by the payer, or the first error |
| Program.Ledger.ProposeTransaction | program/src/instructions/propose_transaction.rs:60-123 | On what the bytes mean: a new proposal, or the first error |
| Program.Ledger.ApproveTransaction | program/src/instructions/approve_transaction.rs:9-44 | On what the bytes mean: one flag set in place, or the first error |
| Program.Ledger.CloseTransactionAccount | program/src/instructions/common.rs:11-21 | The writes of the close, in order, amount to the typed close |
| Program.Ledger.CancelTransaction | program/src/instructions/cancel_transaction.rs:9-44 | On what the bytes mean: the close, or the first error |
| Program.Ledger.RunStored | program/src/instructions/execute_transaction.rs:17-36 | The loop over stored instructions computes the left-to-right fold, or its first error |
| Program.Ledger.ExecuteTransaction | program/src/instructions/execute_transaction.rs:11-39 | On what the bytes mean: validated batch and close, or the first error |
| Program.Ledger.ProcessInstruction | program/src/processor.rs:65-93 | On success the bytes mean what the typed step gives; on failure the error is the same and every account is as before |
| Invariant.ReadsMultisig | program/src/state/multisig.rs:17-22 | In a reachable state, what reads as a multisig with room for an owner is one of the program's multisigs, at a clear address |
| Invariant.ReadsTransaction | program/src/state/transaction.rs:21-26 | In a reachable state, what reads as a transaction of a multisig at a clear address is one of the program's transactions |
| Program.Ledger.RunCalls | program/src/processor.rs:65-93 | A whole run over bytes ends in accounts that mean exactly those of the typed run, whatever its length |

## Left out

- Stored instructions that call this program's own create, propose, approve, execute or cancel: they get an error of
  their own (`SelfCallNotModelled`). The claims about single execution and isolation are meant without them.
- Runs in which a multisig is founded at an address that is not clear, see Hypotheses. The refinement from bytes to
  the typed layer covers them; the theorems about runs do not. tests/accountTypeConfusionTest.ts gives examples of
  accounts of the wrong kind being refused.
- Conditions the runtime adds (the administrative handlers' account being writable, rent exemption of every account,
  compute, depth and packet limits): the model permits more runs, so the claims about all runs cover theirs.
- NoLockout.EveryConfigurationIsReachable: does not say that the calls fit in one packet or in one transaction.
- Several instructions in one transaction: a stretch of a run when all succeed, no calls at all when one fails.
- Aliasing of account objects: accounts are looked up by address, so two positions with one address are one account.
- In-place buffers: a buffer is an array while it is written (`SerializeInto`); between writes the ledger holds it as
  a sequence in a map of accounts.
- The hash behind derived addresses, signature verification, the rent formula, the system and token programs beyond
  the rules under Hypotheses.
- Numeric error codes, error text and logging: errors are kept as identities.
- The account lists of the TypeScript instruction builders, and numbers above 255 given to them beyond reduction
  modulo 256.
- The Shank and security.txt annotations, ts/multisigDsl.ts, the tests and the scripts.
