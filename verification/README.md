# TAP: the payment channel and its streaming protocol, verified

TAP pays for a model's output token by token. A consumer escrows a deposit in an on-chain
channel; while tokens stream, it signs a growing chain of commitments ("you may take this much
so far"); the producer checks them, paces itself by them and finally settles the last one. This
project models that system in Dafny and proves that its parts fit together:

    dafny verify dfyconfig.toml

## The four layers

1. **The on-chain program** (`TapProgram.dfy`, `LedgerRuns.dfy`, `ChannelState.dfy`). The class
   `Program` has one method per instruction, branch by branch as the Rust handlers and their
   account constraints; each is proved to do to the ledger exactly what `Execute` says. Safety,
   conservation, finality and liveness are then proved over whole runs: any interleaving of
   instructions by anybody, on any number of channels, with the clock advancing and tokens
   sent to vaults from outside in between.
2. **Off-chain metering** (`Session.dfy`, `SessionMeter.dfy`, `SessionTurns.dfy`, `TsSession.dfy`, `Producer.dfy`,
   `ProducerRuns.dfy`). The consumer sessions of both SDKs and the producer's `wrap_stream`,
   `ActiveChannel` and verifier are classes and loops. Each is proved to follow a state machine
   in which a commitment may arrive, in any form, at every `await`; the invariants of that
   machine hold in every state of every run.
3. **The bridge** (`Netting.dfy`, `EndToEnd.dfy`, `PauseDeadlock.dfy`, `StaleSettlement.dfy`,
   `InFlightSettle.dfy`, `OwnDataNeeded.dfy`). What the producer holds
   is what the chain pays: one settlement stands for all commitments, the order of delivery does
   not matter, and in the composed system the producer's loss and the consumer's cost are
   bounded in every run.
4. **Byte-level glue** (`Commitment.dfy`, `Ed25519.dfy`, `Json.dfy`, `Sse.dfy`, `Settler.dfy`,
   `FailedUpstream.dfy`, `Quote.dfy`). The signed 60 bytes, the signature instruction and the scanner that looks for
   it, the account layout and its decoder and filters, the token stream's printer against both
   parsers, and the prompt-token quote.

`Types.dfy` holds bounded integers and little-endian numbers. Rust's widths and saturating
operations are explicit; Python's integers are unbounded and its encoder fails outside the
widths, as in the source.

## What is assumed

- **Signatures.** Validity is one abstract predicate, shared by producer and runtime. In
  `EndToEnd` a valid signature under the session key covers only bytes the session has signed
  (`Unforged`). `Netting` and `ProducerRuns` assume nothing of the kind: commitments there may be
  dishonest.
- **The runtime.** A transaction that touches the program has passed the Ed25519 program, which
  verifies every signature its instructions name and follows the three instruction indices of
  the offset table (`Ed25519.RuntimePasses`). This is the platform's documented behaviour, not
  code of this repository.
- **Self-contained signature instructions.** `EndToEnd` assumes that in a transaction that
  settles or disputes the channel, every instruction the scanner can read a triple from points
  all its fields at its own data (`Ed25519.OwnDataOnly`). **The program does not enforce this.**
  settle.rs:91-98 documents the indices as 0xFFFF and settle.rs:103-121 never reads them. The
  SDK's builder writes 0xFFFF. `Ed25519.FoundIsValidIff` shows the assumption is exactly what is
  needed at the scanner, and `OwnDataNeeded.BoundNeedsOwnData` that it cannot be dropped: without
  it the only bound on the payout is the deposit.
- **The terms.** Consumer, producer and chain hold the same terms (`ConfigOk`), as
  sdk/python/tap/consumer/client.py:113-144 and sdk/python/tap/producer/server.py:317-328 arrange;
  `EndToEnd.OpenStartsTheProtocol` shows that an accepted `open_channel` on those terms starts the
  protocol in such a state.
- **The network.** Commitments may be lost, repeated, reordered and delayed without limit, and a
  post that fails for the consumer may still have arrived. Tokens arrive in order or the stream
  breaks. At most one stream runs on a channel.

## Reading the main results

- `EndToEnd.BoundedLoss`: in every run, payout <= prepaid + received value <= prepaid + delivered
  value. And for what the producer held at any moment of the run: once that commitment or a later
  one is on record, the payout is above prepaid + value delivered by then - max_unpaid - one
  token; with exactly it on record (none at all included) the payout is what the producer counted
  then. `EndToEnd.PayoutIsMeterOfRecord`: the payout is always the exact price of the tokens the
  commitment on record covers. `EndToEnd.CloseSettlesTheRun` turns the bound into wallet balances.
- The producer's own `settle` carries what it held when it was built, and lands later, while
  commitments still come in. `EndToEnd.ProducerSettleRecordsIff`: it is accepted **if and only
  if** the channel is still Active and not expired when it lands, and what it records is the
  producer's latest commitment **if and only if** none was accepted in between. Built when the
  stream is over, it secures the lower bound for everything delivered
  (`EndToEnd.OwnSettleSecuresBound`), but not the final commitment of a session that ended by the
  sentinel: that is signed after the settle is built, and
  `InFlightSettle.FinalCommitmentMissesSettle` gives an honest run in which it is accepted and
  never recorded. What is then lost is the unfinished batch, fewer than k_max authorized tokens
  (`InFlightSettle.MissedFinalCommitment`).
- If anybody settles an older commitment first, the producer's settle is refused, and unless
  somebody disputes, which any holder of the commitment can (`EndToEnd.AnyPartyCanRecord`) and no
  code in the repository does, the older amount is final:
  `StaleSettlement.StaleSettlementStands` gives the run, with the payout below the bound.
- `Netting.NettingEquivalence`: settling only what the producer holds equals submitting every
  commitment, at every moment, **if and only if** the first commitment the producer accepted has
  sequence >= 1 or is worth only the floor; a validly signed one of sequence 0 breaks it
  (`Netting.SequenceZeroDoesNotNet`). The verifier does not check this (verifier.py:23-31
  compares sequences only from the second commitment on), while the chain starts at sequence 0
  and wants strictly more; sessions, whose sequences start at 1, always meet it
  (`EndToEnd.SessionSignsAChain`), and then the highest commitment submitted in time is what is
  recorded, in whatever order they turn up (`Netting.HighestInTimeIsRecorded`).
- `PauseDeadlock.DeadlockFreeIff`: the stream can pause for good, everybody honest and nothing
  lost, **if and only if** (k_max - 1) * price >= max_unpaid.
- `LedgerRuns.RunsAreSafe`, `FinalOnceClosable`, `AlwaysClosableAfterDeadline`: tokens are
  conserved, every open channel is funded by its own vault, a channel past its deadline is final,
  and no channel can be kept from that point beyond duration + dispute window. Two things can
  still keep it from closing: the clock ending before its deadline
  (`LedgerRuns.StuckIffClockEnds`), and tokens sent to its vault by anybody from outside, since a
  vault that is not emptied cannot be closed; `close` succeeds if and only if its time guard
  holds and the vault holds exactly the deposit (`LedgerRuns.CloseSplitsDeposit`), which it does
  unless there was such a transfer (`LedgerRuns.OnlyDonationsOverfill`).
- `Sse.IterSse` and `Sse.RoundTrip`: however the stream is cut into chunks, the parser yields the
  events of the whole, and the producer's stream reads back as its tokens in both SDKs.
  `Sse.FailedStream`: after an upstream failure the SDKs disagree; Python raises, TypeScript
  yields one more, empty token and finishes normally, and its session signs for that token too
  (`FailedUpstream.FailureIsMeteredInTypeScript`).
- `SessionMeter.TruncatedStreamIsSignedIff`: a stream that ends without its sentinel leaves
  everything signed **if and only if** the number of tokens is a sum of first batch sizes
  (0, 1, 3, 7, ...), and otherwise exactly the unfinished batch, fewer than k_max tokens.
  `SessionMeter.EveryEndingLeaves` says the same of every way a stream can end.

## Where the code and its documentation differ

The model follows the code.

- close.rs:30-31 says that after an expiry without settlement the consumer reclaims the full
  deposit; the code below it pays the producer the prepaid floor first (close.rs:43).
- Section 4.2.4 of the whitepaper transfers funds and closes the channel at settlement; the program
  only records at `settle` and `dispute`, and moves funds at `close`.
- Section 4.3 of the whitepaper and the module docstring of batching.py (lines 3-6) speak of congestion
  control that grows K under pressure and decreases it additively; the code doubles under low pressure and halves under high. In
  a session the halving never happens: `update` runs right after the counter it looks at was
  zeroed, so K only doubles (`SessionMeter.ScheduleInClosedForm`).
- Section 4.3 of the whitepaper caps K so that K * price stays within max_unpaid, which would rule the pause
  deadlock out; the client's `k_max` defaults to 16 and is tied to nothing (client.py:81, 168).
- Section 4.6 of the whitepaper pauses at the trailing buffer; `should_pause` looks at max_unpaid only
  (halt.py:19-20).
- state/channel.rs:61-63 describes `expires_at` as a deadline after which `close` is permitted
  regardless of the dispute window; in Settling, `close` looks at the dispute window only.

## Model

| member | source | states |
|---|---|---|
| `Commitment.EncodeCommitmentBytes` | sdk/python/tap/protocol/codec.py:27-37 | the Python encoder fails exactly on negative or oversized fields |
| `Commitment.MessageBytesInto` | programs/tap/src/state/commitment.rs:29-37 | the Rust encoder, growing its buffer field by field, gives byte for byte what the Python one gives |
| `Commitment.MessageFields` | programs/tap/src/state/commitment.rs:27-37 | each of the five fields at its own offset in the 60 bytes |
| `Commitment.SignedBytesDetermineCommitment` | programs/tap/src/state/commitment.rs:12-37 | the 60-byte form is injective: equal signed bytes mean equal commitments |
| `Ed25519.Ed25519VerifyIx` | sdk/python/tap/chain/ed25519_ix.py:21-53 | builds the offset-table instruction, or fails exactly on a wrong key or signature length or a message over 65535 bytes |
| `Ed25519.VerifyEd25519Sibling` | programs/tap/src/instructions/settle.rs:77-127 | the scan loop succeeds iff some instruction of the transaction locates this very key, signature and message; it never indexes out of range |
| `Ed25519.BuiltCarriesItsTriple` | sdk/python/tap/chain/ed25519_ix.py:34-53 | what the builder wrote is what the scanner's offsets read |
| `Ed25519.ScannerFindsBuilt` | programs/tap/src/instructions/settle.rs:83-126 | a built instruction is found among arbitrary siblings; among built siblings nothing else is found |
| `Ed25519.FoundMeansValid` | programs/tap/src/instructions/settle.rs:73-76 | in a transaction the runtime let through whose readable signature instructions are self-contained, a found triple is a valid signature, whoever built it |
| `Ed25519.FoundIsValidIff` | programs/tap/src/instructions/settle.rs:91-122 | for an instruction the scanner reads a triple from, at any position, under any limits on the number and size of instructions: the triple is valid in every transaction the runtime lets through iff all three (non-empty) fields point at the instruction's own data, or one points where no transaction within the limits has anything |
| `Ed25519.ScannerAndRuntimeDisagree` | programs/tap/src/instructions/settle.rs:103-124 | a three-instruction transaction in which the scanner finds a triple the runtime never verified, since the index fields are not read |
| `Ed25519.SdkTransactionAcceptedIffValid` | sdk/python/tap/producer/settle.py:39-56 | the producer's transaction is always found by the scan, and passes the runtime iff its signature is valid |
| `TapProgram.Program.OpenChannel` | programs/tap/src/instructions/open_channel.rs:22-100 | escrows the deposit and records the terms, or reports the first failed check and changes nothing |
| `TapProgram.Program.SettleIx` | programs/tap/src/instructions/settle.rs:23-71 | records the commitment and starts the dispute window, or reports the first failed guard and changes nothing |
| `TapProgram.Program.DisputeIx` | programs/tap/src/instructions/dispute.rs:12-62 | replaces sequence and amount within the window, or reports the first failed guard and changes nothing |
| `TapProgram.Program.CloseIx` | programs/tap/src/instructions/close.rs:20-93 | splits the vault and removes channel and vault together, or reports the first failed guard and changes nothing |
| `TapProgram.PayOut` | programs/tap/src/instructions/close.rs:43-88 | both transfers and the vault's closure, all or nothing |
| `LedgerRuns.StepConserves` | programs/tap/src/instructions/close.rs:51-88 | no instruction creates or destroys tokens of any mint, over all wallets and vaults |
| `LedgerRuns.StepIsSafe` | programs/tap/src/lib.rs:33-168 | a step keeps the ledger invariant and changes no record and no vault but those of the channel it names |
| `LedgerRuns.RunsAreSafe` | programs/tap/src/instructions/open_channel.rs:52-84 | over every run, outside transfers included, each mint's supply is constant, each open channel's vault holds at least its deposit, Active means nothing recorded, Settling means prepaid <= recorded <= deposit |
| `LedgerRuns.OnlyDonationsOverfill` | programs/tap/src/instructions/open_channel.rs:52-62 | the vault of an open channel holds exactly the deposit unless somebody sent tokens to it from outside |
| `LedgerRuns.CloseSplitsDeposit` | programs/tap/src/lib.rs:128-168 | in a reachable ledger, for any accounts named, close succeeds iff they belong to the recorded producer and consumer (in the vault's mint where something is due), its time guard holds and the vault holds exactly the deposit; it pays the floor from Active and the recorded amount from Settling, refunds the rest without saturation and empties the vault |
| `LedgerRuns.OpenRecordsTerms` | programs/tap/src/instructions/open_channel.rs:34-84 | open is accepted iff the terms are sound and funded and the address unused; the record then holds each of the argument's terms in its own place, the vault the deposit |
| `LedgerRuns.PayeesAreThoseOfOpen` | programs/tap/src/lib.rs:155-165 | from open to close, whoever closes: the payout goes to a wallet owned by the producer named at open, the refund to one owned by its consumer |
| `LedgerRuns.CommitAcceptedIff` | programs/tap/src/instructions/settle.rs:26-59 | settle and dispute are accepted iff in their window, on a signed commitment that meets the terms; a settlement starts the window, a dispute changes sequence and amount and nothing else |
| `LedgerRuns.RefusalsInOrder` | programs/tap/src/instructions/dispute.rs:19-47 | settle and dispute report the first guard that fails, in source order |
| `LedgerRuns.OpenRefusalsInOrder` | programs/tap/src/instructions/open_channel.rs:34-62 | so does open_channel |
| `LedgerRuns.WindowNeverMoves` | programs/tap/src/instructions/dispute.rs:19-52 | over every run the dispute window, once started, is never moved |
| `LedgerRuns.RunEvolves` | programs/tap/src/instructions/dispute.rs:23-52 | over a channel's life its terms are fixed, sequence and payout never fall, and an unchanged sequence means an unchanged record |
| `LedgerRuns.OneWindowAtATime` | programs/tap/src/instructions/close.rs:24-35 | at every instant of every run an open channel is in exactly one of the settle, dispute and close windows, and only the instruction of that window is accepted on it |
| `LedgerRuns.FinalOnceClosable` | programs/tap/src/instructions/dispute.rs:19-21 | once closable, a channel's record never changes again and it stays closable until closed |
| `LedgerRuns.AlwaysClosableAfterDeadline` | programs/tap/src/constants.rs:13-19 | whatever anyone does, a channel is closable after duration + dispute window, at most 30 days and 600 seconds |
| `LedgerRuns.StuckIffClockEnds` | programs/tap/src/instructions/open_channel.rs:64-65 | in every run from open, a channel can at no time pass close's time guard iff its expiry (Active) or the end of its dispute window (Settling), computed without saturation, is not before the i64 maximum |
| `LedgerRuns.AcceptedAreBounded` | programs/tap/src/instructions/settle.rs:27-59 | one life of a channel accepts at most one instruction per distinct commitment above its recorded sequence, plus one |
| `ChannelState.DecodeChannelFrom` | sdk/python/tap/chain/channel_account.py:77-127 | the running-offset decoder reads each field at its fixed place, and fails on short data, a foreign discriminator or an unknown status |
| `ChannelState.DecodeSerialized` | programs/tap/src/state/channel.rs:17-88 | every channel serializes to 191 bytes that decode back to it, signed timestamps included |
| `ChannelState.SerializeDecoded` | sdk/python/tap/chain/channel_account.py:77-127 | whatever decodes serializes back to the bytes read: the decoder accepts nothing but serialized channels |
| `ChannelState.DecodesIff` | sdk/python/tap/chain/channel_account.py:80-107 | what decodes is exactly: enough bytes, the discriminator, a known status |
| `ChannelState.Layout` | programs/tap/src/state/channel.rs:17-88 | every field at its own offset in the 191 bytes |
| `ChannelState.NumberBytes` | programs/tap/src/state/channel.rs:76-87 | numbers are little-endian, timestamps two's complement |
| `Session.AdaptiveBatcher.Update` | sdk/python/tap/consumer/batching.py:34-47 | one adjustment of the batch size, which stays between 1 and k_max |
| `Session.AdaptsAtTheWatermarks` | sdk/python/tap/consumer/batching.py:43-47 | against the real ratio: halved, rounding down, exactly from 0.85 up, doubled up to the maximum exactly from 0.30 down, else kept |
| `Session.ConsumerSession.AbsorbToken` | sdk/python/tap/consumer/session.py:193-201 | one token: counters up by one, amount up by the price and capped at the deposit |
| `Session.ConsumerSession.Commit` | sdk/python/tap/consumer/session.py:206-229 | signs and posts the current amount under the next sequence; nothing when there is nothing to cover and no force; raises on a field out of range or a failed post |
| `Session.ConsumerSession.Stream` | sdk/python/tap/consumer/session.py:146-191 | the streaming loop is a run of the session machine; each chunk carries its token and the meter right after it |
| `SessionTurns.TurnInClosedForm` | sdk/python/tap/consumer/session.py:164-191 | the turn after n events, read off the events: which endings commit, with which sequence, amount, count and timestamp, and what each of sentinel, evaluator, silence, full batch, failed post and unsignable field leaves the session in |
| `SessionTurns.EvaluatorStops` | sdk/python/tap/consumer/session.py:178-181 | when the evaluator holds of all text received, the session ends there: halted after a forced commitment, or raised when it could not be signed or posted |
| `SessionTurns.HaltedOnlyByEvaluator` | sdk/python/tap/consumer/session.py:178-181 | nothing else ends in an evaluator's halt |
| `SessionTurns.TsTurnInClosedForm` | sdk/typescript/src/consumer/session.ts:115-172 | the same for the TypeScript loop: no silence test, every K-th token commits, numbers the header can carry |
| `SessionMeter.RunKeepsSession` | sdk/python/tap/consumer/session.py:146-229 | every state of every session run keeps meter, chain and schedule |
| `SessionMeter.MeterIsExact` | sdk/python/tap/consumer/session.py:193-204 | cumulative_paid = min(deposit, prepaid + tokens * price) at every step; while streaming, the unsigned value is at most that of the tokens since the last commitment, fewer than k_max |
| `SessionMeter.ChainIsMonotone` | sdk/python/tap/consumer/session.py:206-229 | commitments are numbered 1, 2, 3, ..., never fall, stay in [prepaid, deposit], each the exact price of the tokens it covers |
| `SessionMeter.NormalReturnIsCovered` | sdk/python/tap/consumer/session.py:165-181 | finishing or an evaluator's halt leaves a commitment covering every absorbed token |
| `SessionMeter.TruncatedStreamIsSignedIff` | sdk/python/tap/consumer/session.py:164-191 | a stream that ends without its sentinel leaves every token signed iff their number is a sum of first batch sizes; otherwise exactly the unfinished batch, fewer than k_max, is left |
| `SessionMeter.EveryEndingLeaves` | sdk/python/tap/consumer/session.py:164-229 | for every way a stream ends: a last commitment that was signed (posted or not) leaves nothing; end of input, breakage, silence or a field too large to sign leave exactly the unfinished batch |
| `SessionMeter.TruncatedStreamLeavesTokensUnsigned` | sdk/python/tap/consumer/session.py:164-191 | an instance: two tokens and no sentinel leave one unsigned |
| `SessionMeter.ScheduleInClosedForm` | sdk/python/tap/consumer/session.py:186-191 | after n commitments K = min(k_max, 2^n), and the tokens received are the first n batch sizes plus those since |
| `SessionMeter.CommitmentsAreFew` | sdk/python/tap/consumer/batching.py:31-47 | T tokens cost at most ceil(log2 k_max) + T / k_max + 1 commitments |
| `SessionMeter.StreamOnce` | sdk/python/tap/consumer/session.py:146-229 | a whole session as seen outside: chunk i shows the exact price of i + 1 tokens, every posted commitment is exact, a normal return covers all chunks |
| `TsSession.ConsumerSession.Turn` | sdk/typescript/src/consumer/session.ts:115-138 | one turn of the TypeScript loop is a step of its machine |
| `TsSession.ConsumerSession.SendCommit` | sdk/typescript/src/consumer/session.ts:149-172 | signs and posts under the next sequence; throws before the post on a number a double cannot hold exactly; the counter is reset only when the post returned |
| `TsSession.SameMeterInBothSdks` | sdk/typescript/src/consumer/session.ts:141-147 | at equal token counts the two SDKs have authorized the same amount, and so have any two commitments covering equally many tokens |
| `TsSession.FixedCadence` | sdk/typescript/src/consumer/session.ts:129-137 | T tokens have cost T / K commitments and leave T % K unsigned, while streaming and when the input just ends; a normal return leaves none |
| `Producer.AcceptCommitment` | sdk/python/tap/producer/verifier.py:16-47 | accepts and stores the commitment iff it passes every check in order; otherwise reports the first failure and changes nothing |
| `ProducerRuns.VerifierRefusesInOrder` | sdk/python/tap/producer/verifier.py:20-46 | the verifier reports the first check that fails, in source order |
| `Producer.Await` | sdk/python/tap/producer/server.py:242-258 | while the stream is suspended any number of commitments go through the verifier, each a step of the run |
| `Producer.PauseLoop` | sdk/python/tap/producer/wrap_stream.py:48-56 | the pause loop: sleeps, grace countdown and halt test, step for step; it proceeds only when unpaid value is below the limit |
| `Producer.WrapStream` | sdk/python/tap/producer/wrap_stream.py:44-80 | the whole generator follows the producer machine, wherever the event loop leaves it |
| `ProducerRuns.RunKeepsProducer` | sdk/python/tap/producer/wrap_stream.py:44-80 | every state of every producer run keeps the invariant |
| `ProducerRuns.ExposureIsBounded` | sdk/python/tap/producer/wrap_stream.py:47-74 | at every point of every run, commitments honest or not, delivered value exceeds authorized output by less than max_unpaid + one token |
| `ProducerRuns.OutputIsPrefix` | sdk/python/tap/producer/wrap_stream.py:72-74 | the output is a prefix of the model's tokens, counted exactly, with acks that never fall |
| `ProducerRuns.AckIsLastAccepted` | sdk/python/tap/producer/wrap_stream.py:72-74 | every token sent goes out with the sequence of the last commitment accepted among the arrivals before, 0 if none |
| `ProducerRuns.HaltsExactlyWhenSilent` | sdk/python/tap/producer/wrap_stream.py:58-72 | resumed with room under the limit, the stream halts iff pause_timeout has passed since the last send or accepted commitment; else the first token goes out at once, any other after the gap |
| `ProducerRuns.GraceIsGranted` | sdk/python/tap/producer/wrap_stream.py:48-56 | without room, no halt before ceil(grace / 10) sleeps, however long the silence |
| `ProducerRuns.HaltsOnlyAfterSilence` | sdk/python/tap/producer/halt.py:23-27 | a stream is marked halted only when pause_timeout has passed since every send and every accepted commitment before |
| `ProducerRuns.PausedStreamHalts` | sdk/python/tap/producer/wrap_stream.py:48-56 | a paused stream that hears nothing halts within ceil(pause_timeout / 10) + max(1, ceil(grace / 10)) sleeps |
| `ProducerRuns.ServeStream` | sdk/python/tap/producer/server.py:332-345 | a channel opened and streamed on through the actual objects: prefix, each token with the sequence last accepted before it was sent, monotone acks, exact count, and the channel's own unpaid value in bounds |
| `Netting.SubmitIsLanding` | programs/tap/src/instructions/dispute.rs:12-62 | anybody submitting a commitment by the instruction the channel's status calls for: signature instruction, runtime check, scan and guards together equal one verifier-style step |
| `Netting.SettleLands` | sdk/python/tap/producer/settle.py:38-56 | the producer's transaction is a settle: that step on an Active channel, and nothing at all on any other |
| `Netting.NettingEquivalence` | sdk/python/tap/producer/verifier.py:20-47 | for any list of commitments, settling only what the producer holds leaves the sequence, amount and payout of submitting all, at every moment, iff the first accepted one has sequence >= 1 or the floor amount |
| `Netting.SequenceZeroDoesNotNet` | sdk/python/tap/producer/verifier.py:23-47 | the verifier accepts a validly signed first commitment of sequence 0 above the floor; the chain never does, and pays less than the producer counts |
| `Netting.VerifierKeepsHighest` | sdk/python/tap/producer/verifier.py:23-47 | shown members of a session's chain in any order, with loss and repetition, the verifier ends with the highest |
| `Netting.VerifierIsConfluent` | sdk/python/tap/producer/verifier.py:23-47 | two deliveries of the same commitments leave the verifier with the same one |
| `Netting.DeliveryOrderIsIrrelevant` | programs/tap/src/instructions/dispute.rs:23-52 | verifier and chain both end the same, whatever the order and repetition of the same commitments |
| `Netting.LateSubmissionsDropOut` | programs/tap/src/instructions/dispute.rs:19-21 | any list of submissions ends as those of it that met an open window, so the results for lists in time cover all lists |
| `Netting.HighestInTimeIsRecorded` | programs/tap/src/instructions/dispute.rs:19-52 | whatever members of a session's chain are submitted, whenever and in whatever order, the record and the payout are those of the highest-sequence one submitted in time |
| `Netting.LaterCommitmentSupersedes` | programs/tap/src/instructions/dispute.rs:19-52 | a later member of the chain is always accepted in the window and never lowers the payout |
| `EndToEnd.OpenStartsTheProtocol` | sdk/python/tap/producer/server.py:317-328 | an accepted open_channel on the agreed terms is a legal start of the whole system |
| `EndToEnd.RunKeepsSystem` | sdk/python/tap/consumer/session.py:206-229 | in every legal run of the whole system, producer and chain hold only what the session signed, and all local invariants hold together; submitters are unrestricted but for self-contained signature instructions |
| `EndToEnd.BoundedLoss` | programs/tap/src/instructions/close.rs:43-44 | with self-contained signature instructions, whoever submits: payout <= prepaid + received <= prepaid + delivered; for what the producer held at any moment k: with it or a later commitment on record, payout > prepaid + delivered by k - max_unpaid - price and >= what it counted at k; with exactly it, equal |
| `EndToEnd.PayoutIsMeterOfRecord` | programs/tap/src/instructions/close.rs:43-44 | in every legal run the payout is min(deposit, prepaid + tokens covered by the recorded commitment * price) |
| `EndToEnd.CompleteSessionPaysExactly` | sdk/python/tap/consumer/session.py:165-181 | a normally ended session whose last commitment is on record pays min(deposit, prepaid + tokens * price) |
| `EndToEnd.CloseSettlesTheRun` | programs/tap/src/instructions/close.rs:51-80 | at close the producer's wallet gains that payout, the consumer's regains the rest of the deposit, with the same bounds for what was held at any moment |
| `EndToEnd.ProducerSettleRecordsIff` | sdk/python/tap/producer/settle.py:25-56 | the producer's settle, built at any moment k of a legal run and landing at its end: accepted iff the channel is then Active and not expired; it records and pays what was held at k, and that is the producer's latest iff no commitment was accepted since |
| `EndToEnd.OwnSettleSecuresBound` | sdk/python/tap/producer/server.py:367-419 | built when the generator has returned and landing in time, it leaves a payout above prepaid + all delivered - max_unpaid - price, whatever was accepted in between |
| `InFlightSettle.FinalCommitmentMissesSettle` | sdk/python/tap/producer/server.py:357-404 | an honest run to the sentinel: the session's final commitment is accepted after the settle was built, the settle lands in time and records the one before; the difference is the price of the unfinished batch |
| `InFlightSettle.MissedFinalCommitment` | sdk/python/tap/consumer/session.py:165-167 | when a sentinel-ended session's final commitment misses the record, the channel pays the exact price of what the one before covers, fewer than k_max tokens short of all received |
| `OwnDataNeeded.BoundNeedsOwnData` | programs/tap/src/instructions/settle.rs:103-124 | without self-contained signature instructions: from any start, a settlement the runtime and the program accept leaves the whole deposit as payout, with nothing signed or delivered |
| `EndToEnd.AnyPartyCanRecord` | programs/tap/src/instructions/dispute.rs:12-62 | while a window is open, anybody holding the producer's last accepted commitment can put it on record by a settle or, once Settling, by a dispute |
| `StaleSettlement.StaleSettlementStands` | sdk/python/tap/producer/server.py:394-424 | a legal run in which the session's first commitment is settled first: the producer's settle is refused, and after the window the payout is below prepaid + delivered - max_unpaid - price |
| `EndToEnd.SessionSignsAChain` | sdk/python/tap/consumer/session.py:206-229 | in every legal run what the session posts is a chain, so netting and confluence apply |
| `PauseDeadlock.QuiescentUnpaid` | sdk/python/tap/producer/channel.py:51-55 | with nothing in flight and deposit left, the producer's unpaid value is exactly that of the session's tokens since its last commitment |
| `PauseDeadlock.NeverPausedForGood` | sdk/python/tap/producer/halt.py:19-20 | if (k_max - 1) * price < max_unpaid, no quiescent state of any legal run is paused |
| `PauseDeadlock.DeadlockOtherwise` | sdk/python/tap/producer/wrap_stream.py:49-56 | otherwise a legal run with everybody honest and nothing lost ends quiescent inside the pause loop |
| `PauseDeadlock.DeadlockFreeIff` | sdk/python/tap/consumer/client.py:156-170 | freedom from pause deadlock iff (k_max - 1) * price < max_unpaid |
| `Json.QuotedReads` | sdk/python/tap/producer/sse.py:22 | a string escaped as section 7 of RFC 8259 allows reads back unchanged, whatever follows |
| `Json.TokenObjectReads` | sdk/python/tap/producer/sse.py:22 | the token object reads back as exactly its text and its ack |
| `Sse.ParseFrame` | sdk/typescript/src/consumer/sse.ts:49-70 | the line loop collects the data lines; sentinel, JSON text and plain-text fallback follow |
| `Sse.IterSse` | sdk/typescript/src/consumer/sse.ts:15-47 | chunk invariance: for every cutting of every text, and any JSON decoder, the events are those of the uncut text up to the first sentinel; the inner loop ends |
| `Sse.IndexOfSepMeaning` | sdk/typescript/src/consumer/sse.ts:32-35 | frames are cut at the first blank line: the index found is a blank line and none precedes it |
| `Sse.EventsFrameByFrame` | sdk/typescript/src/consumer/sse.ts:32-42 | a stream of frames gives their events in order up to the first sentinel; an unfinished last frame gives nothing |
| `Sse.DataLinesInOrder` | sdk/typescript/src/consumer/sse.ts:52-56 | of a frame's lines the data lines count, in order, each for its value after any blanks; all others for nothing |
| `Sse.SplitOfJoin` | sdk/typescript/src/consumer/sse.ts:50-59 | several data lines are joined by line feeds: splitting undoes it |
| `Sse.FrameOfValues` | sdk/typescript/src/consumer/sse.ts:49-70 | a frame of any number of data lines is one payload, joined by line feeds: sentinel, decoded text, or plain text |
| `Sse.NothingAfterDone` | sdk/typescript/src/consumer/sse.ts:37-39 | no event follows the sentinel |
| `Sse.RoundTrip` | sdk/python/tap/producer/sse.py:17-25 | for all tokens and acks, both parsers read the printed stream back as exactly those tokens in order, then finished |
| `Sse.FailedStream` | sdk/python/tap/producer/server.py:356-366 | after an upstream failure Python delivers the tokens and raises, TypeScript delivers them plus one empty token and finishes |
| `FailedUpstream.FailureIsMeteredInTypeScript` | sdk/typescript/src/consumer/session.ts:115-138 | after an upstream failure the TypeScript session finishes having signed for one token more than was delivered; the Python session never counts more than was delivered |
| `Sse.FrameIsOneLine` | sdk/python/tap/consumer/stream.py:35-63 | the line parser reads one printed frame as one event, skips the blank line and stops at the sentinel |
| `Sse.LineByLine` | sdk/python/tap/consumer/stream.py:35-63 | blank lines, comments and event headers are skipped; other lines, bad JSON and reported errors raise; the sentinel finishes |
| `Sse.ReadProducerStream` | sdk/typescript/src/consumer/sse.ts:15-70 | the producer's stream, cut anywhere, gives event i = token i, then finished, and nothing more |
| `Settler.FiltersReadTheFields` | sdk/python/tap/chain/channel_account.py:61-73 | on every decodable account the raw-byte filters hold iff status is Settling and the producer is ours |
| `Settler.FindReady` | sdk/python/tap/producer/settler.py:132-160 | the scan over raw accounts returns exactly our Settling channels that are due, skipping what does not decode |
| `Settler.ReadyIsComplete` | sdk/python/tap/producer/settler.py:149-160 | a channel is in the result iff it is our Settling channel in some returned account, 5 seconds past its window |
| `Settler.ReadyCounts` | sdk/python/tap/producer/settler.py:149-160 | and each such account is in it once |
| `Settler.SelectedPassesTimeGuard` | programs/tap/src/instructions/close.rs:25-28 | a selected channel passes close's time guard if the chain's clock lags by less than the 5 seconds of slack |
| `Settler.RunOnce` | sdk/python/tap/producer/settler.py:115-130 | one pass closes every pending channel that was closable, whatever happens to the others, and counts the closes |
| `Quote.CountIsNumberOfMatches` | sdk/python/tap/tokenizer.py:53-63 | the count is the number of places where a match of `\w+` or of a single other non-space character starts |
| `Quote.CountIsSum` | sdk/python/tap/protocol/prompt.py:20-25 | the count of a chat body is the sum over its messages: the newline join never merges tokens |
| `Quote.ContentsInOrder` | sdk/python/tap/protocol/prompt.py:20-25 | the prompt is made of the messages' string contents in order |
| `Quote.LinesInOrder` | sdk/python/tap/protocol/prompt.py:21 | with a line feed between two |
| `Quote.AuditPassesIff` | sdk/python/tap/consumer/policy.py:36-72 | the audit passes iff all seven limits are met |
| `Quote.VerificationPassesIff` | sdk/python/tap/consumer/policy.py:74-95 | verification passes iff it is off, nothing was quoted, or the local count with the declared tokenizer agrees |
| `Quote.QuoteIsSound` | sdk/python/tap/consumer/policy.py:36-95 | a quote that passes audit and verification is prepaid nothing, or exactly the messages' tokens times an input price within policy |
| `Quote.PlainQuoteIsSound` | sdk/python/tap/consumer/policy.py:36-95 | the same for a plain prompt, in terms of the matches in it |
| `Quote.VerifiedIffCountAgrees` | sdk/python/tap/protocol/prompt.py:19-28 | with the reference tokenizer, verification passes iff nothing was quoted or the count is that of the body's text: messages, plain prompt, or the serialized body |

## Left out

- HTTP, asyncio task scheduling, RPC, transaction compilation, logging, dashboards and demos; of the event loop only the points where a commitment may arrive are kept.
- Ed25519 and SHA-256 internals: validity is one predicate, the account discriminator any eight bytes.
- TapProgram.Program.SettleIx and DisputeIx: the consumer and producer accounts that the caller must name, and that `has_one` compares with the record, are not parameters; neither are the signers of any instruction.
- Address derivation: a channel's address and its vault are parameters of `open_channel`; that different consumers, producers and nonces never share an address is not part of this model; opening an address in use is refused.
- Rent lamports, events, frozen token accounts and overflow of a token account's balance.
- Reopening an address: conservation and solvency cover it; results about one channel's life assume no reopening within the run.
- `trailing_buffer_micro` is stored and decoded but no decision reads it; `expires_at_ms` and the display strings (halt reasons) are not modelled.
- The consumer's `HaltDetector` is a flag on each event; the commit callback is assumed not to raise.
- Several streams on one producer channel, and reuse of a channel across sessions.
- Model adapters, including the one that splits text into pieces; the token source is any sequence of texts.
- The X-PAYMENT and X-TAP-COMMIT header codecs; pricing and timing validation.
- Session.AdaptiveBatcher.Update: the float watermarks 0.85 and 0.30 are integer ratios; floating-point rounding at the boundary is not modelled.
- Ed25519.VerifyEd25519Sibling: takes transactions of at most 65535 instructions, the most the instructions sysvar can hold.
- Ed25519.FoundIsValidIff: limits are on the number of instructions and on each one's size, not on their sum.
- EndToEnd.BoundedLoss: assumes self-contained signature instructions (`Ed25519.OwnDataOnly`), which the program does not enforce, and its consumer is the Python session; what a TypeScript session may sign beyond what was delivered is `FailedUpstream.FailureIsMeteredInTypeScript`.
- EndToEnd.RunKeepsSystem: rests on the same assumption.
- EndToEnd.CompleteSessionPaysExactly: rests on the same assumption.
- Netting.SubmitIsLanding: assumes the channel is open and the instruction after the verify instruction is not itself an Ed25519 one.
- EndToEnd.PayoutIsMeterOfRecord: rests on the same assumption.
- EndToEnd.CloseSettlesTheRun: rests on the same assumption, and assumes producer and consumer are paid into different token accounts.
- PauseDeadlock.DeadlockFreeIff: concerns pauses with nothing in flight; a pause because the last commitment was lost ends by the producer's timeout (`ProducerRuns.PausedStreamHalts`) and is not excluded. Its converse needs a signer, a deposit and a model output long enough for one full batch.
- Sse.RoundTrip: the JSON reader covers flat objects of strings and natural numbers without inner white space, which is all that producers print; chunk invariance holds for any decoder.
- Sse.FrameIsOneLine: the Python parser is given lines split at line feeds; the HTTP client's own line splitting is not part of this model, and printed payloads hold printable ASCII only.
- TsSession.ConsumerSession.SendCommit: the signed bytes are not part of the TypeScript model, so the wrap-around of a token count of 2^32 or more in them is not captured.
- FailedUpstream.FailureIsMeteredInTypeScript: assumes no evaluator, posts that return and numbers a double can hold.
- InFlightSettle.FinalCommitmentMissesSettle: assumes a channel on which the pause deadlock is excluded, a signer and a deposit that covers the stream.
- StaleSettlement.StaleSettlementStands: assumes a channel on which the pause deadlock is excluded, a signer, and deposit and model output for enough tokens.
- Quote.QuoteIsSound: the regular expression's word and space classes are any in which a line feed is a space and no word.
