# The client library of SymboGram, modelled and proved

libkg is the protocol half of a Telegram client for old phones. This project models its four hard
parts in Dafny and proves what they are for.

**The update pipeline** (`UpdateTypes`, `Counters`, `Drain`, `Inbox`, `Asks`, `Pipeline`,
`UpdatesManager`, `UpdateSafety`, `UpdateReplies`, `UpdateArrivals`, `UpdateLosses`,
`UpdateDispatches`, `UpdateTellings`, `UpdateRequests`, `UpdateAssignments`, `UpdateDelivery`). The
server pushes updates numbered per sequence; the client applies, drops or parks each, drains what it
parked, polls channels a few at a time, and fetches differences over gaps. The two classes in
`UpdatesManager` run on the fields of the original, and each method is proved to bring about the new
state that `Pipeline` defines. Server replies and pushes are arbitrary; message ids come from an
arbitrary source, which the theorems about runs take to be non-zero and never to repeat. Beside the
state stand what the client was told, in order, and an account of what was received and what became
of it. `UpdateArrivals`, `UpdateLosses` and `UpdateDispatches` tie that account at each end: to what
the events push, to the events that discard, and to what was told; `UpdateTellings` says what else
is told, `UpdateRequests` what is sent, and `UpdateAssignments` where replies put a sequence.

**The transport** (`Wire`, `Ledger`, `Transport`, `TransportObjects`, `TransportSafety`,
`TransportReplay`, `TransportAccounts`, `TransportContents`, `TransportSpeech`, `Frames`,
`ClientTables`). Message ids and sequence numbers, the three tables a request is held in, replay and
resend, inbound frames and their ring of ids, and the client tables keyed by request ids. The clock
is an arbitrary function from the number of looks at it to times; each look may give any value.
An *epoch* is a stretch in which the last id is not set back; codes 16, 17, 32 and 33, a new key,
and settings read back end one. A *run* of frames is a stretch in which the content counter only
counts; codes 32 and 33, a new key and a reload begin another.
`TransportAccounts` ties the account of requests to the events that make and dispose of them, and
`TransportSpeech` says which frames each event writes and what is in them.

**Arithmetic** (`Options`, `Modular`, `Bytes`, `Factor`, `Pbkdf2`, `RsaPad`, `Srp`). Binary gcd and the
factor search on 64-bit integers, the password derivation of section 5.2 of RFC 2898, the RSA_PAD
block, SRP-6a (formulas in section 2.6 of RFC 5054, with Telegram's hashes), and the
Diffie-Hellman key. Hashes, HMAC and the block cipher are arbitrary functions; of the cipher only
lengths, and that decryption undoes encryption on whole blocks, are assumed, as hypotheses.

**The codec** (`Codec`, `Streams`, `MtSchema`). The cursor stream over one byte array, byte
strings, vectors, and the reader and writer of ten service types. `Codec` says what the wire form
of a value is and what any bytes are read as; `MtSchema` writes each reader and writer out field
by field and proves it against one table of constructors.

## What is false, and when

Where the code does less than one would expect, the theorem gives the exact condition:

- An update with pts_count 0 is applied every time it is delivered (`RedeliveryDropped`).
- What a push carries is neither told, parked nor counted if its container fails the seq test, and
  only then (`UnaccountedIff`).
- A channel with a gap is not polled, and not remembered, if its access hash is unknown when its turn
  comes (`EnqueueForgetsIff`).
- A keepalive forgets the pending requests once there are forty (`KeepaliveForgetsIff`).
- A disconnect strands waiting channels beside free slots (`DisconnectStrandsWaiters`).
- Replies with a pts are lost when their request is renamed (`AffectedReplyLostByRename`), against
  the header's word that every map keyed by an id is renamed.
- An error under id 0, which no request has, is taken for an answer while no request of a kind is
  outstanding, and can wipe the update state (`ZeroIdErrorWipesIff`).
- Everything parked goes at the next tick, however young (`NothingOutlivesATick`); the comment in
  `expirePending` speaks of a full tick.
- Two rejections with code 32 or 33 in one second lose a request (`TwoRejectionsInOneSecond`), and
  so does a repeated FLOOD_WAIT (`SecondFloodWaitLoses`).
- A reconnection reuses sequence numbers unless nothing was sent since the last save
  (`ReconnectingRewinds`, `ReloadContinuesIff`).
- The mark against replay does not follow its request (`ExclusionIsNotRenamed`).
- One draw in 2^32 pads a frame too little (`PaddingIsEnoughIff`).
- A byte string of 2^24 bytes or more is written without a sound and read as another
  (`TextRoundTrip`).
- Doubling in 64 bits is wrong for some residue above 2^63 (`DoublingIsExact`).
- Ids are divisible by four, not by 2^22 as a comment in `processMessage` has it, once two are
  drawn in one second (`NextIdGrows`).

## Model

| member | source | states |
|---|---|---|
| `SequenceCounters.VerdictMeaning` | libkg/tgupdatesstate.cpp:112-137 | For every local value, pts and pts_count: a sequence at 0 adopts anything; otherwise an update applies exactly when its interval starts at the local value, up to one turn of the 32 bits, and else is old or a gap by whether it ends at or below it; with a positive pts the turn never matches |
| `SequenceCounters.RedeliveryDropped` | libkg/tgupdatesstate.cpp:112-154 | An update just applied is dropped when delivered again if and only if its pts_count is not 0 |
| `SequenceCounters.AdvanceMonotone` | libkg/tgupdatesstate.cpp:139-154 | Advancing one sequence never moves it, or any other, back |
| `SequenceCounters.SeqVerdictMeaning` | libkg/tgupdatesstate.cpp:156-179 | A container numbered 0 is never out of order; another applies exactly when it starts one after the last, one turn of the 32 bits included, and else is old or ahead by whether it starts at or below the last |
| `SequenceCounters.RestartKeepsState` | libkg/tgupdatesstate.cpp:215-263 | Saving and loading returns the same state if and only if validity agrees with pts and no channel counter is 0; verdicts survive in any case |
| `Draining.DrainReachesFixpoint` | libkg/tgupdates.cpp:421-458 | After a drain every parked update still has a gap before it, and draining again does nothing |
| `Draining.DrainPartition` | libkg/tgupdates.cpp:421-458 | The queue before is, as a multiset, what was emitted, what was dropped as old and what is left |
| `Draining.DrainInSequence` | libkg/tgupdates.cpp:421-458 | What a drain emits is applicable one after another from the starting counters, and ends at the counters the drain ends with |
| `Draining.DrainSettles` | libkg/tgupdates.cpp:421-458 | No counter goes back in a drain, and all it took out lies at or below its counter afterwards |
| `UpdateObjects.UpdatesState.Check` | libkg/tgupdatesstate.cpp:112-137 | The object's verdict is the one of the counters it stands for |
| `UpdateObjects.UpdatesState.Reset` | libkg/tgupdatesstate.cpp:18-25 | Assigns the four counters unconditionally and makes the state valid; channels are untouched |
| `UpdateObjects.UpdatesState.Advance` | libkg/tgupdatesstate.cpp:139-154 | Moves one sequence forward, never back |
| `UpdateObjects.UpdatesManager.DrainPending` | libkg/tgupdates.cpp:421-458 | The take-and-step-back loops terminate and compute the specified drain: queue, counters, dispatches and ledger |
| `UpdateObjects.UpdatesManager.ExpirePending` | libkg/tgupdates.cpp:460-485 | Removes exactly what was parked before this tick, and asks for the difference only if anything was removed |
| `UpdateObjects.UpdatesManager.DropPending` | libkg/tgupdates.cpp:487-500 | Removes exactly one channel's parked updates |
| `UpdateObjects.UpdatesManager.Park` | libkg/tgupdates.cpp:387-419 | Parks, or at the bound of 64 discards the whole queue and the newcomer and asks for the difference |
| `UpdateObjects.UpdatesManager.PumpChannelQueue` | libkg/tgupdates.cpp:199-226 | Takes waiting channels in order until none waits or ten are in flight |
| `UpdateObjects.UpdatesManager.EnqueueChannel` | libkg/tgupdates.cpp:183-197 | Queues a channel unless it is 0, in flight or waiting, and pumps |
| `UpdateObjects.UpdatesManager.RequestDifference` | libkg/tgupdates.cpp:157-181 | At most one difference outstanding; without a valid state the state is asked for instead |
| `UpdateObjects.UpdatesManager.ProcessUpdates` | libkg/tgupdates.cpp:244-310 | The new state after a pushed container of any kind, seq ordering included |
| `UpdateObjects.UpdatesManager.ApplyOne` | libkg/tgupdates.cpp:312-371 | The new state and dispatches after one update: told at once without a pts, and else told, parked, dropped, or its channel polled |
| `UpdateObjects.UpdatesManager.HandleState` | libkg/tgupdates.cpp:520-546 | The new state after a state reply, and whether it was claimed |
| `UpdateObjects.UpdatesManager.HandleDifference` | libkg/tgupdates.cpp:548-611 | The new state after each kind of difference |
| `UpdateObjects.UpdatesManager.HandleChannelDifference` | libkg/tgupdates.cpp:613-667 | The new state after each kind of channel difference, a non-final one queueing its own channel again |
| `UpdateObjects.UpdatesManager.ApplyDifferenceBody` | libkg/tgupdates.cpp:669-703 | Recovered messages wrapped and told in order, other updates told and their pts adopted |
| `UpdateObjects.UpdatesManager.HandleAffected` | libkg/tgupdates.cpp:725-766 | A pts in a reply is applied to the sequence its request was addressed to, as a pushed update would be |
| `UpdateObjects.UpdatesManager.HandleRpcError` | libkg/tgupdates.cpp:768-812 | The new state after an error on each kind of request |
| `UpdateObjects.UpdatesManager.Disconnected` | libkg/tgupdates.cpp:131-140 | All three request tables are emptied and nothing else changes |
| `UpdateObjects.UpdatesManager.MessageChanged` | libkg/tgupdates.cpp:142-153 | The new state after a rename |
| `UpdateObjects.UpdatesManager.TimerEvent` | libkg/tgupdates.cpp:508-516 | One tick counted and the queue expired, for the manager's own timer only |
| `UpdateInbox.NothingOutlivesATick` | libkg/tgupdates.cpp:460-516 | Whatever was parked before a tick is gone after it, however recently it was parked |
| `UpdateInbox.DrainRestoresQueue` | libkg/tgupdates.cpp:421-458 | From any assigned counters whatever, a drain makes every parked update a gap again |
| `UpdateSafety.StepKeepsOk` | libkg/tgupdates.cpp:103-812 | Every entry point keeps the whole invariant: queue, ledger, runs, schedule, ids |
| `UpdateSafety.NothingIsStranded` | libkg/tgupdates.cpp:387-458 | In every reachable state the queue holds at most 64, a non-empty queue has the timer running, and with a valid state every parked update is still a gap |
| `UpdateDispatches.StepKeepsTold` | libkg/tgupdates.cpp:103-812 | Of every entry point: the pushed updates with a pts that the client has been told are exactly the emitted ones, in order |
| `UpdateDispatches.EveryUpdateIsAccountedFor` | libkg/tgupdates.cpp:312-506 | Over every run, the updates with a pts that its pushes offered are, as a multiset, those emitted + dropped + discarded by the events listed + parked; and the emitted ones are, one for one and in order, what the client was told |
| `UpdateArrivals.StepReceives` | libkg/tgupdates.cpp:103-812 | Every event adds to what was received exactly the updates with a pts in the container it pushes, and none if that fails the seq test |
| `UpdateArrivals.UnaccountedIff` | libkg/tgupdates.cpp:268-292 | What a push carries reaches no account if and only if its container is old or ahead by its seq; then neither the queue nor the counters change and nothing is told |
| `UpdateLosses.StepDiscards` | libkg/tgupdates.cpp:103-812 | Every event adds to what was discarded exactly the queue at each overflow with the newcomer, at a gap tick, at a difference too long or a PERSISTENT_TIMESTAMP error, one channel of it at a channel difference too long or an unreachable channel, and else nothing |
| `UpdateLosses.StepDropsOld` | libkg/tgupdates.cpp:103-812 | No event drops an update that is not at or below its counter afterwards |
| `UpdateTellings.PushTells` | libkg/tgupdates.cpp:244-371 | A push tells the updates without a pts that its container carries, list or single body, one for one and in order, with its users, chats and date, and none if it fails the seq test; and it recovers and resets nothing |
| `UpdateTellings.ReplyTells` | libkg/tgupdates.cpp:520-766 | What every other event tells, exactly and in order: the recovered updates and the state a difference leads to, the state of a state reply, the resets, the state after an applied common reply; and then only what is drained |
| `UpdateTellings.RecoveredInOrder` | libkg/tgupdates.cpp:548-703 | By index: of an answered difference, full or partial, the k-th dispatch is message k as an update without a pts, then update k as it came, with the reply's users and chats and the date before it, and none after them is a recovery |
| `UpdateTellings.ChannelRecoveredInOrder` | libkg/tgupdates.cpp:613-703 | The same of a channel's difference, final or not |
| `UpdateTellings.NothingElseRecovers` | libkg/tgupdates.cpp:103-812 | No other event adds a recovered update to what was told |
| `UpdateTellings.RunTells` | libkg/tgupdates.cpp:103-812 | Over every run, the updates told at once, the recovered ones and the resets are those the containers and replies of the run hold, one for one and in order |
| `UpdateAssignments.SinglePushTells` | libkg/tgupdates.cpp:312-371 | An update pushed alone is told if it applies, followed if it is of the common sequence by the state it leads to, and then by what is drained; an old one and one ahead tell nothing |
| `UpdateAssignments.PushMovesSeq` | libkg/tgupdates.cpp:244-310 | A push moves date and seq forward exactly as its container says, and not when it fails the seq test |
| `UpdateSafety.PollsAreScheduled` | libkg/tgupdates.cpp:183-226 | Over every run at most ten polls are in flight, no channel occurs twice among polls and waiters, and unless a disconnect occurred a waiter means ten busy slots |
| `UpdateAsks.EnqueueForgetsIff` | libkg/tgupdates.cpp:183-226 | A channel that is queued is polled or waits, except exactly when its access hash is unknown and the polls in flight and the waiting channels with a known hash are together fewer than ten: then it is forgotten |
| `UpdateAsks.RememberMeaning` | libkg/tgupdates.cpp:228-242 | A channel is remembered under the hash of the last chat that names one for it, and else as before |
| `UpdateRequests.StepSends` | libkg/tgupdates.cpp:103-226 | Every event but a rename sends only requests that say where the sequences stand in the state it leaves, each under the id it is then expected under; and no other id is newly expected |
| `UpdateRequests.PushSends` | libkg/tgupdates.cpp:312-419 | The same of every update of a pushed container, at the point where it was taken in |
| `UpdateSafety.DisconnectStrandsWaiters` | libkg/tgupdates.cpp:131-140 | A disconnect leaves channels waiting beside free slots if and only if channels were waiting |
| `UpdateSafety.GapTickRefetches` | libkg/tgupdates.cpp:460-516 | A gap tick empties the queue into the discarded account, and if it discarded anything a state or difference request is outstanding |
| `UpdateSafety.OverflowRefetches` | libkg/tgupdates.cpp:312-419 | An update that has to wait while 64 do is discarded with all of them, and a state or difference request is outstanding |
| `UpdateLosses.PushOverflowRefetches` | libkg/tgupdates.cpp:244-419 | The same of the push of any container any of whose updates overflows the queue: what waited then is discarded and a request is outstanding when the push is done |
| `UpdateReplies.UnansweringReplyIgnored` | libkg/tgupdates.cpp:520-812 | In every reachable state a reply that names no outstanding request of its kind changes nothing at all, and so does an error, unless it is under id 0 |
| `UpdateReplies.ZeroIdErrorWipesIff` | libkg/tgupdates.cpp:768-789 | An error under id 0 wipes the counters if and only if it is PERSISTENT_TIMESTAMP, the state is being asked for, the difference is not, and there is something to wipe; otherwise it changes nothing |
| `UpdateReplies.ZeroIdErrorHappens` | libkg/tgupdates.cpp:768-789 | A run of two events that leads there: an unreadable difference, then an error that names no request |
| `UpdateReplies.RequestConsumedOnce` | libkg/tgupdates.cpp:131-153 | Once answered, an id never has an effect again, over any run with renames, re-deliveries and disconnects |
| `UpdateReplies.EarlierRunIgnored` | libkg/tgupdates.cpp:72-87 | A reply to a request of an earlier run never has an effect |
| `UpdateReplies.RenameMovesAnswer` | libkg/tgupdates.cpp:142-153 | What answered under the old id answers under the new one, and under the old one never again |
| `UpdateReplies.AffectedReplyLostByRename` | libkg/tgupdates.cpp:142-153 | The affected-messages table is not renamed: after a rename the reply under the new id is lost if and only if that id was not itself expected |
| `UpdateAssignments.StateAssigns` | libkg/tgupdates.cpp:520-546 | An answered state reply puts the common sequence where it says, and only drained updates take it on from there |
| `UpdateAssignments.DifferenceAssigns` | libkg/tgupdates.cpp:548-703 | An answered difference puts the common sequence at its state, a partial one at its intermediate state, and brings every channel among its updates at least to the pts named |
| `UpdateAssignments.EmptyDifferenceAdvances` | libkg/tgupdates.cpp:548-611 | An empty difference moves date and seq forward and assigns nothing |
| `UpdateAssignments.TooLongAssigns` | libkg/tgupdates.cpp:548-611 | A difference too long to tell leaves its pts, no channel, and nothing waiting |
| `UpdateAssignments.ChannelAssigns` | libkg/tgupdates.cpp:613-667 | A channel's difference puts its channel at the pts it names, or at its dialog's when it is too long to tell, and leaves the common counters alone |
| `UpdateAssignments.PolledAgainIff` | libkg/tgupdates.cpp:613-667 | After a difference that is not final its channel is polled again or waits, as long as its hash is known; after a final one neither |
| `UpdateAssignments.AffectedAdvances` | libkg/tgupdates.cpp:725-766 | A pts in a reply that applies takes its sequence at least there, and the reply is expected no more |
| `UpdateAssignments.ErrorForgets` | libkg/tgupdates.cpp:768-812 | A refused timestamp clears the state and the queue and has the state asked for; an unreachable channel is forgotten with all that waits for it; any other error changes no counter and no queue |
| `UpdateDelivery.DeliveryIsContiguous` | libkg/tgupdates.cpp:312-458 | Over every run whose pushes are, for one sequence, out of the server's log, what the client was told of it since its counter was last assigned is a contiguous stretch of that log, in order, each entry once, from where the assignment put the counter to where it is |
| `UpdateDelivery.DeliveryIsComplete` | libkg/tgupdates.cpp:312-458 | Over every run that assigns nothing to a sequence and none of whose events discards of it, what the client was told of it reaches log entry m if and only if every entry up to m was in some push that passed the seq test, in whatever permutation and repetition and whatever happens on other sequences |
| `UpdateDelivery.CalmStepMoved` | libkg/tgupdates.cpp:103-812 | An event that does not assign to a sequence never moves its counter back, leaves the mark of its last assignment where it is, and keeps all that was emitted or dropped of it at or below the counter |
| `Factor.GcdMeaning` | libkg/crypto.cpp:95-126 | The reference gcd is the common divisor that every common divisor divides |
| `Factor.BinaryGcd` | libkg/crypto.cpp:95-126 | The shift-and-subtract loop terminates for all 64-bit arguments and returns the gcd, its last shift not overflowing |
| `Factor.SquarePlus` | libkg/crypto.cpp:141-157 | For number up to 2^63 the add-and-double loop returns (x*x + q) mod number exactly, in 64 bits |
| `Factor.DoublingIsExact` | libkg/crypto.cpp:151-154 | The 64-bit doubling step is exact for every residue if and only if number is at most 2^63 |
| `Factor.Walk` | libkg/crypto.cpp:136-166 | One walk of the search ends and returns a divisor; for number up to 2^63 one other than 1 is the gcd of the number with the distance of iterate j to the iterate at the greatest power of two below j, and 1 means that every such distance is coprime to the number |
| `Factor.FindDivider` | libkg/crypto.cpp:128-174 | For every 64-bit number from 2 on the search terminates and returns a divisor of it; up to 2^63 a divisor other than 1 is what a comparison of one of the three walks gives, and 1 means that no comparison of any of them gives another; up to 2^18 the answer is never 1 |
| `Factor.WalkCloses` | libkg/crypto.cpp:136-166 | A walk at least four times as long as the number comes to compare two equal iterates, whatever q and the start are |
| `Factor.ProperExactlyWhenApart` | libkg/crypto.cpp:128-174 | A divisor found from two iterates is proper if and only if the iterates differ modulo the number |
| `Pbkdf2.DeriveBlock` | libkg/crypto.cpp:417-460 | One turn of the outer loop leaves T_i of section 5.2 of RFC 2898, or fails exactly when the sink refuses a step it is asked about |
| `Pbkdf2.Derive` | libkg/crypto.cpp:381-478 | The first outputLength octets of T_1 then T_2 then ... of section 5.2 of RFC 2898, or nothing if and only if the parameters are not positive or the sink refuses |
| `Pbkdf2.DerivedOctet` | libkg/crypto.cpp:381-478 | Octet k of the key is octet k mod 64 of every link, xored, of the chain of block k/64 + 1, which begins with the hash of the salt and the block index in four octets, most significant first |
| `RsaPad.ReverseInPlace` | libkg/crypto.cpp:176-182 | The swap loop leaves the array reversed |
| `RsaPad.ReversedTwice` | libkg/crypto.cpp:176-182 | Reversal undoes itself |
| `RsaPad.XorArray` | libkg/crypto.cpp:184-194 | Bytewise xor over the shorter length with the longer one's tail |
| `Bytes.XorBytesBack` | libkg/crypto.cpp:184-194 | Xoring twice with one array restores the other |
| `Bytes.XorBitAt` | libkg/crypto.cpp:184-194 | Bit i of an xor is set exactly when it is set in one of the two |
| `RsaPad.CompareAsBigEndian` | libkg/crypto.cpp:310-323 | The sign of the difference of the two integers whenever the lengths agree or the longer has no leading zero; otherwise the sign of the difference in length |
| `RsaPad.UnpadRecovers` | libkg/crypto.cpp:325-340 | From the 256-byte block alone the mirror steps recover the data and find the hash intact, for every padding and temporary key |
| `RsaPad.Pad` | libkg/crypto.cpp:325-340 | The loop leaves at the first draw whose block is below the modulus as an integer, with a block that unpads to the data |
| `Srp.CorrectedBase` | libkg/srp.cpp:361-372 | The signed subtraction with one correction is reduction modulo p |
| `Srp.SecretsAgree` | libkg/srp.cpp:301-388 | For all exponents, multipliers and scramblers the client's secret is the server's (A*v^u)^b mod p |
| `Srp.FitsPadding` | libkg/srp.cpp:82-86 | Every number below a 2048-bit prime fits 256 bytes |
| `Srp.ComputeWithSecret` | libkg/srp.cpp:256-424 | The step-by-step computation with its early exits gives the specified outcome, and writes the caller's proof only when it made one |
| `Srp.Compute` | libkg/srp.cpp:426-445 | The proof of the first of at most eight draws that is not refused as unsafe; giving up only after eight that were |
| `Srp.ProofConvincesServer` | libkg/srp.cpp:301-398 | The evidence made is byte for byte what a server computes from the A it received and the verifier of the same password, the server written out in hashes of explicit concatenations and in the password derivation |
| `Srp.ProvedIff` | libkg/srp.cpp:88-424 | A proof is made exactly when the modulus is a 2048-bit safe prime that fits the generator, both public values keep 2^1984 away from its ends, the secret has 256 bytes and is not zero, the derivation was not withdrawn, and neither x, u nor the base is zero |
| `Srp.WithdrawalIsSilent` | libkg/srp.cpp:319-323 | An attempt ends with neither problem nor proof if and only if parameters, secret and A are usable and the derivation was withdrawn |
| `Srp.AuthKeysAgree` | libkg/tgtransport.cpp:980-1012 | For every odd modulus up to 2048 bits the client's minimal power padded on the left is the server's fixed-width g_b^a mod p |
| `Bytes.PadMinimal` | libkg/tgtransport.cpp:1010-1012 | Zeros put before the minimal form give the fixed-width form |
| `Codec.TextRoundTrip` | libkg/tgstream.cpp:91-111 | A byte string is read back, followed by any bytes, if and only if it is shorter than 2^24 |
| `Codec.RoundTrip` | libkg/tgstream.cpp:51-254 | Any fitting value of any kind - scalars, vectors, constructors - is read back whatever follows it, and exactly its bytes are consumed |
| `Codec.ScalarComesBackIffItFits` | libkg/tgstream.cpp:66-127 | A scalar comes back if and only if it fits its width |
| `Codec.LowByteFirst` | libkg/tgstream.cpp:51-75 | Byte i of an integer on the wire stands for the i-th power of 256 |
| `Codec.TextOnWire` | libkg/tgstream.cpp:91-111 | A byte string is its length in one byte below 254, and else 254 and three bytes of length, low first, then the bytes, then zeros up to the next word |
| `Codec.NoneIsAPrefix` | libkg/tgstream.cpp:51-254 | No value's wire form begins another's |
| `Codec.EncodingIsWords` | libkg/tgstream.cpp:91-142 | Every encoding of every value, fitting or not, is a multiple of four bytes |
| `Streams.TelegramStream.WriteRawBytes` | libkg/tgstream.cpp:14-17 | Writes over what is at the cursor and past the end of it |
| `Streams.TelegramStream.WriteByteArray` | libkg/tgstream.cpp:91-111 | Writes the string's wire form at the cursor |
| `Streams.TelegramStream.ReadByteArray` | libkg/tgstream.cpp:200-224 | Reads what the wire form says, from any bytes at all, and leaves the cursor behind the padding |
| `MtSchema.WriteVector` | libkg/tgstream.cpp:129-142 | Writes id, count and every element in order |
| `MtSchema.ReadVector` | libkg/tgstream.cpp:240-254 | Reads as many elements as the count says, each into the variable the last one was read into; leaves the variable alone when the id is not a vector's |
| `MtSchema.ReadResPQ` | libkg/mtschema.cpp:28-43 | From any bytes, yields what the table of ResPQ says, field by field in wire order, and the empty object four bytes in for any constructor the type does not have |
| `MtSchema.WriteResPQ` | libkg/mtschema.cpp:45-57 | Writes exactly the wire form that the table gives for a ResPQ object, and nothing for any constructor the type does not have |
| `MtSchema.ReadPQInnerData` | libkg/mtschema.cpp:59-88 | From any bytes, yields what the table of PQInnerData says, field by field in wire order, and the empty object four bytes in for any constructor the type does not have |
| `MtSchema.WritePQInnerData` | libkg/mtschema.cpp:90-116 | Writes exactly the wire form that the table gives for a PQInnerData object, and nothing for any constructor the type does not have |
| `MtSchema.ReadServerDHParams` | libkg/mtschema.cpp:118-132 | From any bytes, yields what the table of ServerDHParams says, field by field in wire order, and the empty object four bytes in for any constructor the type does not have |
| `MtSchema.WriteServerDHParams` | libkg/mtschema.cpp:134-145 | Writes exactly the wire form that the table gives for a ServerDHParams object, and nothing for any constructor the type does not have |
| `MtSchema.ReadServerDHInnerData` | libkg/mtschema.cpp:147-164 | From any bytes, yields what the table of ServerDHInnerData says, field by field in wire order, and the empty object four bytes in for any constructor the type does not have |
| `MtSchema.WriteServerDHInnerData` | libkg/mtschema.cpp:166-180 | Writes exactly the wire form that the table gives for a ServerDHInnerData object, and nothing for any constructor the type does not have |
| `MtSchema.ReadClientDHInnerData` | libkg/mtschema.cpp:182-197 | From any bytes, yields what the table of ClientDHInnerData says, field by field in wire order, and the empty object four bytes in for any constructor the type does not have |
| `MtSchema.WriteClientDHInnerData` | libkg/mtschema.cpp:199-211 | Writes exactly the wire form that the table gives for a ClientDHInnerData object, and nothing for any constructor the type does not have |
| `MtSchema.ReadSetClientDHParamsAnswer` | libkg/mtschema.cpp:213-239 | From any bytes, yields what the table of SetClientDHParamsAnswer says, field by field in wire order, and the empty object four bytes in for any constructor the type does not have |
| `MtSchema.WriteSetClientDHParamsAnswer` | libkg/mtschema.cpp:241-263 | Writes exactly the wire form that the table gives for a SetClientDHParamsAnswer object, and nothing for any constructor the type does not have |
| `MtSchema.ReadFutureSalt` | libkg/mtschema.cpp:367-381 | From any bytes, yields what the table of FutureSalt says, field by field in wire order, and the empty object four bytes in for any constructor the type does not have |
| `MtSchema.WriteFutureSalt` | libkg/mtschema.cpp:383-394 | Writes exactly the wire form that the table gives for a FutureSalt object, and nothing for any constructor the type does not have |
| `MtSchema.ReadFutureSalts` | libkg/mtschema.cpp:396-410 | From any bytes, yields what the table of FutureSalts says, field by field in wire order, and the empty object four bytes in for any constructor the type does not have |
| `MtSchema.WriteFutureSalts` | libkg/mtschema.cpp:412-423 | Writes exactly the wire form that the table gives for a FutureSalts object, and nothing for any constructor the type does not have |
| `MtSchema.ReadMsgsAck` | libkg/mtschema.cpp:539-551 | From any bytes, yields what the table of MsgsAck says, field by field in wire order, and the empty object four bytes in for any constructor the type does not have |
| `MtSchema.WriteMsgsAck` | libkg/mtschema.cpp:553-562 | Writes exactly the wire form that the table gives for a MsgsAck object, and nothing for any constructor the type does not have |
| `MtSchema.ReadBadMsgNotification` | libkg/mtschema.cpp:564-585 | From any bytes, yields what the table of BadMsgNotification says, field by field in wire order, and the empty object four bytes in for any constructor the type does not have |
| `MtSchema.WriteBadMsgNotification` | libkg/mtschema.cpp:587-605 | Writes exactly the wire form that the table gives for a BadMsgNotification object, and nothing for any constructor the type does not have |
| `MtSchema.TableIsSound` | libkg/mtschema.cpp:28-605 | Every type of the table is made of whole words and declares no field and no constructor twice |
| `MtSchema.ResPQFits` | libkg/mtschema.cpp:28-57 | Which ResPQ objects have a wire form they come back from: if and only if both nonces are 16 bytes, pq is shorter than 2^24 and the fingerprints are 64-bit |
| `MtSchema.WrongReader` | libkg/mtschema.cpp:28-605 | One type's reader, given another type's object, yields the empty object four bytes in |
| `WireTrace.NextIdGrows` | libkg/tgtransport.cpp:1174-1182 | A new id is greater than the last if and only if the clock is ahead of it or adding four stays within 64 bits; and divisible by four after one that was |
| `WireTrace.StampBound` | libkg/tgtransport.cpp:1177-1178 | Whatever the clock reads, a stamp leaves room for 26 million ids above it |
| `WireTrace.StampIsTime` | libkg/tgtransport.cpp:1177-1178 | From 1970 to 2038 the high half of a stamp is the time |
| `WireTrace.SealKeepsOk` | libkg/tgtransport.cpp:1126-1197 | One more encrypted frame has a greater id than every frame since the last id was set back, for the first 26 million frames, and the right sequence number |
| `WireTrace.ReloadContinuesIff` | libkg/tgtransport.cpp:179-206 | After a reload the next content frame takes the number it would have taken without if and only if the counter read back is the one in use, or half the 32 bits away |
| `RequestLedger.HoldLosesIff` | libkg/tgtransport.cpp:1164-1165 | Holding a request overwrites none if and only if no request is pending under its id |
| `RequestLedger.ShelveLosesIff` | libkg/tgtransport.cpp:1291-1301 | Moving a request aside overwrites none if and only if none is aside under its id |
| `RequestLedger.WaitMovesRequest` | libkg/tgtransport.cpp:1296-1305 | FLOOD_WAIT moves that request and no other, or disposes of it if it was excluded from replay |
| `RequestLedger.MigrationMovesRequest` | libkg/tgtransport.cpp:1279-1294 | A MIGRATE error moves its request to the migration table on the main connection and disposes of it on another, and touches no other request |
| `RequestLedger.TextDecides` | libkg/tgtransport.cpp:1270-1321 | Any error text with _MIGRATE_ in it moves the account, or a file if it starts with FILE_; any other with FLOOD_WAIT_ in it waits; the code counts only for the rest |
| `TransportObjects.TgTransport.GetNewMessageId` | libkg/tgtransport.cpp:1174-1182 | Issues the specified id, one look at the clock per id |
| `TransportObjects.TgTransport.GenerateSequence` | libkg/tgtransport.cpp:1184-1197 | The specified number, the counter advanced for content only |
| `TransportObjects.TgTransport.SendMsgsAck` | libkg/tgtransport.cpp:1106-1124 | One acknowledgement of all that waits, or nothing before initialization |
| `TransportObjects.TgTransport.WriteSealed` | libkg/tgtransport.cpp:1140-1172 | One frame numbered and written, a request held under its id, the client told of it |
| `TransportObjects.TgTransport.SendMTMessage` | libkg/tgtransport.cpp:1126-1172 | The whole new state after sending a request, the nested acknowledgement and the plaintext case included |
| `TransportObjects.TgTransport.HandleRpcError` | libkg/tgtransport.cpp:1257-1321 | What an error of any code and text does to the three tables and the marks against replay, and the reset after a 401 |
| `TransportObjects.TgTransport.HandleBadMsgNotification` | libkg/tgtransport.cpp:1353-1390 | The counters corrected by the code, and the request sent again |
| `TransportObjects.TgTransport.HandleConfig` | libkg/tgtransport.cpp:1397-1423 | Everything waiting for a migration sent again, in the order of its keys |
| `TransportObjects.TgTransport.TimerEvent` | libkg/tgtransport.cpp:456-480 | Forty pending requests forgotten, the flooded ones sent again, acknowledgement and ping last |
| `TransportObjects.TgTransport.ResetSession` | libkg/tgtransport.cpp:99-119 | The whole new state after a reset |
| `TransportObjects.TgTransport.HandleKeyDerived` | libkg/tgtransport.cpp:1009-1019 | Counters zeroed, a new session, the reply in plaintext |
| `TransportSafety.StepKeeps` | libkg/tgtransport.cpp:99-1423 | Every entry point keeps the trace numbered and unwrites nothing; and if no error names a request that waits already, it overwrites no request unless two content frames carry one id |
| `TransportSafety.WireIsNumbered` | libkg/tgtransport.cpp:1126-1197 | Over every run, reconnections included: ids are divisible by four and strictly increase in write order wherever the last id was not set back in between, for 26 million frames; each sequence number is 2 * (what its run began with + content frames since), plus 1 on content; and the runs begun are exactly those of the new keys and the rejections 32 and 33, at 0, and of the start and the reloads, at the saved counter, each with its session |
| `TransportSafety.SessionIsNumbered` | libkg/tgtransport.cpp:1184-1197 | Over every run that reads no settings back and draws no session id twice, each sequence number is 2 * (content frames before it in its session), plus 1 on content; only the saved session adds the saved counter |
| `TransportSafety.EpochEndsIff` | libkg/tgtransport.cpp:1009-1390 | An event sets the last id back if and only if it is a new key, a reload, or a rejection with code 16, 17, 32 or 33; it begins a run at 0 for a new key and codes 32 and 33, at the saved counter for a reload, and otherwise none |
| `TransportContents.PendingIsOnTheWire` | libkg/tgtransport.cpp:1126-1172 | Over every run whatever, a request pending under an id is in a content frame with that id, itself up to 255 bytes and compressed beyond: after first sends, rejections, and replays of both tables |
| `TransportSpeech.StepSays` | libkg/tgtransport.cpp:99-1423 | What every event writes, frame by frame: each request as it was made, compressed beyond 255 bytes, in the session and with the salt of the moment, under a key after the acknowledgement of all that waits; and nothing else |
| `TransportSpeech.WireSays` | libkg/tgtransport.cpp:99-1423 | Over every run the wire is exactly what its events say, in order |
| `TransportSpeech.AckBytes` | libkg/tgtransport.cpp:1106-1124 | The acknowledgement byte for byte: constructor, vector, count, and every waiting id in eight bytes |
| `TransportSpeech.HeardIsAcknowledged` | libkg/tgtransport.cpp:1106-1137 | Unless the session is reset, ids that wait to be acknowledged go on waiting or are all in an acknowledgement that the event writes |
| `TransportSafety.OneEpochIsDistinct` | libkg/tgtransport.cpp:1174-1182 | Over a run of other events no two content frames carry one id |
| `TransportSafety.NothingIsOverwritten` | libkg/tgtransport.cpp:1126-1423 | Over every run in which no two content frames carry one id and no error names a request that waits already, no request is overwritten, by rejections, replays, migrations, new keys or reconnections |
| `TransportAccounts.StepBalances` | libkg/tgtransport.cpp:99-1423 | Every entry point keeps the account of requests, whatever came before |
| `TransportAccounts.StepBooks` | libkg/tgtransport.cpp:99-1423 | What each event makes of requests and disposes of, from its inputs and the state before: a reply or a final error its own request, a reset what is pending or awaiting migration, a keepalive what is pending once that is forty, anything sent without a key itself, and nothing else |
| `TransportAccounts.RequestsAreAccountedFor` | libkg/tgtransport.cpp:1257-1423 | Over every run whatever, the requests its events make = those held in the three tables + those its events dispose of + those overwritten, as multisets |
| `TransportAccounts.RequestsWaitUntilNamed` | libkg/tgtransport.cpp:1257-1423 | Where no two content frames carry one id and no error names a request that waits already, each request is on one of the three tables until one of those events names it |
| `TransportAccounts.MovingDisposesOfNone` | libkg/tgtransport.cpp:1257-1423 | With a key, rejections, replays, migrations of the account, first waits, new keys and reconnections dispose of no request |
| `TransportAccounts.KeepaliveForgetsIff` | libkg/tgtransport.cpp:456-463 | A keepalive forgets all that is pending if and only if that is forty or more |
| `TransportReplay.AcknowledgementGoesFirst` | libkg/tgtransport.cpp:1136-1151 | A request sent while acknowledgements wait goes out second, with the larger id and the odd number after the acknowledgement's even one |
| `TransportReplay.ShelfIsResent` | libkg/tgtransport.cpp:465-469 | Replaying a table takes every request on it back to pending under an id the client was told of, and disturbs no other, as long as no two content frames carry one id |
| `TransportReplay.RejectionOverwritesIff` | libkg/tgtransport.cpp:1353-1390 | A rejection overwrites another request if and only if that request is pending under the id that the code, the clock, the offset, the last id and the waiting acknowledgements come to |
| `TransportReplay.TwoRejectionsInOneSecond` | libkg/tgtransport.cpp:1371-1387 | Two code-32 rejections within one second come to the same id and the first request is lost |
| `TransportReplay.SecondFloodWaitLoses` | libkg/tgtransport.cpp:1296-1301 | A second FLOOD_WAIT for one request replaces the waiting body by an empty one |
| `TransportReplay.ExclusionIsNotRenamed` | libkg/tgtransport.cpp:1250-1255 | The mark against replay stays with the old id: after a resend a FLOOD_WAIT drops the request if and only if its new id happens to be marked |
| `TransportReplay.ReconnectingRewinds` | libkg/tgtransport.cpp:179-206 | A request sent after a reconnection takes the number, in the same session, of the one sent since the settings were last saved |
| `TransportReplay.FloodOutlivesReset` | libkg/tgtransport.cpp:99-119 | A reset empties the pending and migration tables but not the flood table |
| `Frames.PaddingIsEnoughIff` | libkg/tgtransport.cpp:1149 | Padding is 32..255 bytes if and only if the draw is not the least 32-bit integer, and acceptable on arrival if and only if it is not, or the odd part alone is 12 or more |
| `Frames.PaddingIsWhole` | libkg/tgtransport.cpp:1143-1149 | Header, body and padding are a whole number of 16-byte blocks for every body and draw |
| `Frames.FrameIsAcceptedIff` | libkg/tgtransport.cpp:582-677 | A frame under the shared key passes all tests if and only if it is whole blocks, in the padding limits, of this session, odd and unseen; and then the body read is the body sent |
| `Frames.AcceptedIffGenuine` | libkg/tgtransport.cpp:582-677 | Of all byte arrays those and no others are let in under a key that carry its id, the message key of what the rest decrypts to, this session, an odd unseen id, the length of the body, the body, and padding within the limits |
| `Frames.PlaintextAcceptedIff` | libkg/tgtransport.cpp:562-581 | And of those with no key id exactly those with an id, a length and that many bytes, during a handshake |
| `Frames.SentFrameMeetsTheRules` | libkg/tgtransport.cpp:1143-1151 | A sent frame meets every inbound rule but the parity of the id, save for the one bad draw |
| `Frames.InboundGate.ProcessMessage` | libkg/tgtransport.cpp:548-690 | The verdict on any bytes at all, and what it does to the ring and the count of bad packets |
| `Frames.InboundGate.AcceptMessageId` | libkg/tgtransport.cpp:692-720 | Accepts an id exactly when it is not in the ring, and then pushes it |
| `Frames.InboundGate.CountBadPacket` | libkg/tgtransport.cpp:722-735 | Every third bad packet in a row resets the connection |
| `Frames.RingOverRuns` | libkg/tgtransport.cpp:692-720 | Over every run of arrivals the ring is the last min(64, n) ids let in, and no two of any 65 in a row are equal |
| `Frames.EveryThirdResets` | libkg/tgtransport.cpp:722-735 | Of any row of packets rejected under the key every third resets the connection |
| `Frames.TurnedAwayIff` | libkg/tgtransport.cpp:706-709 | An id is turned away if and only if it is among the last 64 let in |
| `ClientTables.Client.HandleMessageChanged` | libkg/tgclient.cpp:441-467 | The new tables after a rename |
| `ClientTables.RenameKeepsAgreement` | libkg/tgclient.cpp:451-464 | Queues and packets stay in agreement: each file waits for exactly the requests carrying its parts, each once |
| `ClientTables.RenameKeepsPurpose` | libkg/tgclient.cpp:441-467 | Across the transport's, the update manager's and the file tables the new id stands for what the old one did, the old for nothing, and every other as before |
| `ClientTables.RenameGrowsExportsIff` | libkg/tgclient.cpp:449 | The table of exports grows with a rename if and only if neither id was in it |
| `ClientTables.FilesFollow` | libkg/tgclient.cpp:451-464 | Through any number of renames to fresh ids a request keeps its file and the queues their agreement |

## Left out

- Update manager: the throttled save (`maybeSave`) and its clock; saving and loading are modelled as one record. Signal receivers that call back into the manager while it works are not modelled. The tick counter is unbounded.
- Update contents: an update is its sequence data and an opaque content; the schema of Telegram's API types is not modelled.
- UpdateTypes: what a difference recovered is told in a dispatch of its own, so that it can be told apart from a pushed update; the original emits one signal for both.
- Pending updates: `qts` and secret chats, which nothing in the original reads.
- Transport: sockets, timers as real time, the backoff, data-centre addresses and the choice between them; a migration is the move to the migration table and the later replay. Settings are one saved record, and a data centre is always set.
- Transport: what gzip makes of a body, message containers and gzip contents on arrival; their nesting is bounded only by the bytes that arrive.
- Transport: the ring and the bad-packet count are a class of their own beside the tables, the original has one class. The time window on inbound ids is only logged there and is left out.
- Transport: re-entry into the transport from the client's handlers while a replay loop runs.
- TransportObjects.TgTransport.HandleRpcError: does not model the client's own handling of file migration, passwords and errors; the saving, acknowledging and reloading of a migration to another data centre are the events Stored, Acknowledge and Reloaded, which may follow.
- TransportSafety.WireIsNumbered: supposes of the id first read from the settings that it is at most the greatest stamp there is, which leaves the room that 26 million ids need.
- TransportAccounts.RequestsAreAccountedFor: counts bodies as a multiset, so two equal bodies are told apart by number only.
- Frames.FrameIsAcceptedIff: takes the frame to be made with the shared key by the other side's layout; that no other bytes pass the message key is cryptography.
- Codec.RoundTrip: goes one way for vectors and constructors; an object with fields of the wrong shape can come back by accident when what follows happens to fit. For scalars and byte strings it is an equivalence.
- Streams.TelegramStream.ReadByteArray: bytes a short read leaves uninitialised are zero here, and so are those a fixed-width writer adds to a short array.
- Codec: conversions of a QVariant from one kind to another (a number written as a byte string) give the empty value; floating-point numbers and Unicode text are left out, text is its bytes.
- MtSchema: the types whose pairs only repeat the shapes here, and the request methods.
- Factor.FindDivider: above 2^63 only divisibility is claimed, as DoublingIsExact shows the iteration inexact there; between 2^18 and 2^63 it is not said for which numbers the answer is 1; random numbers are a parameter.
- Pbkdf2.Derive: requires that the sums and products of its step counter stay within 32 bits; failures of the hashing library are left out.
- RsaPad.Pad: is given finitely many draws and says which are refused, where the original draws for ever.
- Srp.ComputeWithSecret: primality testing is an arbitrary predicate and the built-in prime an arbitrary number, so the theorems hold for any; allocation failures and the wiping of secrets are left out; the residue table is modelled, its number theory is not.
- Client: file transfer, passwords, the message store and the user interface.
