# A verified model of the snolc modules

This project models the parts of the snolc module repository that carry state across calls, and proves
what they keep over every run:

- `policy-local`: the quota protocol against a storage worker with late or missing replies, the token
  buckets and the weighted split of one global bucket, exactly-once administration, authentication and
  revocation, the traffic classifier with the gate that holds a flow back, the two-phase rules, the
  length-prefixed policy stream and the prefix scans of the store.
- `carrier-ssh`: the bounded byte bridge between two threads, one atomic access at a time.
- `protection-noise`: framing, handshake, handover and records over a lower stream that moves any part
  of a buffer, stalls, ends or fails.
- `adapter-socks5`: the RFC 1928 codec and its incremental front end.

## How it is built

Objects that the code updates in place are classes; each method's postcondition equates the new state
with a function of the old one, and the laws are lemmas about that function. Protocols are state
machines: a `World`, the `Event`s that can happen to it, `Apply`, `Feasible` runs, an invariant `Inv`
kept by every step, and theorems over `Run`. Clocks, replies, queue acceptance, and what the lower
streams do are arguments of the steps, so a theorem over all runs is a theorem over all schedules.

| file | source |
|---|---|
| `Basics.dfy`, `Utf8.dfy`, `Domain.dfy` | shared definitions; domain names of `sniff.rs` and `adapter-socks5` |
| `Accounting.dfy` | `policy-local/src/accounting.rs` |
| `Quota.dfy`, `Rate.dfy`, `Gate.dfy`, `Rules.dfy`, `Revocation.dfy`, `Replay.dfy` | `policy-local/src/lib.rs` |
| `Admin.dfy` | `policy-local/src/admin.rs` and the control protocol of `lib.rs` |
| `Sniff.dfy`, `ClientHello.dfy`, `HttpRequest.dfy` | `policy-local/src/sniff.rs` and encoders for what it reads |
| `Frame.dfy`, `Service.dfy`, `Storage.dfy` | `frame.rs`, `service.rs`, `storage.rs` of `policy-local` |
| `Bridge.dfy` | `carrier-ssh/src/bridge.rs` |
| `NoiseFrame.dfy`, `NoiseSession.dfy` | `protection-noise/src/lib.rs` |
| `Socks5.dfy` | `adapter-socks5/src/lib.rs` |

## Where the code falls short of the obvious claim

Each of these comes with the input that shows it and the condition under which the claim does hold.

- A replayed Ok of a revocation does not mean that the credential is revoked: `Replay.ReplayMayMislead`,
  `Replay.ReplayIsFinalIff`. Deleting the record and revoking it once more makes the replayed Ok true
  again, so the condition is a standing revocation and not the absence of a deletion.
- A user record that was read before a quota write and is cached after it loses charged bytes:
  `Quota.StaleRecordLosesCharge`, `Quota.CollectIsSafeIff`, `Quota.RecentIsSafe`. Two such records can pass
  the limit: `Quota.StaleRecordPassesLimit`, `Quota.CollectKeepsLimitIff`. At the end of the 64-bit range
  one makes the account refuse a confirmed debit: `Quota.StaleRecordRefusesWrite`,
  `Quota.ConfirmedWriteAcceptedIff`.
- The configured action for unknown protocols is never consulted: `Rules.UnknownFollowsFirstSurvivor`
  gives the exact answer for unknown traffic, `Rules.UnknownMayDiffer` a list where it is not the first
  match, `Rules.UnknownAgreesIff` when it is.
- The poll that drains a sniffed prefix can report more than its total: `Gate.BudgetMayBreak`,
  `Gate.BudgetKeptIff`. The global bucket is then charged less than was written: `Rate.PaysExactlyIff`.
- The bridge can report end of stream with a chunk queued: `Bridge.EofMayComeEarly`,
  `Bridge.EofDrainedIff`, and `Bridge.EofAfterClose` for reads begun after the close.
- A bridge writer can park after missing a close: `Bridge.WriterMayMissClose`, `Bridge.CloseWakesIff`.
- Weighted shares fit the bucket only while the total weight fits 64 bits: `Rate.SaturatedSharesOverrun`,
  `Rate.SharesFitIff`, `Rate.NobodyStarvesIff`; `Rate.NoSaturation` shows it does for up to 2^32 users.
- A bucket whose refill has overflowed never recovers: `Accounting.OverflowIsForGood`; a global one
  starves every user: `Rate.OverflowStarvesAll`.
- The end of a Noise stream inside a record is reported like a clean end: `NoiseSession.EndMayCutRecord`,
  `NoiseSession.EndIsCleanIff`.
- SOCKS5 input is cut off by what arrives in one poll: `Socks5.GroupingMatters`, `Socks5.PollsFeedIff`.

## Assumptions

- Quota runs take `user/<id>` to be written by the quota protocol only. The clock write of an
  authentication and administrative updates write whole records too, and disabling or deleting a user drops
  its entry; none of these is a step there. Reads by authentications and administrative commands are, with
  the record cached whenever its reader gets to it. A failed quota write may or may not have reached the
  store.
- Administrative and credential transactions are atomic: a failed one leaves the store unchanged, and a
  crash may find a queued one executed or not.
- Equal digests mean equal requests and credentials; serialisation is inverse to parsing.
- A pump copies in order and writes at most what it is allowed.
- The bridge's atomic operations are sequentially consistent, and waking a registered waker notifies its
  task.
- The Noise cipher is ideal: a sealed record opens under its own number, is 16 bytes longer than the
  plaintext, and the two handshake messages are accepted when unaltered. The lower streams are reliable
  and in order in both directions.

## Model

| member | source | states |
|---|---|---|
| `Accounting.QuotaAccount.constructor` | modules/policy-local/src/accounting.rs:13-29 | a new account has the durable charge given, no credit and nothing pending |
| `Accounting.QuotaAccount.TryRequestCredit` | modules/policy-local/src/accounting.rs:31-45 | the account after asking for credit, bounded by block and limit; errors change nothing |
| `Accounting.QuotaAccount.TryCommitCredit` | modules/policy-local/src/accounting.rs:47-62 | a confirmed debit moves the whole amount into charge and credit, or is refused unchanged |
| `Accounting.QuotaAccount.TryCharge` | modules/policy-local/src/accounting.rs:69-75 | spending is refused unchanged when credit is short |
| `Accounting.QuotaAccount.TryRequestRefund` | modules/policy-local/src/accounting.rs:83-93 | the refund asked for is the credit left |
| `Accounting.QuotaAccount.TryCommitRefund` | modules/policy-local/src/accounting.rs:95-106 | a confirmed refund leaves charge and credit lower by the same amount, or is refused unchanged |
| `Accounting.QuotaAccount.CheckpointRefund` | modules/policy-local/src/accounting.rs:77-81 | request and commit of a refund in one call, with every failing case |
| `Accounting.QuotaAccount.AbandonCredit` | modules/policy-local/src/accounting.rs:64-67 | a failed debit is no longer pending and leaves no credit |
| `Accounting.QuotaAccount.AbandonRefund` | modules/policy-local/src/accounting.rs:108-111 | a failed refund is no longer pending and forfeits the credit |
| `Accounting.TokenBucket.RefillTo` | modules/policy-local/src/accounting.rs:179-193 | the bucket after a refill with its exact fractional carry, overflow and clock errors included |
| `Accounting.TokenBucket.TakeUpTo` | modules/policy-local/src/accounting.rs:148-153 | grants what is there up to the request after a refill |
| `Accounting.TokenBucket.WaitFor` | modules/policy-local/src/accounting.rs:155-168 | the wait reported, rounded up, and the refilled bucket |
| `Accounting.TokenBucket.GiveBack` | modules/policy-local/src/accounting.rs:170-172 | returned tokens never exceed the burst |
| `Accounting.RefillTwice` | modules/policy-local/src/accounting.rs:179-193 | stopping half way gives the same bucket as one refill |
| `Accounting.RefillsCompose` | modules/policy-local/src/accounting.rs:179-193 | any ascending schedule of refills ends with the tokens, fraction and clock of a single one, when that one does not overflow |
| `Accounting.LongEnough` | modules/policy-local/src/accounting.rs:155-168 | a delay makes the bytes available if and only if it and the carried fraction produce what is missing |
| `Accounting.WaitSuffices` | modules/policy-local/src/accounting.rs:155-168 | waiting as long as reported makes any amount within the burst available |
| `Accounting.CallKeepsRate` | modules/policy-local/src/accounting.rs:148-193 | no single call creates tokens faster than the rate |
| `Accounting.RateBound` | modules/policy-local/src/accounting.rs:131-193 | over every run of takes, refunds and queries, grants minus refunds stay within burst plus rate times elapsed time |
| `Accounting.OverflowIsForGood` | modules/policy-local/src/accounting.rs:179-193 | once a refill has overflowed, no later call of any run grants a byte |
| `Quota.Meter.AskRefund` | modules/policy-local/src/lib.rs:1383-1435 | the refund step of the loop body, statement by statement, changes this user's entry to what the protocol function says |
| `Quota.Meter.AskCredit` | modules/policy-local/src/lib.rs:1436-1488 | the same for the credit step |
| `Quota.Meter.CollectRefund` | modules/policy-local/src/lib.rs:1352-1382 | the same for settling a pending refund on its reply |
| `Quota.Meter.CollectDebit` | modules/policy-local/src/lib.rs:1322-1351 | the same for settling a pending debit and for failed users |
| `Quota.Meter.TakeTurn` | modules/policy-local/src/lib.rs:1255-1489 | one turn of the loop body, from making the entry to the write handed to storage, is the protocol function; no other user changes |
| `Quota.Meter.AdvanceQuota` | modules/policy-local/src/lib.rs:1233-1496 | every user takes exactly its own turn whatever order the loop visits them in |
| `Quota.CrashSafe` | modules/policy-local/src/lib.rs:1233-1489 | in every run of late, failed or lost replies, charges, crashes and restarts that caches only records read since the last confirmed write, the stored charge covers all bytes ever charged and stays within the limit |
| `Quota.ConfirmedWriteAccepted` | modules/policy-local/src/lib.rs:1019-1021 | in such runs a confirmed debit or refund is always accepted by the account, because nothing is charged while a write is in flight |
| `Quota.ConfirmedWriteAcceptedIff` | modules/policy-local/src/lib.rs:1330-1339 | whatever records are cached, a confirmed refund is accepted always, a confirmed debit if and only if the account stays within 64 bits, and always under a limit |
| `Quota.CleanRunIsExact` | modules/policy-local/src/lib.rs:2745-2770 | without failures or crashes, and with recent records only, an idle user is stored with exactly the initial charge plus the bytes charged |
| `Quota.CollectIsSafeIff` | modules/policy-local/src/lib.rs:1783-1784 | caching a record read earlier keeps the charge covered in every continuation if and only if it covers what was charged plus the spare credit, or a confirmed write is about to replace it |
| `Quota.RecentIsSafe` | modules/policy-local/src/lib.rs:2284-2296 | a record read since the last confirmation of a quota write is safe to cache, for the charge and for the limit |
| `Quota.SafeRecordsCover` | modules/policy-local/src/lib.rs:1233-1489 | in every run that caches safe records only, however old, the stored charge covers all bytes charged |
| `Quota.WithinRecordsKeepLimit` | modules/policy-local/src/lib.rs:1233-1489 | in every run that caches no record ahead of an account that can still buy, the stored charge stays within the limit |
| `Quota.CollectKeepsLimitIff` | modules/policy-local/src/lib.rs:1783-1784 | caching a record read earlier keeps the limit in every continuation if the record is not ahead of a resting account that can still buy, and only if, as long as 64 bits hold what would be stored |
| `Quota.StaleRecordPassesLimit` | modules/policy-local/src/lib.rs:1451-1483 | two late records, the second ahead of the account: 1200 bytes are stored under a limit of 1150, without any failure |
| `Quota.StaleRecordLosesCharge` | modules/policy-local/src/lib.rs:1777-1791 | a record read before a debit and cached after it: the store ends at 940 with 1040 bytes charged, without any failure |
| `Quota.StaleRecordRefusesWrite` | modules/policy-local/src/lib.rs:1330-1337 | near the end of the 64-bit range such a record makes the account refuse a confirmed debit |
| `Quota.DrainStep` | modules/policy-local/src/lib.rs:1318-1435 | each shutdown poll with its writes answered lowers the user's rank |
| `Quota.DrainsInThreePolls` | modules/policy-local/src/lib.rs:2745-2770 | three answered shutdown polls leave no traffic entry, from any state |
| `Rate.TotalWeight` | modules/policy-local/src/lib.rs:991-1001 | the saturating fold is the true total, cut at the largest 64-bit value |
| `Rate.NoSaturation` | modules/policy-local/src/lib.rs:991-1001 | with up to 2^32 users the fold never saturates |
| `Rate.SharesFit` | modules/policy-local/src/lib.rs:1222-1231 | the shares of one poll never add up to more than is available |
| `Rate.ShareIsThere` | modules/policy-local/src/lib.rs:1006-1056 | whatever earlier users hold, a user's full share is still in the bucket at its turn |
| `Rate.FlowPaysExactly` | modules/policy-local/src/lib.rs:1511-1572 | a flow that writes within its grant pays each of its user's buckets for exactly the bytes it wrote |
| `Rate.ServedAsPlanned` | modules/policy-local/src/lib.rs:1006-1056 | with its share still in the bucket a user gets exactly the grant planned from that share, and the bucket goes down by exactly what the user holds |
| `Rate.Schedule` | modules/policy-local/src/lib.rs:991-1056 | the loop over any number of users computes the fold of their turns, with the saturating total |
| `Rate.NobodyStarves` | modules/policy-local/src/lib.rs:991-1056 | while the total weight fits 64 bits every user gets exactly the grant planned from its own share, and the bucket ends lower by the sum of what they hold |
| `Rate.SharesFitIff` | modules/policy-local/src/lib.rs:1222-1231 | the shares fit every bucket if and only if the total weight fits 64 bits |
| `Rate.GrantsFit` | modules/policy-local/src/lib.rs:1006-1056 | whatever the shares, the grants of a poll never exceed the tokens that were there |
| `Rate.NobodyStarvesIff` | modules/policy-local/src/lib.rs:991-1056 | users with enough to do all get their planned grants out of a full bucket of the largest size if and only if the total weight fits 64 bits |
| `Rate.SaturatedSharesOverrun` | modules/policy-local/src/lib.rs:991-1001 | a list of such users whose total weight does not fit |
| `Rate.OverflowStarvesAll` | modules/policy-local/src/lib.rs:1002-1056 | once the global bucket has overflowed, every later poll grants nothing to anybody and leaves the bucket as it is |
| `Rate.RefundReturns` | modules/policy-local/src/lib.rs:1537-1572 | one refund returns what was held and not used, also when more was written than granted |
| `Rate.RefundAll` | modules/policy-local/src/lib.rs:1112-1117 | the loop over the refunds of a poll computes their fold |
| `Rate.RefundsCompose` | modules/policy-local/src/lib.rs:1537-1572 | refunding all grants leaves the bucket lower by exactly what each keeps |
| `Rate.PollOnce` | modules/policy-local/src/lib.rs:991-1117 | one poll end to end, schedule, writes and refunds: each user gets its planned grant and the global bucket ends lower by exactly what the users keep |
| `Rate.PaysExactlyIff` | modules/policy-local/src/lib.rs:1537-1572 | that is exactly the bytes written, plus the draws of users whose own buckets failed, if and only if every flow stayed within its combined grant; otherwise less |
| `Frame.FrameDecoder.PushBytes` | modules/policy-local/src/frame.rs:21-51 | the decoder's loop over a chunk computes the decoding function, errors included |
| `Frame.PushSplits` | modules/policy-local/src/frame.rs:21-51 | pushing two pieces equals pushing them joined, errors included |
| `Frame.ChunksDoNotMatter` | modules/policy-local/src/frame.rs:21-51 | any fragmentation gives what one push of all bytes gives |
| `Frame.DecodesAll` | modules/policy-local/src/frame.rs:21-61 | concatenated frames decode to their texts, whatever follows |
| `Frame.FragmentationRoundTrip` | modules/policy-local/src/frame.rs:21-61 | for every fragmentation of encoded texts the decoder returns exactly those texts |
| `Frame.PushKeeps` | modules/policy-local/src/frame.rs:21-51 | the buffer never exceeds the limit plus four, and a bad length is reported exactly when the decoder is left poisoned |
| `Frame.BadLengthRepeats` | modules/policy-local/src/frame.rs:21-51 | after a bad length every nonempty push fails the same way |
| `Service.SessionChannel.Enqueue` | modules/policy-local/src/service.rs:74-94 | a response is framed and appended, or refused with the channel unchanged |
| `Service.SessionChannel.OfferSnapshot` | modules/policy-local/src/service.rs:96-99 | a snapshot replaces the waiting one |
| `Service.SessionChannel.Poll` | modules/policy-local/src/service.rs:101-158 | one poll reads, selects a frame and writes as the channel function says |
| `Service.PollRefines` | modules/policy-local/src/service.rs:101-158 | the output of a poll grows by exactly what the stream took |
| `Service.PeerDecodesStream` | modules/policy-local/src/service.rs:74-158 | for any use and any fragmentation the peer decodes exactly the frames written: a prefix of the responses in order, and snapshots as an in-order selection of those offered |
| `Service.DrainedMeansDelivered` | modules/policy-local/src/service.rs:101-158 | with nothing left to write, every accepted response has been delivered |
| `Sniff.ParseSniLoop` | modules/policy-local/src/sniff.rs:115-133 | the walk over a name list stays in bounds, ends on every input and finds what the recursive scan finds |
| `Sniff.ClassifyTlsLoop` | modules/policy-local/src/sniff.rs:47-113 | the same for the walk over the record and its extensions |
| `Sniff.CompleteDecides` | modules/policy-local/src/sniff.rs:16-37 | told that no more bytes come, the classifier decides on every input |
| `Sniff.TlsStable` | modules/policy-local/src/sniff.rs:47-113 | a TLS verdict survives appending any bytes |
| `Sniff.HttpStable` | modules/policy-local/src/sniff.rs:135-156 | an HTTP verdict survives appending any bytes |
| `Sniff.VerdictStable` | modules/policy-local/src/sniff.rs:16-37 | a verdict on a prefix is the verdict on every longer prefix, complete or not |
| `ClientHello.SkipsFront` | modules/policy-local/src/sniff.rs:65-93 | session id, cipher list and compression list of any length are skipped exactly |
| `ClientHello.ScanExtensionsFinds` | modules/policy-local/src/sniff.rs:94-113 | walking encoded extensions finds the first server_name |
| `ClientHello.ScanNamesFinds` | modules/policy-local/src/sniff.rs:115-133 | walking an encoded name list finds the first host_name |
| `ClientHello.HelloReadsBack` | modules/policy-local/src/sniff.rs:47-113 | for every encodable hello the parser returns the name in its first server_name extension |
| `ClientHello.RecordReadsBack` | modules/policy-local/src/sniff.rs:47-113 | for every ClientHello that fits one record, with anything behind it, the classifier answers TLS with that name |
| `ClientHello.FindsTheHost` | modules/policy-local/src/sniff.rs:47-133 | with any other extensions and names in front, the host comes back in lower case exactly when it is a valid domain |
| `HttpRequest.HeadReadsBack` | modules/policy-local/src/sniff.rs:135-156 | for every request line, headers and body the classifier answers with the first header carrying a usable host |
| `HttpRequest.HostHeaderReadsBack` | modules/policy-local/src/sniff.rs:149-166 | a Host header in any case, with blanks and an optional port, gives the domain in lower case |
| `HttpRequest.FindsTheHost` | modules/policy-local/src/sniff.rs:135-166 | the host is found behind any other headers, without its port, in lower case |
| `Rules.DestinationPolicy` | modules/policy-local/src/lib.rs:1880-1928 | the loop over the rules gives the verdict of the first rule that survives the destination |
| `Rules.ObservedAllowed` | modules/policy-local/src/lib.rs:1936-1966 | the loop over the kept rules computes the second-phase answer |
| `Rules.TwoPhaseIsFirstMatch` | modules/policy-local/src/lib.rs:1880-1978 | for every list, destination, group and known observation the two phases answer like the first matching rule of the original list |
| `Rules.EarlyDecisionIsFinal` | modules/policy-local/src/lib.rs:1880-1934 | a decision made without sniffing is one no known observation could change |
| `Rules.UnknownFollowsFirstSurvivor` | modules/policy-local/src/lib.rs:1936-1966 | unknown traffic is answered by the first surviving rule alone |
| `Rules.UnknownAgreesIff` | modules/policy-local/src/lib.rs:1880-1966 | unknown traffic is answered by first match if and only if no rule survives, the first survivor speaks about unknown traffic, or its fallback equals what the first rule that does speak about it says |
| `Rules.UnknownMayDiffer` | modules/policy-local/src/lib.rs:1936-1966 | a list on which unknown traffic is not answered by first match |
| `Gate.PolicyFlow.SniffLoop` | modules/policy-local/src/lib.rs:387-429 | the read loop ends because each turn rules or buffers one of the bytes left, and rules as the specification does |
| `Gate.PolicyFlow.Poll` | modules/policy-local/src/lib.rs:379-461 | one poll of the sniffer: ruling, then draining the allowed prefix |
| `Gate.BuffersWhatItReads` | modules/policy-local/src/lib.rs:404-428 | the buffered prefix is exactly the bytes the reads returned, in order |
| `Gate.RulingIgnoresFragmentation` | modules/policy-local/src/lib.rs:387-429 | before the deadline the ruling is the one on the first `max_bytes` of the stream, however it is cut, and the prefix is the front of the stream |
| `Gate.CopiesInOrder` | modules/policy-local/src/lib.rs:330-461 | in every run both outputs are prefixes of what was read on the other side |
| `Gate.NothingPassesUnjudged` | modules/policy-local/src/lib.rs:330-461 | no byte moves either way before the prefix is allowed; while it drains it is all that was read and was allowed as classified, afterwards it is the front of what was read |
| `Gate.VerdictBehindEveryByte` | modules/policy-local/src/lib.rs:330-461 | when no deadline passes, a byte has moved only if the classification of the first `max_bytes` of the whole stream is allowed |
| `Gate.BudgetKeptIff` | modules/policy-local/src/lib.rs:337-376 | with n bytes of an allowed prefix left and limits s, m, t, every poll keeps its total if and only if n exceeds min(m, t) or n + min(s, t) is at most t |
| `Gate.BudgetKeptUnruled` | modules/policy-local/src/lib.rs:337-376 | before a ruling the total is kept when the buffered prefix exceeds min(m, t) or min(m, t) + min(s, t) is at most t |
| `Gate.BudgetMayBreak` | modules/policy-local/src/lib.rs:345-350 | a first poll limited to one byte that reports two |
| `Gate.BudgetKeptWhenOpen` | modules/policy-local/src/lib.rs:337-376 | past the sniffer the budget always holds |
| `Storage.RangeIsPrefix` | modules/policy-local/src/storage.rs:497-503 | the key range from a prefix to its successor holds exactly the keys with that prefix |
| `Storage.Scan` | modules/policy-local/src/storage.rs:457-475 | a scan returns exactly the entries with the prefix in order, or an error if and only if the prefix is unknown or they exceed the limit |
| `Admin.AdminSequencer.Check` | modules/policy-local/src/admin.rs:668-686 | replay, proceed or refuse by the client's receipt, without changing anything |
| `Admin.AdminSequencer.Commit` | modules/policy-local/src/admin.rs:724-734 | a receipt is taken over only as the next of its client, otherwise nothing changes |
| `Admin.AdminSequencer.RestoreOne` | modules/policy-local/src/admin.rs:736-744 | a stored receipt is taken over exactly when its client id is valid and there is room |
| `Admin.AdminSequencer.RestoreAll` | modules/policy-local/src/lib.rs:552-565 | start-up succeeds exactly on valid receipts within the limit and then holds exactly the stored ones |
| `Admin.ExactlyOnce` | modules/policy-local/src/lib.rs:2114-2240 | over all retries, clients and crashes, a client's executed transactions are numbers 1 to n, once each and in order, with n in the stored receipt |
| `Admin.DurableWriteAccepted` | modules/policy-local/src/lib.rs:2129-2148 | after a durable write the sequencer always accepts the receipt, and agrees with the store |
| `Admin.SameAnswerAlways` | modules/policy-local/src/lib.rs:2114-2240 | all successful answers to one client and number are byte for byte the same |
| `Admin.ResendReplays` | modules/policy-local/src/lib.rs:2149-2217 | a resend of the last command, fresh or while its record is read, writes nothing and answers if and only if nothing hinders it, with the recorded response |
| `Admin.ResendReplaysAfterRead` | modules/policy-local/src/lib.rs:2149-2217 | a resend that must load a record starts the read, and once answered replays the response with store and log unchanged |
| `Revocation.Memory.RetainFlows` | modules/policy-local/src/lib.rs:2646-2668 | dropping flows one by one keeps exactly those of running users and unpurged credentials |
| `Revocation.Memory.RetainSessions` | modules/policy-local/src/lib.rs:2658-2680 | the same for sessions |
| `Revocation.Memory.ApplyAdminMutation` | modules/policy-local/src/lib.rs:2572-2681 | the in-place update leaves credential caches, flows and sessions as the specification of a mutation says |
| `Revocation.NextAuthSound` | modules/policy-local/src/lib.rs:1703-1768 | an authentication step never takes a session past its credential unless the reply grants it |
| `Revocation.ChangesAreSafe` | modules/policy-local/src/lib.rs:2355-2460 | every credential change deletes, revokes, or adds a digest the store does not have: none un-revokes |
| `Revocation.BarsSurvive` | modules/policy-local/src/lib.rs:2129-2138 | a transaction lifts the bar on a revoked digest only by deleting its record |
| `Revocation.SweptSessions` | modules/policy-local/src/lib.rs:2662-2681 | after the sweep no session holds or can still gain a barred credential |
| `Revocation.RevocationIsFinal` | modules/policy-local/src/lib.rs:1703-1791 | once a revocation has returned Ok, no later state holds an authenticated session, an admitted flow or a flow with that digest until its record is deleted, whatever reads were in flight and however often the process crashed |
| `Replay.RevokedIffStands` | modules/policy-local/src/lib.rs:2355-2460 | a digest once revoked is revoked now if and only if some revocation since has not been followed by a deletion |
| `Replay.ReplayIsFinalIff` | modules/policy-local/src/lib.rs:2206-2217 | the Ok replayed from the receipt is final if and only if the digest is revoked in the store at that moment, that is, some revocation at or after the receipt stands undeleted |
| `Replay.ReplayIsFinalUntilDeleted` | modules/policy-local/src/lib.rs:2206-2217 | it is final when nothing has deleted the record since the receipt was written |
| `Replay.ReplayMayMislead` | modules/policy-local/src/lib.rs:2206-2217 | revoke a credential, delete its user, create another and add the credential for that one, authenticate: the resent revocation is answered Ok while a session acts under the digest |
| `Bridge.BytePipe.constructor` | modules/carrier-ssh/src/bridge.rs:28-36 | a new pipe is open and empty with no wakers |
| `Bridge.BytePipe.ReaderMoves` | modules/carrier-ssh/src/bridge.rs:62-96 | each atomic access of `poll_read` and of the reader's drop |
| `Bridge.BytePipe.WriterMoves` | modules/carrier-ssh/src/bridge.rs:98-124 | each atomic access of `poll_write`, `shutdown` and the writer's drop |
| `Bridge.BytePipe.Drain` | modules/carrier-ssh/src/bridge.rs:76-82 | the byte loop hands over the front of `current` and keeps the rest |
| `Bridge.BytesConserved` | modules/carrier-ssh/src/bridge.rs:62-124 | under every interleaving accepted bytes are delivered bytes, then `current`, then the queued chunks; queue and chunks keep their bounds and the counts returned are the bytes moved |
| `Bridge.ReaderIsWoken` | modules/carrier-ssh/src/bridge.rs:70-96 | a reader that returned Pending with a chunk queued or the pipe closed has been notified, or the writer's next step notifies it |
| `Bridge.WriterIsWoken` | modules/carrier-ssh/src/bridge.rs:98-124 | a parked writer is notified once the reader has made room |
| `Bridge.CloseWakesIff` | modules/carrier-ssh/src/bridge.rs:98-133 | a writer parked on a closed pipe is woken by the close if and only if its registration did not come after the reader's last wake |
| `Bridge.EofDrainedIff` | modules/carrier-ssh/src/bridge.rs:70-96 | end of stream is reported with everything delivered if and only if no push came between the last pop and the look at the flag |
| `Bridge.EofAfterClose` | modules/carrier-ssh/src/bridge.rs:70-96 | a read begun after the close reports the end only when everything accepted has been delivered |
| `Bridge.EofMayComeEarly` | modules/carrier-ssh/src/bridge.rs:70-85 | an interleaving that reports the end with a byte queued |
| `Bridge.WriterMayMissClose` | modules/carrier-ssh/src/bridge.rs:103-118 | an interleaving that leaves the writer parked for good on a closed pipe |
| `NoiseFrame.FrameBuffer.PushBytes` | modules/protection-noise/src/lib.rs:79-92 | appending bytes and accepting or refusing the header they complete |
| `NoiseFrame.FrameBuffer.TakeFrame` | modules/protection-noise/src/lib.rs:94-106 | a message is taken exactly when its frame is complete, leaving the reader empty |
| `NoiseFrame.FrameBuffer.ReadFrameLoop` | modules/protection-noise/src/lib.rs:789-826 | the read loop computes the specification for every sequence of lower answers |
| `NoiseFrame.FlushBytes` | modules/protection-noise/src/lib.rs:764-787 | the write loop hands over exactly the bytes between the old and the new offset |
| `NoiseFrame.CapacityZeroIff` | modules/protection-noise/src/lib.rs:108-112 | the reader has no room left exactly when it holds a refused header |
| `NoiseFrame.ZeroCapacityMeansBadHeader` | modules/protection-noise/src/lib.rs:789-826 | against any peer and lower stream the zero-capacity error is reached if and only if the header read is bad, and then repeats without reading |
| `NoiseFrame.ReadsExactly` | modules/protection-noise/src/lib.rs:789-826 | every read schedule takes exactly one whole frame and not one byte behind it |
| `NoiseSession.Connection.WriteBytes` | modules/protection-noise/src/lib.rs:654-697 | flush what waits, then seal at most one record of the input |
| `NoiseSession.Connection.ReadBytes` | modules/protection-noise/src/lib.rs:592-637 | copy left-over plaintext, or read, open and copy the next record |
| `NoiseSession.Connection.CopyOut` | modules/protection-noise/src/lib.rs:639-652 | hands over the front of the plaintext and clears it when used up |
| `NoiseSession.Connection.DriveHandshake` | modules/protection-noise/src/lib.rs:530-581 | one call of the handshake driver of either side |
| `NoiseSession.WriteAccepts` | modules/protection-noise/src/lib.rs:654-697 | a write that reports n bytes has accepted exactly the first n of its input, any other none |
| `NoiseSession.DeliveredIsPrefix` | modules/protection-noise/src/lib.rs:592-697 | for every schedule of partial writes, reads and stalls through handshake and records, delivered plaintext is a prefix of accepted plaintext, both ways |
| `NoiseSession.DrainedMeansDelivered` | modules/protection-noise/src/lib.rs:592-697 | with the sender flushed and its stream read empty, all of it has arrived |
| `NoiseSession.EndIsCleanIff` | modules/protection-noise/src/lib.rs:613-624 | a read that reports the end of an exhausted stream has delivered every whole record; the stream was cut inside one if and only if the reader still holds a part |
| `NoiseSession.EndMayCutRecord` | modules/protection-noise/src/lib.rs:820-824 | a run in which the end inside a record is reported like a clean end |
| `NoiseSession.HandoverExact` | modules/protection-noise/src/lib.rs:530-590 | in every run the call that opens a side leaves its incoming stream exactly at the first record and has sent all it said |
| `NoiseSession.ReadsFailOnlyBelow` | modules/protection-noise/src/lib.rs:592-637 | no run meets a bad frame or a record that does not open: reads fail only where the lower stream does or at the record limit |
| `Socks5.UdpReadsBack` | modules/adapter-socks5/src/lib.rs:537-557 | parsing undoes printing for every valid address, nonzero port and payload |
| `Socks5.UdpPrintsBack` | modules/adapter-socks5/src/lib.rs:70-83 | an accepted datagram is exactly the printed header of its address and port followed by its payload |
| `Socks5.CutRequestIsDecided` | modules/adapter-socks5/src/lib.rs:301-309 | a request cut at its length is never refused as incomplete or trailing |
| `Socks5.RequestReadsBack` | modules/adapter-socks5/src/lib.rs:49-68 | every valid request in its RFC 1928 section 4 form is parsed back |
| `Socks5.RequestPrintsBack` | modules/adapter-socks5/src/lib.rs:49-128 | nothing else parses: an accepted request is valid and its printed form is the input |
| `Socks5.ParseSplits` | modules/adapter-socks5/src/lib.rs:235-272 | parsing after a first piece changes nothing against parsing once after both |
| `Socks5.FragmentationIgnored` | modules/adapter-socks5/src/lib.rs:235-272 | phase, queued replies and left-over payload do not depend on how the bytes were cut |
| `Socks5.PollsFeedIff` | modules/adapter-socks5/src/lib.rs:212-233 | polls do what feeding their bytes does if and only if at each poll the bytes held and those that arrive are within the limit |
| `Socks5.GroupingMatters` | modules/adapter-socks5/src/lib.rs:212-233 | the same bytes in two polls are answered and in one poll fail the connection |
| `Socks5.ClientIsServed` | modules/adapter-socks5/src/lib.rs:235-272 | a client following RFC 1928 sections 3 and 4 gets one two-byte reply, its request is read back and its payload kept, however its bytes are cut |
| `Socks5.ClientConnection.ParseInput` | modules/adapter-socks5/src/lib.rs:235-272 | the in-place parse of greeting and request |
| `Socks5.ClientConnection.QueueReply` | modules/adapter-socks5/src/lib.rs:274-280 | a reply is appended to what is still to be written |
| `Socks5.ClientConnection.WritePending` | modules/adapter-socks5/src/lib.rs:282-294 | reply bytes move to the stream in order, none lost or added |
| `Socks5.ClientConnection.Poll` | modules/adapter-socks5/src/lib.rs:212-233 | one poll: the bytes that arrived within the limit, then the parse |

## Left out

- Quota.CollectKeepsLimitIff: gives only the sufficient half where the record that would be stored leaves 64 bits, because which debit then fails first depends on the block size.
- Quota.CrashSafe: speaks of charged bytes; a flow poll that ends in an error reports zero bytes, so bytes it moved before are charged to nobody (modules/policy-local/src/lib.rs:1093-1101).
- Gate.BudgetKeptUnruled: gives a sufficient condition only; before a ruling the prefix that will be drained depends on reads to come.
- Gate.RulingIgnoresFragmentation: speaks of rulings made before the deadline; at the deadline the prefix read so far is ruled on.
- NoiseSession.DeliveredIsPrefix: lower streams neither reorder nor alter bytes; tampering is the cipher's business and the cipher is ideal here.
- Revocation.Memory.ApplyAdminMutation: has no user, rule, traffic and deficit tables; of those only the set of stopped users enters.
- Authentication, control and flow bookkeeping in the revocation model are steps on values; only the mutation sweep is modelled in place. Reads are answered in any order, which includes the worker's queue order.
- The user and rule caches, `user.disable` against half-finished authentications, `max_sessions` and the deficit counters of the flow scheduler: the code keeps no run-wide invariant of them worth stating.
- UDP classification and datagram flows, weekly access windows and expiry: single checks.
- Configuration, key files, paths, backup and restore of the database file: input and output.
- The C interface of the modules, handle registries and waker reference counts.
- adapter-direct, adapter-tun, adapter-http-connect, carrier-tcp, the SSH protocol half of carrier-ssh, policy-dummy and protection-dummy.
