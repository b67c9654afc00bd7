# The self-healing realtime connection, modelled and proved

This project models the realtime WebSocket client of the KIS library: the connection of
`kis/ws` that reconnects by itself, the wire format it decodes, and the two pieces of timing
arithmetic beside it (the reconnect backoff and the REST limiter).

## How the model is laid out

* `Prelude`, `Text`, `Base64`: bytes, trimming, splitting, decimal numbers, RFC 4648 section 4.
* `Frame`, `Crypto`, `Execution`, `Pipeline`: from the text of a frame to an event. The block cipher
  enters as a pair of functions with `decrypt(key, encrypt(key, b)) == b`; JSON decoding enters as a function.
* `Protocol`: the closed vocabulary of verdicts.
* `Core` and `Conn`: the state under the connection's mutex. `Core` says as functions what each critical
  section does; class `Conn` performs the sections in place, with the source's own loops over `subs` and
  `pending`, and each method is proved equal to its function. Class `PendingAck` is a waiter with its
  one-place channel.
* `Machine`: the protocol. The `run` goroutine, any number of requests, one resubscribe pass per installed
  socket, and `Close` each have a program counter. Every critical section is one step and every read, write,
  dial, provider call, timer, channel operation and socket close is another, with the environment choosing
  its outcome. `Execute` runs any schedule; history records the frames on every socket, the fate of every
  waiter, the frames read, the calls made, the notifications, and the operations on the subscription list.
* `Sockets`, `Keys`, `Waiters`, `Passes`, `Delivery` (with the reference computation `Replay`), `Arrivals`,
  `Runs` (with `Approval`), `Dials`, `Wires`, `Outcomes`, `Notices` and `Subscriptions`: one inductive invariant
  each.
* `Safety` joins them by one induction over schedules; `Theorems` states what follows for every reachable state.
* `Fifo`: the scanned list as FIFO queues. `Lasting`: when an unsubscribe lasts. `Schedules`, `Quiet` and `Rough`:
  reconnects without and with failures. `Cycle`: one whole life of a connection, for any list. `Races`: what the
  protocol leaves open, each race with a run in which it occurs. `Stranding`, `Stale` and `Finality`: exactly when
  a request can be stranded, a stale pass is done, and a stop is final.
* `Limiter` and `Backoff`.

A theorem about every schedule takes `Reachable(env, s)`: some initial key and some sequence of steps lead to
`s`. `Runs.Sound` asks of the verdict function what `Runs.KisSound` proves of the real one.

## Where the code does less than its prose

* The guide says a reconnect restores every active subscription and then reports (`README.md:106-110`). A request of
  the resubscribe pass that finds no socket in use, cannot be written, or is refused takes its subscription off the
  list; the pass goes on and in the end still reports the size of its snapshot. The worst case is a new socket that
  dies during the pass: until the next socket is installed the generation does not change, so every remaining
  request finds no socket, the list is emptied during the backoff, and the next reconnect has nothing left to restore.
  `Rough.RestoredExactlyIfNoneDropped` gives the exact condition up to the installation of another socket,
  `Rough.LostWithTheSocket` and `Rough.ReportedButLost` failing runs for any number of subscriptions, and
  `Quiet.QuietReconnectRestores` the promise itself when nothing fails. In any run whatever,
  `Theorems.EntryLostOnlyFor` names whom a lost entry is lost to.
* Unsubscribe is documented to stop a subscription from being restored (`kis/ws/conn.go:239-240`). A subscribe request
  that has not registered yet, or a resubscribe pass that has still to restore the entry, undoes it.
  `Lasting.UnsubscribeLasts` shows that these are the only ways, and that each of them is one; `Races.UnsubscribeUndone`
  is the shortest.
* The generation check and the request it guards are separate critical sections, so a stale pass can put one
  request on the next socket (`Races.StaleRequestCrosses`); never more than one, and none exactly if it is not just
  about to issue one and has none that is yet to register, or the connection is closed (`Theorems.AtMostOneStale`).
* The ACK of a request that has been forgotten answers the next request of its transaction
  (`Fifo.LateAckGoesToTheNext`, `Races.LateAckAnswersTheNext`).
* `failPending` is there so that no caller is left blocked when the socket dies (`kis/ws/reconnect.go:173-174`). That
  holds in every run of the requests that have registered when the read loop fails (`Stranding.FailureReleasesAll`).
  One that registers and writes before `dropTransport` can be left blocked on a socket that is gone; the requests
  at risk are exactly those that have not registered (`Stranding.StrandedExactly`).
* A stop is documented as final (`kis/ws/conn.go:66-68`), but a pass may tell a success after it
  (`Rough.SuccessAfterStop`), and even after Close has returned (`Races.SuccessAfterClose`).
  `Theorems.FewSuccessesAfterEnd` and `Theorems.CloseIsFinal` bound how many do, and say exactly when the stop is final.
* Once `done` is closed the reader may give up an event although the buffer has room (`Races.EventGivenUp`); before
  that it cannot (`Theorems.EventLostExactlyIfDone`), and nothing is given up (`Theorems.EventsConserved`).
* Base64 material is documented as accepted, but a base64 key of 16 or 24 bytes has an accepted literal length
  and is taken literally (`Crypto.Base64MaterialLengths`).

## Model

| member | source | states |
|---|---|---|
| Theorems.OneSocketOpen | kis/ws/reconnect.go:29-37 | in every interleaving at most one dialled socket is open, and a socket in use is that one |
| Theorems.CloseLeavesNoneOpen | kis/ws/conn.go:343-370 | when Close returns, or `run` has stopped without it, every socket ever dialled is closed and so is the event channel |
| Theorems.CloseIsFinal | kis/ws/conn.go:343-370 | after Close has returned no schedule dials, reads or logs anything, `run` tells nothing, and all sockets stay closed; the successes still told are at most one for each pass that had made its last check, and none in any run exactly if there is no such pass |
| Theorems.SocketsOnlyGrow | kis/ws/reconnect.go:96-108 | over any run a socket keeps the key of its one installation, its wire only grows and closing is for good |
| Theorems.WireCarriesInstalledKey | kis/ws/conn.go:245-261 | every frame a caller, a pass or Close writes on a socket carries exactly the key installed with that socket, despite reissues |
| Theorems.CurrentKeyIsInstalled | kis/ws/reconnect.go:52-62 | while a socket is in use it is the newest, belongs to the current generation, and `key` is its key |
| Theorems.EveryFrameHasOneAuthor | kis/ws/conn.go:245-265 | the wire of a socket is exactly the frames written on it: each is the frame of one request, with its own type, transaction and key, or Close's unsubscribe of one snapshot entry on the snapshot's socket, and nobody writes twice |
| Theorems.AcceptedWasWritten | kis/ws/conn.go:261-274 | a request that waits for its ACK, or was accepted, is on the wire |
| Theorems.SubscribeOutcome | kis/ws/conn.go:227-234 | when a Subscribe that found no socket, could not be written or was refused returns, its entry is off the list; every other return leaves the list as it is |
| Outcomes.GuardsRecorded | kis/ws/conn.go:251-265 | a request is recorded as without a socket exactly when none was in use at its registration, and as unwritten only after a failed write |
| Theorems.EntryLostOnlyFor | kis/ws/conn.go:288-295 | over any run, an entry that was on the list and is not any more was taken off since by Close, by an unsubscribe, or by a subscribe request for it that found no socket, could not be written, or was refused by an ACK of its transaction |
| Theorems.NoLostWakeup | kis/ws/conn.go:257-283 | a blocked request is in exactly one of `pending`, the reader's hand, or its answered channel; none gets two verdicts; a finished one is not listed |
| Theorems.ChannelNeverFull | kis/ws/reconnect.go:187-192 | the channel of every waiter about to be resolved is empty, so the default branch of `resolve` is never taken |
| Theorems.LeavesOnce | kis/ws/reconnect.go:152-183 | a waiter that has left `pending` is never in it again, in any continuation |
| Theorems.VerdictIsTheAcks | kis/ws/reader.go:125-139 | a verdict on its way to a waiter is that of the ACK just read, attributed to the waiter's own transaction |
| Theorems.VerdictReachesRequest | kis/ws/reader.go:137-139 | delivering it fills the channel of the very request the waiter stands for |
| Theorems.WakeupEnabled | kis/ws/conn.go:266-283 | a blocked request can move once it has a verdict or `run` has ended, and a reader holding waiters can always move |
| Stranding.FailureReleasesAll | kis/ws/reconnect.go:173-183 | in every run, a request that has registered when the read loop fails is off the list for good once `run` has left the loop, and holds its verdict if it is still under way |
| Stranding.StrandedExactly | kis/ws/reconnect.go:173-183 | when the read loop fails, a request can be left blocked on the dead socket in some run exactly if it has not registered and the connection is not closed |
| Theorems.PassIssuesPrefix | kis/ws/reconnect.go:116-131 | the j-th request of a pass restores entry j of its snapshot, and requests are issued in that order |
| Theorems.PassIssuesNothingElse | kis/ws/reconnect.go:116-131 | every request a pass has issued is one of those |
| Theorems.AtMostOneStale | kis/ws/reconnect.go:121-131 | only the last request of a pass can miss the pass's generation, and then the pass has not reported; once that generation is over, no run registers a further request of the pass exactly if all is closed, or the pass is not about to issue one and has none that is yet to register |
| Theorems.OneReportPerGeneration | kis/ws/reconnect.go:132-136 | at most one success notification per generation, carrying that pass's attempt and snapshot size, after the whole snapshot was requested in that generation |
| Theorems.EveryFrameJudged | kis/ws/reader.go:74-109 | frames are judged once each and in the order read; at most the newest is unjudged and then in the reader's hand |
| Theorems.EventsConserved | kis/ws/reader.go:187-219 | consumed, buffered and in-send events are exactly the events of the judged frames in order until `done` closes, and an order-preserving selection afterwards; the buffer never exceeds its capacity |
| Theorems.EventLostExactlyIfDone | kis/ws/reader.go:215-218 | the reader's next turn can give up the event it is sending exactly if `done` is closed |
| Races.EventGivenUp | kis/ws/reader.go:215-218 | any frame that amounts to an event can be one whose event is given up although the buffer has room |
| Theorems.NoSendAfterClose | kis/ws/reader.go:32-34 | once the event channel is closed nothing is sent on it and it stays closed |
| Theorems.DropsCounted | kis/ws/reader.go:242-248 | the drop counter equals undecryptable data frames plus unrecognised frames plus accepted ACKs with unusable material, and names the last of them |
| Theorems.MaterialProvenance | kis/ws/reader.go:221-240 | the material held for a transaction is that of the latest accepted ACK attributed to it with usable fields on this very socket; there is none exactly if there was no such ACK |
| Theorems.SealedRecordIsOffered | kis/ws/reader.go:187-219 | an encrypted execution record read while its material is held is offered with exactly the server's fields and notice |
| Theorems.AcceptBetweenReissues | kis/ws/reconnect.go:64-83 | between any two reissues of a run the server has accepted a request |
| Theorems.NoKeyChurn | kis/ws/reader.go:52-57 | reissues are at most acceptances plus one; keys issued by a caching provider are at most acceptances plus two |
| Theorems.RejectionIsActedOn | kis/ws/reader.go:52-57 | after a rejected approval key nothing is read, slept, fetched or dialled before a reissue, unless an earlier reissue was still unanswered |
| Theorems.ReissueHasReason | kis/ws/reconnect.go:64-75 | every reissue has a rejection of its own since the reissue before it |
| Theorems.RedialsArePaced | kis/ws/reader.go:59-61 | every dial but the first follows a backoff sleep and a key fetched after that sleep |
| Theorems.InstalledKeyIsProviders | kis/ws/reconnect.go:87-105 | each socket is installed with exactly the key the provider returned for its own dial |
| Theorems.AttemptsCountUp | kis/ws/reader.go:36-52 | the k-th sleep is for attempt k: the counter is never reset, not even by a successful reconnect |
| Theorems.DelaysNeverShrink | kis/ws/backoff.go:57-72 | so without jitter the delays of a run never shrink |
| Theorems.OccupiedIsTerminal | kis/ws/reader.go:41-48 | after an occupied-session verdict there is no read, dial, key request or reissue, and at most one stop notification |
| Theorems.StopToldOnce | kis/ws/reader.go:41-48 | the stop is told at most once, by a `run` that has ended |
| Theorems.FewSuccessesAfterEnd | kis/ws/reconnect.go:132-136 | after `run` has ended, at most one success for each pass that had made its last check is still told, and one for the pass of the last generation unless Close was called; none in any run exactly if no pass is at its notification and, unless closed, the pass of the last generation has finished |
| Theorems.EndsForAReason | kis/ws/reader.go:32-69 | `run` ends only by that verdict or by Close; the event channel closes before `stopped` |
| Theorems.SubscriptionsInOrder | kis/ws/conn.go:321-335 | the list is the duplicate-free fold of its history, ordered by earliest unbroken registration |
| Theorems.ClosedIsEmpty | kis/ws/conn.go:343-349 | closed implies an empty list, with requests and passes in flight: only removals follow Close's snapshot |
| Theorems.FarewellComplete | kis/ws/conn.go:351-366 | before Close closes its socket it has written, or tried to, one unsubscribe per snapshot entry, in order, with the snapshot's key |
| Subscriptions.FoldInBirthOrder | kis/ws/conn.go:321-335 | after any registrations and removals each entry counts from its earliest unbroken registration, in list order |
| Subscriptions.FoldMembers | kis/ws/conn.go:321-335 | an entry is listed exactly if some registration of it has not been undone since |
| Quiet.QuietReconnectRestores | kis/ws/reconnect.go:116-136 | with nobody else calling and every request written and accepted: one subscribe frame per subscription in original order with the new key, an unchanged list, nobody waiting, and no report before the last acceptance |
| Quiet.QuietReconnectCompletes | kis/ws/reconnect.go:116-136 | such a reconnect can be completed for any number of subscriptions, with exactly those frames on the wire |
| Cycle.RestingOccurs | kis/ws/reader.go:32-69 | every list of distinct subscriptions occurs in a connection that is about to install its second socket, so the reconnect theorems are about states that exist |
| Cycle.WholeCycle | kis/ws/reconnect.go:110-136 | some run subscribes to the list, loses the socket, and ends with exactly its frames under the new key on the second socket and one notification |
| Rough.RestoredExactlyIfNoneDropped | kis/ws/reconnect.go:121-135 | whatever fails up to the installation of another socket, the death of the new socket included: what survives on the list, and that it is the old list exactly if no request of the pass found itself without a socket, could not be written, or was refused |
| Rough.LostWithTheSocket | kis/ws/reconnect.go:29-37 | for any number of subscriptions, a new socket that dies during the pass costs the whole list, which the pass then reports restored while `run` backs off |
| Rough.ReportedButLost | kis/ws/conn.go:261-265 | for any number of subscriptions, a reconnect whose writes all fail empties the list and reports them all |
| Rough.SuccessAfterStop | kis/ws/reader.go:41-48 | for any number of subscriptions, a run in which the stop is told first and a success for an emptied list after it |
| Races.SuccessAfterClose | kis/ws/reconnect.go:132-135 | some run of a connection tells a success after Close has returned |
| Lasting.UnsubscribeLasts | kis/ws/conn.go:239-243 | an unsubscribed entry stays off the list in every continuation without a new Subscribe call for it, exactly if when it registers no subscribe request for it is unregistered and no pass has still to restore it |
| Lasting.OffForGood | kis/ws/reconnect.go:116-131 | the same for any entry off the list in any reachable state, where a closed connection keeps it off too |
| Races.UnsubscribeUndone | kis/ws/conn.go:252-253 | an unsubscribe that registers between a pass's check and its request is undone |
| Races.UndoStartOccurs | kis/ws/reconnect.go:121-126 | for any list, a connection gets into that situation |
| Races.StaleRequestCrosses | kis/ws/reconnect.go:122-126 | a pass can put a request on the socket of a later generation |
| Races.CrossStartOccurs | kis/ws/reconnect.go:122-126 | for any list, a connection gets into that situation |
| Stranding.LateWaiterOutlivesSocket | kis/ws/reconnect.go:173-183 | from any point between `failPending` and `dropTransport`, a request that is yet to register can be left waiting without a verdict, still listed, on a closed socket |
| Races.LateStartOccurs | kis/ws/reconnect.go:173-183 | for any list and request, a connection gets into that situation |
| Races.LateAckAnswersTheNext | kis/ws/reconnect.go:164-171 | when the older of two waiting requests is given up, the server's acceptance of it grants the younger |
| Races.TwoWaitingOccurs | kis/ws/conn.go:245-261 | for any two requests of one transaction, a connection gets into that situation, with both frames on the wire |
| Fifo.TakeRefines | kis/ws/reconnect.go:152-162 | an ACK takes the head of its transaction's queue, or the oldest waiter of all if it names none, leaves the other queues alone, and takes nothing only if it could take nothing |
| Fifo.AnsweredInOrder | kis/ws/reconnect.go:152-183 | whatever is abandoned, answered then waiting requests of one transaction are an order-preserving selection of its registrations |
| Fifo.NothingLost | kis/ws/reconnect.go:152-171 | if none of its requests is given up, they are all of its registrations |
| Fifo.KthAckAnswersKth | kis/ws/reconnect.go:152-162 | then the k-th ACK naming a transaction answers its k-th request, for every k, exactly if no ACK overtakes its request |
| Fifo.PendingFollowsHistory | kis/ws/reconnect.go:152-183 | the list of the running connection is what its registrations, ACKs and failures make of it |
| Fifo.AckTakesItsRequest | kis/ws/reader.go:125-131 | in any run under those conditions, the next ACK for a transaction takes the waiter of the request whose turn it is |
| Fifo.LateAckGoesToTheNext | kis/ws/reconnect.go:164-171 | after the oldest request of a transaction is forgotten, its late ACK answers the next one, in any list |
| Runs.KisSound | kis/ws/errors.go:24-31 | the real verdicts never name any other reissuable code |
| Runs.IssuesBounded | kis/ws/approval.go:46-74 | a caching provider driven by any sequence of calls issues at most one key more than there are reissues |
| Protocol.VerdictTable | kis/ws/reader.go:155-166 | a verdict is fatal exactly for the two named codes, an occupied session is never reissuable, acceptance means rt_cd "0" and no fatal code |
| Conn.Conn.AddSubscription | kis/ws/conn.go:321-328 | the loop appends exactly if the pair is not listed |
| Conn.Conn.RemoveSubscription | kis/ws/conn.go:331-335 | the loop deletes every occurrence of the pair and keeps the rest in order |
| Conn.Conn.RegisterRequest | kis/ws/conn.go:245-259 | refuses once closed and changes nothing; else list, waiter and the socket and key pair change in one section |
| Conn.Conn.TakePending | kis/ws/reconnect.go:152-162 | scan and delete in place removes exactly the oldest match and hands it out |
| Conn.Conn.ForgetWaiter | kis/ws/reconnect.go:165-171 | removes this waiter if it is still listed, and only it |
| Conn.Conn.FailPending | kis/ws/reconnect.go:175-183 | empties the list and gives every waiter in it the error unless it has a verdict |
| Conn.Conn.MarkRejection | kis/ws/reconnect.go:67-75 | a repeat of the recorded code warrants no reissue |
| Conn.Conn.InstallTransport | kis/ws/reconnect.go:96-108 | installs socket, key, fresh material and the next generation together, or nothing once closed |
| Conn.Conn.DropTransport | kis/ws/reconnect.go:29-37 | empties `transport` and hands the old socket back for closing |
| Conn.Conn.SnapshotForClose | kis/ws/conn.go:344-349 | marks closed and takes list, socket and key in one section, leaving the list empty |
| Conn.Conn.StoreMaterial | kis/ws/reader.go:221-233 | blank fields are ignored, unusable ones counted, usable ones kept for this transaction only |
| Conn.Conn.ApplyAck | kis/ws/reader.go:125-146 | run alone: the oldest match gets the ACK's own verdict, an acceptance clears the rejection and keeps material, only a fatal verdict is returned |
| Conn.PendingAck.Resolve | kis/ws/reconnect.go:187-192 | a non-blocking send never replaces a verdict |
| Approval.ClientProvider.ApprovalKey | kis/ws/approval.go:46-53 | the REST endpoint is called exactly if there is a client and nothing is cached; a cached key is returned, and only a success is cached |
| Approval.ClientProvider.Reissue | kis/ws/approval.go:55-74 | the endpoint is called whenever there is a client, and the cached key is discarded first, so a failure leaves none |
| Pipeline.EndToEnd | kis/ws/reader.go:187-219 | an encrypted record of 14 caret-free fields yields exactly those fields and the notice from positions 2, 4, 8, 9, 10, 11 and 13 |
| Pipeline.PlainRecord | kis/ws/reader.go:187-204 | the same record sent in clear is interpreted identically |
| Crypto.DecryptSealed | kis/ws/crypto.go:76-95 | decryption inverts padding, CBC and base64 for any text without outer white space |
| Crypto.Decrypt | kis/ws/crypto.go:76-95 | the buffer-filling decryption computes that function, with each error case |
| Crypto.CbcRoundTrip | kis/ws/crypto.go:88-89 | CBC decryption inverts CBC encryption for any invertible block cipher |
| Crypto.UnpadPKCS7 | kis/ws/crypto.go:99-115 | the loop that builds and compares the expected padding computes `Unpad` |
| Crypto.UnpadAcceptsExactly | kis/ws/crypto.go:99-115 | unpadding yields x exactly on the padding of x |
| Crypto.HasLength | kis/ws/crypto.go:52-59 | the loop finds a length exactly if it is accepted |
| Crypto.DecodeMaterialInverts | kis/ws/crypto.go:40-50 | base64 material is recovered exactly if its encoded length is not itself accepted |
| Crypto.Base64MaterialLengths | kis/ws/crypto.go:28-50 | so base64 keys survive only at 32 bytes, base64 IVs always, literal material always |
| Base64.StrictAcceptsExactly | kis/ws/crypto.go:45-48 | strict decoding accepts exactly the canonical encodings, line breaks aside |
| Base64.StrictImpliesLenient | kis/ws/crypto.go:45-80 | whatever strict decoding accepts, lenient decoding reads the same way |
| Base64.DecodeEncode | kis/ws/crypto.go:77-80 | decoding inverts encoding in both modes |
| Frame.ParseAcceptsExactly | kis/ws/frame.go:37-54 | the parser accepts exactly the flag, transaction, count, payload texts and returns the frame they spell |
| Frame.ParsePrint | kis/ws/frame.go:37-54 | printing then parsing is the identity, payload pipes kept |
| Frame.BraceTestRedundant | kis/ws/frame.go:39-41 | the leading-brace test never changes the answer |
| Frame.SplitFields | kis/ws/frame.go:59-70 | the loop computes the fields |
| Frame.CaretFields | kis/ws/frame.go:59-62 | the fields of a caret payload are the one caret-free list that joins back to it |
| Frame.PipeFields | kis/ws/frame.go:63-69 | otherwise they are the non-empty pipe segments in order |
| Limiter.Limiter.Wait | kis/limiter.go:16-35 | reserves the next slot of the sequence of readings so far, cancelled or not |
| Limiter.ClosedForm | kis/limiter.go:16-35 | slot n is the largest of the initial slot and all readings so far, each advanced by the intervals in between, for any clock |
| Limiter.SlotsApart | kis/limiter.go:16-35 | the j-th slot is at least j - i intervals after the i-th |
| Limiter.AtMostRate | kis/limiter.go:16-35 | a half-open window holds at most ceil(width / interval) reservations |
| Backoff.NormalizedIdempotent | kis/ws/backoff.go:34-54 | filling in defaults changes exactly the configs that are not normal, and once is enough |
| Backoff.DelayWithinBounds | kis/ws/backoff.go:57-72 | every delay lies between Min and Max for every config, attempt and draw |
| Backoff.DelayMonotone | kis/ws/backoff.go:57-72 | without jitter a later attempt never waits less |
| Backoff.DelaySaturates | kis/ws/backoff.go:57-72 | for a growing factor it is exactly Max from attempt 1 + ceil((Max/Min - 1)/(Factor - 1)) on |

## Left out

- JSON decoding and encoding: a decoder is a parameter, and a request frame is a record of key, tr_type, transaction and key.
- AES itself: any pair of functions that invert each other on blocks. Constant-time comparison is modelled by its result.
- Unicode white space beyond the ASCII set, and UTF-8 validity of texts.
- Time stamps on events and notifications, and saturation of time differences in the limiter.
- Rounding of floating-point numbers in the backoff, which is modelled over the reals; the random generator is an arbitrary draw.
- Fairness and real-time progress: safety and enabledness are proved, not scheduling.
- Errors of a transport are assumed not to be the protocol's own sentinel errors.
- The write mutex: a write is one step, so frames do not interleave within a socket.
- Validation in `Dial`, endpoint and TLS policy, token handling, the REST client and request mapping.
- `QtyInt` and `PriceRat`, which are library number parsing.
- The bundled WebSocket adapter: dialling, reading and writing are nondeterministic steps.
- The loops of `run`, `readLoop`, `resubscribe`, `request` and `Close` are program counters of `Machine`, since other parties act between their iterations; only the sections under the mutex are methods.
- Rough.RestoredExactlyIfNoneDropped: ends with the installation of another socket; beyond it `Theorems.EntryLostOnlyFor` says for any run whom an entry is lost to.
- Quiet.QuietReconnectCompletes: shows one completing schedule, not that every schedule completes.
- Theorems.FarewellComplete: an unsubscribe counts once its write was tried, because the source ignores whether it succeeded.
