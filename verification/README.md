# Models of the SCIF driver and the AES benchmark

This project models four parts of the repository in Dafny and proves what they promise.

**SCIF connections and data.** Nodes exchange messages through ring buffers that two sides
share through cached and published offsets. On these run the connect/accept/terminate
handshake, the two-sided disconnect, and blocking send and receive.

- `Masks`, `RingSpec`, `Ring`: the offsets, the byte queue they implement, and the ring as
  a class over a byte array that refines it. `NodeQueue` puts 44-byte node messages on it.
- `StreamSpec`, `StreamTheorems`, `StreamReset`: one sender, one receiver, their notices
  and flushes as a state machine. `Peers`, `Stream`: the two loops as methods that run
  against a peer that may act between any two steps.
- `ConnectionSpec` has the calls and handlers as steps over all nodes. `ConnectionInv` is the
  invariant: one endpoint at a time (`ConnectionShapes`), and who names whom through
  requests (`ConnectionTokens`), grants (`ConnectionGrants`) and disconnects
  (`ConnectionFarewells`). `ConnectionSteps` puts the steps together, and `ConnectionAim`
  adds which port a connect call is for. `ConnectionTheorems` has the results for whole runs,
  `ConnectionResults` what single steps achieve, and `ConnectionProgress` that no call hangs.
  `ConnectionExact` says when exactly the results hold; `ConnectionRuns` and
  `ConnectionCollision` have runs in which each of them fails. `Fabric` has the steps as
  methods that update tables, lists and queues in place, and a driver that interleaves them.

**AES.** `Fips197` is the standard, `Fips197Examples` its examples, `FipsInverse` its algebra
for any S-box; `NibbleTables`, `AesTables`, `AesWords`, `AesLookup`, `AesCipher`, `AesSchedule`
and `AesContext` are the program with its tables, and `AesTheorems` and `AesProgram` connect
the two.

**Power management.** `NodeMask`, `DepSpec`, `DepSearch`, `DepGraph` are the searches that
compute which nodes wake up or go down together, as functions of the matrix and as loops over
stacks and flags; `DepLargest` says when the set to go down is the largest, and `NodeDep`
keeps the matrix they read.

**Ports.** `PortBits`, `PortSpec`, `PortAllocator` are the bitmap allocator, `PortUse` its use
by endpoints.

Some statements hold only under a condition that the code does not establish. Each is proved
as an equivalence with that condition, and with runs or inputs on which it fails.

- A termination looks for its request by the address of the endpoint that sent it, and
  addresses are those of the sending node's kernel, so it can take the request of another
  node's endpoint. The results about connections hold throughout a run exactly if no
  termination does (`ServedIffFindsOwn`, `ServedIffFoundOwn`, `SoundIffFoundOwn`), and each
  of them fails in some run in which one does (`ConnectionCollision`).
- A flush leaves the endpoint CONNECTED until the peer's acknowledgement, so a send call at
  that time can publish bytes after the peer was told of the reset. A reset is final exactly
  if nothing is committed after it (`ResetIsFinalIffNeverLate`), and only a flushed endpoint
  can commit then (`LateMeansFlushing`).
- `get_scif_port` looks only at the word under its hint, which reservations can drain
  (`FailureIsExhaustionIffLive`). Counting free ports needs releases to be of held ports
  (`PutCountOkIffHeld`), and notices about node dependencies need gets that leave pages held
  and puts of held pages (`ConsistentIffBalanced`, `ConsistentThroughoutIffBalanced`).

Some behaviour differs from the comments in the code, and the models follow the code.
`micscif_get_minimal_deactiveset` overwrites -EOPNOTSUPP and -ENOMEM with 0 while it
empties its stack, so that an active dependent is not always reported (`OwnActiveReported`,
`SingleFileReported`, `ActiveUnreported`); the set `micscif_get_deactiveset` finds is not
always the largest (`NotTheLargest`), and always is on just the matrices of
`AlwaysLargestIffAnticipated`; the validity test at the end of `micscif_get_deactiveset` cannot fail,
because the source's bit is set before its dependents are looked at; bits set before a
failure stay set. `le32_to_cpu` swaps bytes and is applied to key words only, so the cipher
is that of FIPS 197 for the key with each group of four bytes reversed, which is the key as
given exactly if every group reads the same backwards (`ExpandsAsGivenIff`, `NotAsGiven`).

A model takes "send the grant ack, become CONNECTED, join mi_connected" as one step, one
connect call per endpoint at a time, endpoint memory that is not reused, and calls on an
endpoint that hold a reference so that its close waits for them. Memory allocation and
mapping can fail wherever the code allows for it. A message goes to the node of the endpoint
it names, which is the sender's remote device whenever the two agree.

## Model

| member | source | states |
|---|---|---|
| `ConnectionTheorems.OneOutstanding` | module/include/micscif_api.c:760-882 | in every run, a connecting endpoint's request or the reply to it is in at most one place: one message, one queue slot or one accept call |
| `ConnectionTheorems.WaitsForSomething` | module/include/micscif_api.c:800-838 | a connect call waits in CONNECTING exactly while its request or a reply to it exists somewhere, so it is never orphaned |
| `ConnectionTheorems.RepliesAreTimely` | module/include/micscif_nodeqp.c:1158-1297 | a grant, reject or terminate-ack in flight carries the number of the attempt in progress and finds its endpoint CONNECTING; a terminate-ack only if that attempt sent a termination |
| `ConnectionTheorems.ConnectedAgree` | module/include/micscif_api.c:1000-1128 | whenever an endpoint is CONNECTED, accepted or connecting side, it and its peer hold each other as remote_ep with matching ports, peers and devices, also in runs with interrupted connects |
| `ConnectionTheorems.AnsweredOrWaiting` | module/include/micscif_nodeqp.c:1111-1147 | for every endpoint: requests delivered = replies sent + 1 if one of its requests waits in a queue or an accept call |
| `ConnectionTheorems.QueueBounded` | module/include/micscif_nodeqp.c:1123-1137 | conreqcnt is the queue's length, a non-empty queue is within the backlog and in order of arrival, and a closed listener's queue is empty |
| `ConnectionTheorems.NoneLeftBehind` | module/include/micscif_nodeqp.c:1312-1356 | an endpoint is on mi_connected only while its peer is too, or a disconnect to it or a grant ack to the peer is in flight |
| `ConnectionTheorems.ListsDisjoint` | module/include/micscif_api.c:180-262 | each endpoint has at most one entry on all four lists together, joins mi_connected at most once, and has left it as often as it joined when it is a zombie |
| `ConnectionTheorems.ActiveIsConnected` | module/include/mic/micscif.h:706-724 | each device's connection count is the number of endpoints on mi_connected that use the device |
| `ConnectionTheorems.NothingForTheDead` | module/include/micscif_nodeqp.c:110-136 | no message in flight names as its target an endpoint that is a zombie or was freed |
| `ConnectionTheorems.ConnectsWhereAsked` | module/include/mic/micscif.h:569-589 | in every run a connection is with the port that was asked for: a connected endpoint's peer is the port its last connect call named, and an accepted endpoint is one of the port its peer's last connect call named |
| `ConnectionAim.NextKeepsAim` | module/include/micscif_nodeqp.c:1111-1173 | every step keeps this: whoever is queued on an endpoint or held by it asked for its port, a request or grant in flight goes to or comes from the port asked for, and no step but the start of a connect call changes which port that is |
| `ConnectionTheorems.RunIsSound` | module/include/micscif_api.c:137-1151 | all these results at once, for every such run |
| `ConnectionTheorems.RunKeepsInv` | module/include/micscif_api.c:137-1151 | every run of the steps, from the empty world, in which each termination that finds a request finds its sender's, keeps the whole invariant |
| `ConnectionTheorems.NextKeepsInv` | module/include/micscif_nodeqp.c:1111-1374 | every step of every call and handler keeps the invariant; only a termination that finds a request needs that request to be its sender's |
| `ConnectionTokens.TermFindsOwnRequest` | module/include/mic/micscif.h:592-605 | a request of its sender that a termination finds is that of the very attempt that sent the termination |
| `ConnectionTokens.TokenStep` | module/include/micscif_nodeqp.c:1111-1276 | a step that respects what untouched endpoints rely on keeps requests, queues, accept calls and messages naming each other |
| `ConnectionGrants.GrantStep` | module/include/micscif_api.c:1088-1128 | the same for grants, grant acks and nacks and for the pairs of endpoints they join |
| `ConnectionFarewells.FarewellStep` | module/include/micscif_nodeqp.c:1312-1374 | the same for disconnects and their acknowledgements, with their order on the queue between two nodes |
| `ConnectionFarewells.AnswerFarewells` | module/include/micscif_nodeqp.c:1321-1356 | a delivered disconnect is acknowledged whether or not its target is still listed, and no grant ack to that target can still be behind it |
| `ConnectionExact.ServedIffFindsOwn` | module/include/mic/micscif.h:592-605 | in any world the invariant holds of: a termination leaves everybody served exactly if the first request with its sender's address, if there is one, is the sender's |
| `ConnectionExact.ServedIffFoundOwn` | module/include/micscif_nodeqp.c:1257-1276 | in every run: all requests are served after every step exactly if each termination that finds a request finds its own |
| `ConnectionExact.SoundIffFoundOwn` | module/include/micscif_nodeqp.c:1257-1276 | the same equivalence for all results about runs together |
| `ConnectionExact.ApartFindsOwn` | module/include/mic/micscif.h:592-605 | endpoints of different nodes with different addresses are enough for it |
| `ConnectionProgress.NobodyHangs` | module/include/micscif_api.c:137-1151 | no deadlock, in every such run: while a call or a flush has not returned, some call can go on or some message can be handled, unless the call is a connect whose request is queued on a listener that any accept call would serve at once |
| `ConnectionCollision.Unserved` | module/include/micscif_nodeqp.c:1257-1276 | a run in which a termination takes B's request, which has the sender's address: it is neither queued, held nor answered, and B waits for ever |
| `ConnectionCollision.TwoOutstanding` | module/include/micscif_nodeqp.c:1257-1276 | in that run the sender has a request in the queue and an acknowledgement that it is gone |
| `ConnectionCollision.LateReply` | module/include/micscif_api.c:1000-1079 | a run in which the request left behind is granted while the sender's next attempt is in progress |
| `ConnectionCollision.Misdirected` | module/include/micscif_nodeqp.c:1158-1173 | taken for the next attempt's answer, that grant comes from a port the attempt did not ask for |
| `ConnectionCollision.Disagreement` | module/include/micscif_nodeqp.c:1158-1173 | that grant is taken for the next attempt's answer and connects the endpoint, through the device of one node, to an endpoint of another |
| `ConnectionCollision.MessageForTheDead` | module/include/micscif_nodeqp.c:1257-1276 | a run in which the acknowledgement goes to a closed endpoint |
| `ConnectionCollision.QueueAbandoned` | module/include/micscif_nodeqp.c:1285-1297 | a run in which it makes a listener BOUND, whose close then rejects nobody and leaves it on mi_listen |
| `ConnectionCollision.Miscounted` | module/include/micscif_nodeqp.c:1285-1297 | a run in which it makes a connected endpoint BOUND, and the device counts a connection that no endpoint has |
| `ConnectionCollision.LeftBehind` | module/include/micscif_api.c:853-871 | that endpoint refuses a later grant and stays on mi_connected with a peer that is not connected to it |
| `Fabric.Remove` | module/include/micscif_api.c:166-172 | the list search removes one occurrence if there is one and says whether there was |
| `Fabric.FindConnectionRequest` | module/include/mic/micscif.h:592-605 | the index of the first queued request with the given address, or the queue's length |
| `Fabric.Nodes.FindListenEp` | module/include/mic/micscif.h:569-589 | an endpoint on mi_listen with that node and port, or none exists |
| `Fabric.Nodes.CnctReqResp` | module/include/micscif_nodeqp.c:1111-1147 | with memory, and an endpoint of mi_listen that has the node and port asked for: the request joins the end of that endpoint's queue if it has room; in every other case no queue changes and the sender is sent a rejection; the invariant is kept and the sender is served |
| `Fabric.Nodes.CnctTermResp` | module/include/micscif_nodeqp.c:1257-1276 | the first request with the sender's address on the port's listener is removed and acknowledged; everybody stays served, and the invariant is kept, exactly if that request, if any, is the sender's |
| `Fabric.Nodes.CnctGntResp` | module/include/micscif_nodeqp.c:1158-1173 | a grant is never ignored: it finds the attempt it answers still CONNECTING, and the two endpoints name each other afterwards |
| `Fabric.Nodes.CnctGntAckResp` | module/include/micscif_nodeqp.c:1185-1200 | the accepted endpoint is connected, on mi_connected exactly once, and agrees with its peer on endpoints, ports and devices |
| `Fabric.Nodes.CnctGntNackResp` | module/include/micscif_nodeqp.c:1210-1220 | no message in flight is for the accepted endpoint any more and it is on no connected list, so it can be freed |
| `Fabric.Nodes.CnctRejResp` | module/include/micscif_nodeqp.c:1229-1241 | the rejection reaches the call it answers, which ends BOUND with no request or reply of it left anywhere |
| `Fabric.Nodes.TermAckResp` | module/include/micscif_nodeqp.c:1285-1297 | the same for an acknowledged termination |
| `Fabric.Nodes.DiscnctResp` | module/include/micscif_nodeqp.c:1312-1356 | the list search moves the target to mi_disconnected, DISCONNECTED, if it is on mi_connected, the sender is acknowledged in any case, and neither end is on mi_connected afterwards |
| `Fabric.Nodes.DiscntAckResp` | module/include/micscif_nodeqp.c:1364-1374 | the endpoint is DISCONNECTED and neither it nor its peer is on mi_connected |
| `Fabric.Nodes.ConnectRequest` | module/include/micscif_api.c:788-799 | the message just sent is the only request or reply of this endpoint anywhere |
| `Fabric.Nodes.ConnectTerminate` | module/include/micscif_api.c:806-811 | an interrupted call has exactly one request or reply to wait for while it is CONNECTING, and none otherwise |
| `Fabric.Nodes.ConnectComplete` | module/include/micscif_api.c:823-893 | the call ends connected to the port it was made for, listed once and in agreement with its peer, or else BOUND, unlisted and with nothing of it left anywhere, so that it can connect again |
| `Fabric.Nodes.AcceptTakeRequest` | module/include/micscif_api.c:999-1021 | the request taken is the oldest of the queue; the rest keep their order and the new endpoint has the listener's port and names the sender, which is still CONNECTING in the attempt that sent it and stays served |
| `Fabric.Nodes.AcceptSendGrant` | module/include/micscif_api.c:1069-1079 | the grant goes to the attempt in progress that asked for it |
| `Fabric.Nodes.AcceptReject` | module/include/micscif_api.c:1137-1149 | so does the rejection of an accept that fails |
| `Fabric.Nodes.FlushSearch` | module/include/micscif_api.c:403-438 | the search of a flush leaves the endpoint on no list, and sends the peer a disconnect exactly if it was on mi_connected; the invariant is kept |
| `Fabric.Nodes.FlushTest` | module/include/micscif_api.c:390-462 | a flushed listener is CLLISTEN; a flushed connection is going to be searched for |
| `Fabric.Nodes.FlushDone` | module/include/micscif_api.c:441-446 | the flushed endpoint ends DISCONNECTED and on mi_disconnected exactly once, and neither it nor its peer is on mi_connected |
| `Fabric.Nodes.CloseSearch` | module/include/micscif_api.c:180-300 | the searches of a close, by what it found the endpoint doing; the invariant is kept |
| `Fabric.Nodes.RejectPending` | module/include/micscif_api.c:322-340 | the loop ends with an empty queue, having done one rejection per request; the invariant is kept in every round |
| `Fabric.RejectsInOrder` | module/include/micscif_api.c:322-340 | rejection number i of a closing listener answers the i-th request of its queue |
| `Fabric.Nodes.MsgHandler` | module/include/micscif_nodeqp.c:2763-2776 | the oldest message of a node queue is handled by its kind: a step of the model, which keeps the invariant unless it is a termination that takes another endpoint's request |
| `Fabric.Nodes.Drive` | module/include/micscif_nodeqp.c:2763-2776 | calls and handlers taking turns in any order: the state is that of a run of the model step by step, and all results about runs hold of it, unless and until a termination takes another endpoint's request |
| `ConnectionResults.GrantJoins` | module/include/micscif_nodeqp.c:1158-1173 | a grant delivered in a world the invariant holds of finds its attempt and joins the two endpoints |
| `ConnectionResults.ConnectEnds` | module/include/micscif_api.c:823-893 | how a connect call ends: established with the port it was made for, or settled and free |
| `ConnectionResults.AckEstablishes` | module/include/micscif_nodeqp.c:1185-1200 | a grant ack establishes the connection on the accepting side |
| `ConnectionResults.NackForgets` | module/include/micscif_nodeqp.c:1210-1220 | after a grant nack nothing in flight is for the accepted endpoint |
| `ConnectionResults.DisconnectParts` | module/include/micscif_nodeqp.c:1312-1356 | after a disconnect is handled neither end is on mi_connected |
| `ConnectionResults.AcknowledgedParts` | module/include/micscif_nodeqp.c:1364-1374 | the same when it is acknowledged, with the endpoint DISCONNECTED |
| `ConnectionResults.AcceptTakesOldest` | module/include/micscif_api.c:999-1021 | accept takes the oldest request, and its sender waits for this answer |
| `ConnectionResults.RequestGoesToItsPort` | module/include/micscif_nodeqp.c:1111-1147 | a delivered request is queued last on an endpoint of mi_listen that has the node and port it names and has room, or is rejected |
| `ConnectionResults.TerminationTakesItsRequest` | module/include/micscif_nodeqp.c:1257-1276 | a termination whose request waits in the queue of the one endpoint that listens on its port takes that request out and is acknowledged |
| `ConnectionResults.FlushMarks` | module/include/micscif_api.c:390-462 | what a flush call does first, to a listener and to a connection |
| `ConnectionResults.FlushTakesOff` | module/include/micscif_api.c:403-438 | the search of a flush leaves the endpoint on none of the four lists, and tells the peer exactly if it was on mi_connected |
| `ConnectionResults.FlushFiles` | module/include/micscif_api.c:441-446 | the flush ends with the endpoint on mi_disconnected alone and its peer off mi_connected |
| `ConnectionResults.DisconnectFiles` | module/include/micscif_nodeqp.c:1321-1345 | a peer found on mi_connected ends DISCONNECTED, on mi_disconnected alone |
| `ConnectionResults.FailureFrees` | module/include/micscif_api.c:775-787 | a connect call that fails before it sends its request leaves a BOUND endpoint with its port and nothing outstanding |
| `Stream.Send` | module/include/micscif_api.c:1223-1376 | with the peer reading at any time: what is appended and committed is a prefix of the message, and the return value is its length, or one of three errors exactly when it is empty and the endpoint is disconnected, unconnected or interrupted; a non-blocking send stops early only on a full ring, a blocking one only when interrupted with less room than it waits for |
| `Stream.SendChunk` | module/include/micscif_api.c:1270-1307 | the space sampled is still there when the chunk is written, so the write cannot fail |
| `Stream.Recv` | module/include/micscif_api.c:1401-1519 | with the peer writing at any time: the bytes returned are the next ones written, in order, and exactly as many are read as the return value says; an error is returned exactly when there are none and the endpoint is disconnected, unconnected or interrupted; a short return of a disconnected or non-blocking call means that nothing committed is left, of a blocking one that less is there than it waits for; bytes are released only while connected |
| `StreamTheorems.ReceivedThenRingIsSent` | module/include/micscif_api.c:1257-1513 | in every interleaving, bytes received followed by bytes in the ring are the bytes published by the send calls, in order |
| `StreamTheorems.NoMutualBlocking` | module/include/micscif_api.c:1340-1367 | a sender and a receiver are never both waiting with false wake-up conditions |
| `StreamTheorems.NoLostWakeUp` | module/include/micscif_nodeqp.c:1382-1406 | a thread asleep although its condition holds has a notice in flight, a peer about to send one, or a flush about to wake it |
| `StreamTheorems.NeverBothAsleepForGood` | module/include/micscif_api.c:1478-1511 | if both threads sleep on a standing connection, a notice that wakes one of them is in flight |
| `StreamTheorems.NextKeepsInv` | module/include/micscif_api.c:1257-1513 | every step of sender, receiver, handlers and flushes keeps the stream invariant |
| `StreamTheorems.SendReturnsIff` | module/include/micscif_api.c:1257-1363 | a send with bytes left returns exactly if its endpoint is not connected, or the ring is full and it may not block, and waits exactly if it is full and it may |
| `StreamTheorems.RecvReturnsIff` | module/include/micscif_api.c:1418-1495 | a receive with bytes wanted returns exactly if everything published was read and it may not wait, and reports a reset exactly if it is disconnected and has nothing to return |
| `StreamReset.ResetIsDrained` | module/include/micscif_api.c:1478-1489 | callers that do not flush an endpoint under a send call: a receiver that was told of a reset has every byte ever published |
| `StreamReset.DrainedIffNotLate` | module/include/micscif_api.c:1340-1367 | a step keeps a reported reset final exactly if it is not a commit of the sender after the reset |
| `StreamReset.ResetIsFinalIffNeverLate` | module/include/micscif_api.c:1478-1489 | in every run: whoever was told of a reset has all that was published, after every step, exactly if nothing is committed after a reset |
| `StreamReset.LateMeansFlushing` | module/include/micscif_api.c:390-455 | after a reset the send loop finds its endpoint CONNECTED, and writes or commits, only while a flush of that endpoint waits for its acknowledgement |
| `StreamReset.ResetTooEarly` | module/include/micscif_api.c:429-441 | a run in which a byte is published after the peer was told of the reset, so a reset is not always final |
| `RingSpec.RunKeepsInv` | module/include/micscif_rb.c:144-348 | in every interleaving: released <= read <= seen <= committed <= written < freed + size, each cached copy behind what it copies |
| `RingSpec.ReceivedIsCommittedPrefix` | module/include/micscif_rb.c:196-213 | in every interleaving the bytes read are the committed ones from the start on, in order and without gaps |
| `RingSpec.ReaderKeepsRoom` | module/include/micscif_rb.c:162-184 | whatever the reader counts, reads and releases between the test for space and the copy, the message is appended exactly if it fitted at the test |
| `Ring.KeepsBytes` | module/include/micscif_rb.c:103-117 | a write that fits behind the writer's copy of the read position, however old, leaves every unreleased byte in its slot and puts the new ones in theirs, around the end of the buffer |
| `Ring.ReadsBytes` | module/include/micscif_rb.c:120-134 | a read of bytes that were seen returns what was written at those positions, around the end of the buffer |
| `Ring.RingBuffer.constructor` | module/include/micscif_rb.c:62-80 | an initialised ring of a power of two bytes is an empty queue |
| `Ring.RingBuffer.Space` | module/include/micscif_rb.c:144-153 | the masked offsets give the room left behind the refreshed read position |
| `Ring.RingBuffer.Write` | module/include/micscif_rb.c:162-184 | all of the message is appended, uncommitted, or nothing and -ENOMEM |
| `Ring.RingBuffer.Commit` | module/include/micscif_rb.c:295-348 | what is written becomes visible |
| `Ring.RingBuffer.Count` | module/include/micscif_rb.c:273-288 | bytes readable, refreshing the cached write position only when they are too few |
| `Ring.RingBuffer.GetNext` | module/include/micscif_rb.c:196-213 | exactly the next n bytes, or none if fewer are there; they stay unreleased |
| `Ring.RingBuffer.UpdateReadPtr` | module/include/micscif_rb.c:221-264 | what is read becomes free |
| `Masks.AndIsSlot` | module/include/micscif_rb.c:144-153 | masking with size - 1 is the remainder by a power of two |
| `Masks.CircCountIsDistance` | module/include/micscif_rb.c:273-288 | the 32-bit count macro is the distance of the positions although offsets wrap |
| `Masks.CircSpaceIsRoom` | module/include/micscif_rb.c:144-153 | the 32-bit space macro is the room left, one byte always free |
| `NodeQueue.MessagesWholeAndInOrder` | module/include/micscif_nodeqp.c:736-749 | in every interleaving the node messages read are the first ones written, whole and in order |
| `NodeQueue.NoPartialMessage` | module/include/micscif_rb.c:196-213 | a read that finds no message leaves nothing committed behind |
| `NodeQueue.Send` | module/include/micscif_nodeqp.c:736-749 | retries while the ring is full, exactly as often as the timeout allows before -ENODEV; with room at first it succeeds; on success the message is appended and committed, on -ENODEV nothing is |
| `AesProgram.RoundTrip` | aes_bench/aes.c:1224-1451 | for every 16-, 24- or 32-byte key and every block: expand, encrypt, decrypt gives the block back |
| `AesProgram.DecryptionUndoesEncryption` | aes_bench/aes.c:1340-1451 | the equivalent inverse cipher under the derived keys undoes the Cipher, for every key and block |
| `AesProgram.SetKey` | aes_bench/aes.c:1224-1276 | schedules of sections 5.2 and 5.3.5 of FIPS 197 for the key with each 4-byte group reversed, or -EINVAL for another length |
| `AesProgram.ExpandsAsGivenIff` | aes_bench/aes.c:1211-1276 | that is the expansion of the key as given exactly if every 4-byte group reads the same backwards |
| `AesProgram.ExpansionDeterminesKey` | aes_bench/aes.c:1241-1264 | keys of one length have the same round keys only if they are the same |
| `AesProgram.NotAsGiven` | aes_bench/aes.c:1236-1239 | a key of each length whose schedule is not that of the key as given |
| `AesProgram.Encrypt` | aes_bench/aes.c:1340-1380 | aes_encrypt is the Cipher of section 5.1 of FIPS 197 under the context's round keys |
| `AesProgram.Decrypt` | aes_bench/aes.c:1413-1451 | aes_decrypt is the equivalent inverse cipher of section 5.3.5 of FIPS 197 under the context's round keys |
| `AesTheorems.ProgramMeansStandard` | aes_bench/aes.c:71-1126 | every entry of the sixteen tables is what FIPS 197 says: SubBytes and (Inv)MixColumns of a single byte, rotated |
| `AesTheorems.EncryptWithIsCipher` | aes_bench/aes.c:1309-1380 | table rounds equal SubBytes, ShiftRows, MixColumns, AddRoundKey, without MixColumns in the last round, for any S-box |
| `AesTheorems.DecryptWithIsEqInvCipher` | aes_bench/aes.c:1383-1451 | inverse table rounds equal those of section 5.3.5 of FIPS 197, for any inverse S-box |
| `AesTheorems.DecKeysAreInverse` | aes_bench/aes.c:1236-1274 | round r of key_dec is InvMixColumns of round Nr - r of key_enc, the two end rounds copied |
| `AesTheorems.EncKeysAreExpansion` | aes_bench/aes.c:1241-1264 | key_enc holds the round keys of section 5.2 of FIPS 197 |
| `AesTheorems.ImixWordUnmixes` | aes_bench/aes.c:1138-1147 | imix_col is InvMixColumns of one column |
| `AesTheorems.ImixWordIsMatrix` | aes_bench/aes.c:1138-1147 | each byte of imix_col is a row of the matrix of section 5.3.3 of FIPS 197 times the column, with multiplication in GF(2^8) |
| `AesTheorems.ForwardLookupIsMatrix` | aes_bench/aes.c:1309-1319 | the sum of four forward lookups is the matrix of section 5.1.3 of FIPS 197 times the four substituted bytes |
| `AesContext.MirrorInvolution` | aes_bench/aes.c:1270-1273 | the index map of the decryption schedule is its own inverse, hence a bijection on the inner words |
| `AesContext.SwappedKeyWord` | aes_bench/aes.c:63-64 | le32_to_cpu makes a key word the byte-reversed group |
| `AesContext.InvertInner` | aes_bench/aes.c:1266-1274 | the last loop of key expansion mirrors and unmixes the inner rounds |
| `AesContext.Context.ExpandKey` | aes_bench/aes.c:1224-1276 | all accesses within 60 words; both schedules as specified, or -EINVAL and nothing changed |
| `AesContext.EncryptBlock` | aes_bench/aes.c:1340-1380 | loads, runs 10, 12 or 14 rounds by key length and stores, also in place |
| `AesContext.DecryptBlock` | aes_bench/aes.c:1413-1451 | the same for decryption |
| `AesWords.BytesOfStarX` | aes_bench/aes.c:1136-1137 | star_x doubles all four bytes in GF(2^8) with no carry between them |
| `AesSchedule.Loop4` | aes_bench/aes.c:1155-1166 | one group of the recurrence of section 5.2 of FIPS 197 for 16-byte keys |
| `AesSchedule.Loop6` | aes_bench/aes.c:1168-1183 | the same for 24-byte keys |
| `AesSchedule.Loop8TopHalf` | aes_bench/aes.c:1185-1196 | the first half of a group for 32-byte keys |
| `AesSchedule.Loop8` | aes_bench/aes.c:1198-1208 | a whole group for 32-byte keys, with the second substitution |
| `AesSchedule.RcoTabIsRcon` | aes_bench/aes.c:71 | the round constants are the powers of x |
| `AesCipher.EncRound` | aes_bench/aes.c:1309-1326 | one table round on four words |
| `AesCipher.EnclRound` | aes_bench/aes.c:1329-1338 | the last round without mixing |
| `AesCipher.DecRound` | aes_bench/aes.c:1383-1399 | one inverse table round |
| `AesCipher.DeclRound` | aes_bench/aes.c:1401-1411 | the last inverse round |
| `FipsInverse.EqInvCipherOfCipher` | aes_bench/aes.c:1340-1451 | for any S-box with an inverse and any round keys, the equivalent inverse cipher undoes the Cipher |
| `Fips197.SBoxIsAffineOfReciprocal` | aes_bench/aes.c:337-600 | the S-box in use is the affine transformation of the reciprocal in GF(2^8), section 5.1.1 of FIPS 197 |
| `Fips197Examples.ExpandsKey128` | aes_bench/aes.c:1211-1223 | the expansion of the standard's example key of 128 bits begins as its appendix A.1 says; likewise for the next two |
| `Fips197Examples.ExpandsKey192` | aes_bench/aes.c:1211-1223 | appendix A.2, 192 bits |
| `Fips197Examples.ExpandsKey256` | aes_bench/aes.c:1211-1223 | appendix A.3, 256 bits |
| `Fips197Examples.EnciphersExample` | aes_bench/aes.c:1340-1380 | the Cipher turns the block of appendix B, under its round keys, into what the appendix says |
| `DepGraph.GetActiveSet` | module/include/micscif_nm.c:889-959 | with memory the search succeeds, and the bits added are exactly the nodes reachable from the source along DISCONNECTED edges to non-host nodes idle in PC3 or PC6; each node is pushed at most once; no bit is cleared, and -ENOMEM adds only such nodes |
| `DepSpec.WakeSetMeans` | module/include/micscif_nm.c:921-944 | that set, in terms of the matrix: with each node all nodes but the host that it is DISCONNECTED from and that idle in PC3 or PC6, and nobody else but for such a reason |
| `DepGraph.GetMinimalDeactiveset` | module/include/micscif_nm.c:971-1046 | with memory, bits added, flags and status are those the matrix decides (DepSearch.Minimal); drained: added bits are exactly the closure under reversed DISCONNECT_READY edges through unvisited nodes, and everyone depending on an added node is visited; without memory what is known of each; -EINVAL without a matrix or visited array |
| `DepGraph.Unwind` | module/include/micscif_nm.c:1035-1043 | the cleanup loop empties the stack, unvisits it, and overwrites the status unless the stack was empty |
| `DepGraph.PushReady` | module/include/micscif_nm.c:1013-1031 | the loop is the scan of DepSearch.ScanReady unless memory runs out, and keeps the state of the search in any case |
| `DepGraph.GetDeactiveset` | module/include/micscif_nm.c:1061-1158 | terminates on every matrix; with memory, set and status are those of DepSearch.Deactivate; every bit added can be reached along the edges followed; the source's bit is set, so the final validity test never fails; -EOPNOTSUPP from the source's own search is the result |
| `DepGraph.SinkFrom` | module/include/micscif_nm.c:1108-1122 | a nested search that does not run out of memory leaves its start node visited, so the number of unvisited nodes falls |
| `DepSearch.MinimalMeans` | module/include/micscif_nm.c:995-1032 | the search from one node visits just what it adds, adds only what depends on the node, and either all of it, heard of by everyone who depends on it, or someone active still depends on an added node |
| `DepSearch.ScanStops` | module/include/micscif_nm.c:1013-1031 | the scan of a node stops at its first unvisited active dependent, and has stacked something exactly if a smaller unvisited one was ready |
| `DepSearch.OwnActiveReported` | module/include/micscif_nm.c:1013-1043 | an active dependent of the start node is reported exactly if no smaller unvisited dependent was ready to let go |
| `DepSearch.ActiveUnreported` | module/include/micscif_nm.c:1035-1043 | a matrix on which an active dependent stops the search and 0 is returned |
| `DepSearch.SingleFileReported` | module/include/micscif_nm.c:995-1043 | where each node reached has at most one unvisited ready dependent and no active one above it: the search returns -EOPNOTSUPP exactly if it stops; it does so if an unreached active dependent of any node reached exists, and only if there is an active dependent |
| `DepSearch.MaximalSetIsExact` | module/include/micscif_nm.c:1095-1145 | when every nested search drains: the nodes added are exactly those that hang, by DISCONNECT_READY edges, on a node that came off the outer stack; those nodes are reached from the source by forward edges to idle nodes, and all their forward targets are added |
| `DepSearch.PlainSetIsExact` | module/include/micscif_nm.c:1095-1122 | without the wish for a large set: set and status are those of the search from the source, and when it drains the set is exactly what hangs on the source |
| `DepSearch.SinkSetMeans` | module/include/micscif_nm.c:1013-1031 | what hangs on a node, in terms of the matrix: with each node all whose entry for it is DISCONNECT_READY, and nobody else but for such a reason |
| `DepLargest.LargestIffClosed` | module/include/micscif_nm.c:1095-1145 | when every nested search drains, the set is all the nodes that the de-activation can spread to exactly if no node of it is ready to let go of an idle node left out |
| `DepLargest.AlwaysLargestIffAnticipated` | module/include/micscif_nm.c:1102-1144 | on every matrix without DEPENDENT entries: the set is the largest, for every source and all idle states, exactly if each non-host j that a node hanging on u is ready to let go of hangs on u too, or u itself is ready to let go of it |
| `DepLargest.AnticipatedIsLargest` | module/include/micscif_nm.c:1102-1144 | that condition is enough on any matrix, for every search that drains |
| `DepLargest.LargestIsAnticipated` | module/include/micscif_nm.c:1124-1144 | it is needed at u as soon as the search from u, with only j idle, drains and finds the largest set |
| `DepLargest.QuietDrains` | module/include/micscif_nm.c:1013-1031 | without DEPENDENT entries every nested search drains |
| `DepLargest.NotTheLargest` | module/include/micscif_nm.c:1124-1144 | a matrix and idle states for which the set found is not the largest: node 3 can be reached and is left out, because forward edges are followed from nodes off the outer stack only |
| `NodeMask.SetBit` | module/include/micscif_nm.c:432-445 | exactly the node's bit changes, across byte boundaries |
| `NodeMask.GetBit` | module/include/micscif_nm.c:457-467 | the node's bit |
| `NodeMask.IsValid` | module/include/micscif_nm.c:476-484 | whether any node's bit is set |
| `NodeDep.RunIsConsistent` | module/include/micscif_nm.c:65-116 | over every run of balanced gets and puts, create and destroy notices alternate and the matrix entry settles on DEPENDENT exactly when pages are held, counted from the gets and puts themselves |
| `NodeDep.ConsistentIffBalanced` | module/include/micscif_nm.c:65-116 | a get or put keeps that exactly when a get leaves pages held and a put gives back pages that are held |
| `NodeDep.ConsistentThroughoutIffBalanced` | module/include/micscif_nm.c:65-116 | in every run: host and node are consistent after each step exactly if every get leaves pages held and every put gives back pages that are held |
| `NodeDep.CountIsHeld` | module/include/micscif_nm.c:65-116 | in every run the reference count is the pages of the gets less those of the puts |
| `NodeDep.EmptyGetMisleads` | module/include/micscif_nm.c:72-82 | a get of no page with none held makes the host record a dependency that does not exist |
| `NodeDep.Dependency.CreateNodeDep` | module/include/micscif_nm.c:65-84 | the count is the pages held, these included; host and node stay consistent exactly if pages are held afterwards; the first page mapped sends the create notice |
| `NodeDep.Dependency.DestroyNodeDep` | module/include/micscif_nm.c:96-116 | a put keeps them consistent exactly if pages were held and no more are given back; the last one sends the destroy notice |
| `NodeDep.Dependency.HandleNotice` | module/include/micscif_nodeqp.c:2166-2196 | the host's entry follows the notices in order, which keeps host and node consistent |
| `NodeDep.Dependency.HandleAll` | module/include/micscif_nodeqp.c:2166-2196 | once the notices in flight are handled the entry is DEPENDENT exactly if the gets and puts so far leave pages held |
| `PortSpec.HintStaysLive` | module/include/micscif_ports.c:325-350 | over every run in which reservations spare the hint's word, the words from the reserved boundary to first_free are empty and get fails exactly when every port above is taken |
| `PortSpec.LowReservationsStayLive` | module/include/micscif_ports.c:307-315 | in particular over every run whose reservations stay below the reserved boundary |
| `PortSpec.HintStaysOk` | module/include/micscif_ports.c:264-275 | over every run whatsoever the words from the reserved boundary up to first_free are empty |
| `PortSpec.GetIsLeastFree` | module/include/micscif_ports.c:339-345 | a port handed out is the least free one at or above the reserved range |
| `PortSpec.FailureIsExhaustionIffLive` | module/include/micscif_ports.c:333-346 | a failed get means exhaustion exactly when the word under first_free has a free port or nothing is left |
| `PortSpec.ReserveKeepsLiveIff` | module/include/micscif_ports.c:307-315 | a reservation keeps the hint live unless it takes the last free port of the hint's word |
| `PortSpec.ReserveIffFree` | module/include/micscif_ports.c:290-318 | a reservation succeeds exactly if the port is not 0 and free, takes that port alone, and otherwise changes no port |
| `PortSpec.DrainedHintFails` | module/include/micscif_ports.c:339-346 | after reserving the first 64 ports of the range, get fails although the next port is free |
| `PortSpec.GetHintOk` | module/include/micscif_ports.c:339-346 | get keeps all words from the reserved boundary up to first_free empty |
| `PortSpec.PutHintOk` | module/include/micscif_ports.c:373-377 | so does put, which moves the hint back |
| `PortSpec.PutCountOkIffHeld` | module/include/micscif_ports.c:373-377 | the free count stays 65535 - port_rsvd + port_free exactly when the port released was held |
| `PortSpec.GetCountOk` | module/include/micscif_ports.c:339-346 | get keeps the free count |
| `PortSpec.InitCountOk` | module/include/micscif_ports.c:260-275 | initially 65535 ports are free |
| `PortUse.PortsAreExclusive` | module/include/micscif_api.c:500-540 | over every run of open, bind, connect, accept and close, no two open endpoints own the same port, port 0 is never owned, and a port is free exactly when nobody owns it |
| `PortUse.CloseFreesItsPort` | module/include/micscif_api.c:348-349 | closing an owner frees its port, which was not free, and no other; closing an accepted or unbound endpoint frees none |
| `PortUse.BindGetsItsPort` | module/include/micscif_api.c:501-527 | a bind to a given port makes the endpoint its owner exactly if nobody owns it and the caller may have it; otherwise no endpoint changes |
| `PortUse.AnyPortIsFresh` | module/include/micscif_api.c:528-534 | a bind to any port, or a connect from the unbound state, gives the endpoint a port above the reserved range that nobody owned, and fails only on exhaustion or a drained hint |
| `PortUse.AcceptShares` | module/include/micscif_api.c:1000-1128 | an accepted endpoint has its listener's port and does not own it; owners and free ports do not change |
| `PortAllocator.Allocator.InitArray` | module/include/micscif_ports.c:260-275 | the first use makes every port but 0 free |
| `PortAllocator.Allocator.RsrvPort` | module/include/micscif_ports.c:290-318 | the given port exactly if it is not 0 and was free, and then that port alone is taken; else 0, with the counters |
| `PortAllocator.Allocator.GetPort` | module/include/micscif_ports.c:325-350 | the least free port of the hint's word, or 0; the hint moves to the next word with a free port |
| `PortAllocator.Allocator.PutPort` | module/include/micscif_ports.c:359-379 | the port is free, and the hint moves back to it above the reserved range |
| `PortAllocator.Allocator.FfsClr` | module/include/micscif_ports.c:225-238 | clears and returns the first set bit, 0 exactly for an empty word |
| `PortAllocator.Allocator.ClrBit` | module/include/micscif_ports.c:240-250 | clears one bit and says whether it was set |
| `PortAllocator.Allocator.SetBit` | module/include/micscif_ports.c:252-256 | sets one bit |
| `PortBits.ZeroIff` | module/include/micscif_ports.c:342-343 | a word tests as zero exactly when none of its 64 ports is free |

## Left out

- RMA registration, windows, fences and mmap: they are decided in files that are not part of this model.
- Timeouts, lost nodes and node reference counts: nodes are alive and waits end only by their condition or a signal.
- The `scif_user_send` and `scif_user_recv` paths: `scif_user_recv` takes the send lock, so the blocking results are about the kernel entry points.
- Asynchronous user accepts (`mi_uaccept`, `li_accept`): only the accept of the kernel interface is modelled.
- Memory barriers, readbacks and repeated pointer stores of the ring: commit and release are single publications; its `old_current` copies of offsets are not kept.
- Concurrent connect calls on one endpoint: a second call that starts while the first is still returning is not modelled.
- `micscif_get_activeset` and `micscif_get_deactiveset` without a dependency matrix: both then walk a stack that was never initialised, so the models start from a matrix.
- `micscif_nodeqp_intrhandler` and the loopback handlers: they drain a queue in order, which is how messages are delivered here.
- Messages whose remote device and target disagree, which a run with a termination that took another endpoint's request can send: the code addresses them to the device, the model to the target; the failing runs end before such a message is handled.
- Ports: the counters do not wrap at 64 bits.
- The benchmark programs, their timing and printing, and the copies of the cipher in other directories.
