# ThingsBoard MQTT client, verified model

A Dafny model of the parts of the ESP32 ThingsBoard MQTT client that keep state across messages, with proofs about
whole runs. Each component has a specification on values (a step function or a specification function) and, where
the C code changes things in place, a class or a loop that is proved equal to it; the laws are lemmas about the
specification, so they hold of the classes.

| file | what it models |
|---|---|
| `basics.dfy` | types, limits and text comparison |
| `sequences.dfy` | cutting a list into batches, the shape shared by all batching loops |
| `crc32.dfy` | the CRC-32 of section 8 of RFC 1952 and the byte swap of the checksum test |
| `numerals.dfy`, `topics.dfy` | printing and scanning of numbers, request topics and payloads, routing of incoming topics |
| `payload_buffer.dfy`, `payload_laws.dfy`, `payload_streams.dfy` | reassembly of fragmented MQTT payloads in a byte array, event by event and over whole streams |
| `request_ids.dfy`, `trackers.dfy`, `tracker_laws.dfy` | the id generator; pending requests, answers, timeout sweeps |
| `client.dfy`, `client_runs.dfy`, `client_outcomes.dfy` | the helper with its three trackers, throttle and connection; laws of every run; each event case by case |
| `fw_update.dfy`, `fw_laws.dfy`, `ota_update.dfy` | the firmware writer, what it takes, and the OTA entry that drives it |
| `ota_laws.dfy`, `ota_theorems.dfy` | invariants of every run of downloads; when exactly they succeed, clean up and end |
| `ota_outcomes.dfy` | each event of a download case by case |
| `ota_runs.dfy` | short runs that reach the states in which a download goes wrong |
| `dispatch.dfy`, `tb_client.dfy` | helper and OTA entry together: routing, shared ids, sweeps and disconnects of both |
| `download.dfy` | a whole download, from attributes and MQTT fragments to the switched boot partition |
| `attributes_subscribe.dfy`, `shared_attributes.dfy`, `batch_laws.dfy` | shared-attribute subscriptions and their batches |
| `reconnects.dfy` | firmware offers after several connects |
| `key_batches.dfy` | comma-joined key batches of the attribute extensions |

## How foreign code appears

- ESP-IDF, the broker and the publishing calls are nondeterministic: their results are fields of the events
  (`publishOk`, `subscribeOk`, `unsubscribeOk`, `WriteEnv`, `EndEnv`), over which every law is quantified.
- `time(NULL)` is the `at`, `now` or `stamp` of an event. The clock does not run backwards.
- What a callback will return is a field of the request or subscriber that carries it (`Handler`, `reply`).
- A freshly allocated block contains arbitrary bytes (`garbage`), and the laws hold whatever they are.
- `printf`, `sscanf`, `strstr` and the string functions are modelled by what they compute. Scanned numbers above
  2^32 - 1 saturate, as `strtoul` does with a 32-bit `long`.
- The header and version sizes in `fw_update.dfy` are those of ESP-IDF, which is not part of this model.
- Connect and disconnect events are handled before the next call of the application, messages arrive while the
  connection is up, and the broker discards subscriptions at a disconnect (section 3.1.2.4 of MQTT 3.1.1).
- History fields (`accepted`, `answered`, `expired`, `calls`, `history`, `issued`, `now`, `lastTick`, `sessions`) exist
  for the laws only.

## Where the code falls short, and exactly when

Each of these has a lemma that says exactly when it happens, and one that gives a run or an input on which it does.

- A download replaced after accepted chunks leaves a writer that believes in a checked header: the next image is written
  behind the old chunks and its header and version are not looked at. What is booted is then not what was verified
  (`OtaTheorems.BootedExactly`, `OtaTheorems.HeaderCheckedExactly`; `OtaRuns.BootedUnverified`).
- A first write that fails after the header check is not aborted, because abort asks for received bytes
  (`OtaTheorems.CleanupExactly`; `OtaRuns.SpoiledByFirstWrite`). If it failed because the partition could not be opened,
  the writer stays without a handle and, ESP-IDF refusing writes without one, every later download fails at its first
  chunk until the entry is created anew
  (`OtaTheorems.StuckWriter`, `OtaTheorems.StepStuck`).
- Every connect subscribes the OTA handler once more and no disconnect takes it back: after k connects one offer starts
  k downloads, of which k - 1 disappear silently (`Reconnects.HandledOftenExactly`, `Reconnects.OneOfferManyDownloads`;
  `Reconnects.SecondConnectReplaces`).
- Negotiating during a download either publishes FAILED for a download that goes on, or ends it without a callback
  and without aborting the writer (`OtaTheorems.NegotiatingAgain`; `OtaRuns.FailedWhileGoingOn`,
  `OtaRuns.ReplacedSilently`).
- An idle OTA entry takes a chunk message with id 0 for its own (`OtaTheorems.IdleIgnoresExactly`, both halves in one);
  the run laws ask for ids of at least 1, which is what the generator draws.
- A chunk request sent at second 0 of the clock never times out (`OtaTheorems.TimeoutExactly`; `OtaRuns.NeverTimesOut`).
- The result of subscribing to a response topic is not looked at (`ClientRuns.StepSafe`;
  `ClientRuns.FailedSubscribeIsUnheard`).
- A first request for which subscribing and sending end differently, or a last one whose unsubscribe call fails, leaves
  the subscription out of step with the list (`ClientRuns.StepFollows`; `ClientRuns.FailedSendStaysSubscribed`,
  `ClientRuns.FailedUnsubscribeStaysSubscribed`).
- A provisioning answer that is JSON but cannot be parsed is reported through `on_timeout` even if there is none, which
  calls a null pointer (`ClientRuns.NullCallExactly`; `ClientRuns.UnparsedAnswerCallsNull`). Runs end before such a
  call; if every provisioning request has a timeout handler there is none (`ClientRuns.NeverCallsNull`).
- The size handed to `strncat` bounds the piece appended, not the buffer: a batch whose joined keys have 256 characters
  or more is written beyond the buffer (`KeyBatches.LeavesExactly`; `KeyBatches.TwoLongKeysOverrun`).
- A leading empty key is lost with its comma, and a first key of 256 characters or more loses its end
  (`KeyBatches.ReadBackExactly`; `KeyBatches.EmptyFirstKeyIsLost`, `KeyBatches.LongFirstKeyIsCut`).

## Model

| member | source | states |
|---|---|---|
| Crc32.UpdateConcat | components/tbcmh/src/helper/ota_update.c:558 | the chaining law: continuing a checksum over the next chunk is checksumming the concatenation |
| Crc32.TableStep | components/tbcmh/src/helper/ota_update.c:558 | one byte moves the register as the table look-up of section 8 of RFC 1952 does |
| Crc32.TableOfBits | components/tbcmh/src/helper/ota_update.c:558 | the entries of that table for single bits, from which the others follow |
| Crc32.CheckValue | components/tbcmh/src/helper/ota_update.c:558 | the checksum of the letter a is 0xE8B7BE43 |
| Crc32.SingleByteErrorDetected | components/tbcmh/src/helper/ota_update.c:339-371 | two messages that differ in one byte never have the same checksum |
| Crc32.SwapBytesInvolution | components/tbcmh/src/helper/ota_update.c:347-353 | the shift and mask byte swap is its own inverse |
| Crc32.SwapBytesValue | components/tbcmh/src/helper/ota_update.c:347-353 | the swap gives the number whose four bytes are in reverse order |
| Numerals.PrintFitsTen | components/tbcmh/src/wapper/tbc_mqtt_wapper.c:595-602 | every 32-bit number prints in one to ten digits |
| Numerals.ScanPrinted | components/tbcmh/src/wapper/tbc_mqtt_wapper.c:948-952 | scanning a printed 32-bit number gives it back in decimal and hexadecimal, whatever follows that is neither a digit nor an x |
| Numerals.DigitsSpelledOut | components/tbcmh/src/helper/ota_update.c:354-358 | the sixteen digits and their values, letters in either case, and nothing else is a digit |
| Numerals.PrintedInOrder | components/tbcmh/src/wapper/tbc_mqtt_wapper.c:595-602 | one more digit is printed behind the others |
| Numerals.ScanSigned | components/tbcmh/src/helper/ota_update.c:358 | a signed number is negated modulo 2^32 by a minus sign, and saturates |
| Numerals.ScanSaturates | components/tbcmh/src/helper/ota_update.c:358 | an unsigned number that does not fit saturates |
| Numerals.ScanHexPrefix | components/tbcmh/src/helper/ota_update.c:358 | a hexadecimal number may carry 0x |
| Numerals.ScanSkipsSpace | components/tbcmh/src/helper/ota_update.c:358 | white space in front is skipped |
| Topics.TopicsAreNotTruncated | components/tbcmh/src/wapper/tbc_mqtt_wapper.c:909-916 | for all ids and chunk numbers the printed topic fits the buffer computed for it |
| Topics.PayloadsAreNotTruncated | components/tbcmh/src/wapper/tbc_mqtt_wapper.c:653-670 | attribute and RPC payloads fit their buffers for all keys, methods and parameters; no keys, no payload |
| Topics.FirstMark | components/tbcmh/src/wapper/tbc_mqtt_wapper.c:1089-1095 | the first "/chunk/" found in a firmware answer is the separator behind the id |
| Topics.RouteAttributesResponse | components/tbcmh/src/wapper/tbc_mqtt_wapper.c:944-952 | an attribute response is routed as such, with its id, for all 32-bit ids |
| Topics.RouteServerRpcRequest | components/tbcmh/src/wapper/tbc_mqtt_wapper.c:1011-1019 | a server RPC request is routed as such, with its id |
| Topics.RouteClientRpcResponse | components/tbcmh/src/wapper/tbc_mqtt_wapper.c:1043-1051 | a client RPC response is routed as such, with its id |
| Topics.RouteFwResponse | components/tbcmh/src/wapper/tbc_mqtt_wapper.c:1082-1095 | a firmware answer is routed as such, with its request id and its chunk number |
| Topics.RoutePlainTopics | components/tbcmh/src/wapper/tbc_mqtt_wapper.c:983-984 | the two topics without numbers are routed to their classes |
| Topics.RouteByBeginning | components/tbcmh/src/wapper/tbc_mqtt_wapper.c:983-984 | plain topics are routed by their beginning, and a topic with none of the six beginnings is unknown |
| Topics.RouteFwWithoutChunk | components/tbcmh/src/wapper/tbc_mqtt_wapper.c:1088-1095 | a firmware answer without a chunk number counts as chunk 0 |
| Topics.SharedTopicIsAmbiguous | components/tbcmh/src/wapper/tbc_mqtt_wapper.c:944-984 | every attribute response begins with the shared-attributes topic, and is routed correctly all the same |
| PayloadBuffers.CopyInto | components/tbcmh/src/wapper/tbc_mqtt_payload_buffer.c:111 | the copy overwrites exactly the fragment's place in the block |
| PayloadBuffers.PayloadBuffer.FeedEvent | components/tbcmh/src/wapper/tbc_mqtt_payload_buffer.c:73-124 | feeding a fragment in place is Feed: topic copied, block allocated or filled, other lengths refused; asked only that the copy stays inside the block |
| PayloadBuffers.PayloadBuffer.Process | components/tbcmh/src/wapper/tbc_mqtt_payload_buffer.c:173-234 | one data event in place is Step: what is delivered and what the buffer holds afterwards, for every event whose copies stay inside the block |
| PayloadBuffers.PayloadBuffer.Free | components/tbcmh/src/wapper/tbc_mqtt_payload_buffer.c:50-71 | freeing leaves the empty buffer |
| PayloadBuffers.Step | components/tbcmh/src/wapper/tbc_mqtt_payload_buffer.c:192-233 | the buffer stays consistent and is empty after every delivery |
| PayloadLaws.RefusedEvent | components/tbcmh/src/wapper/tbc_mqtt_payload_buffer.c:191-203 | an event that announces more than 128 KiB, or lies behind its payload, changes nothing |
| PayloadLaws.WholeEvent | components/tbcmh/src/wapper/tbc_mqtt_payload_buffer.c:205-215 | an event with a topic and its whole payload is delivered as it is and frees the buffer |
| PayloadLaws.FedEvent | components/tbcmh/src/wapper/tbc_mqtt_payload_buffer.c:73-124 | what any other event leaves in the buffer and delivers, byte by byte |
| PayloadStreams.StreamDelivery | components/tbcmh/src/wapper/tbc_mqtt_payload_buffer.c:173-234 | for every stream of finished and cut-off messages in any fragmentation, from any buffer: exactly the finished ones of at most 128 KiB, in order, once each, whatever memory the allocator returns |
| PayloadStreams.WholeTransfer | components/tbcmh/src/wapper/tbc_mqtt_payload_buffer.c:206-233 | one transfer delivers its message if and only if it is finished and not too long |
| RequestIds.GeneratedIsIdAt | components/tbcmh/src/helper/tbc_mqtt_helper.c:36-46 | the k-th id is ((k-1) mod 65535) + 1, so never 0 |
| RequestIds.IdsEqualExactly | components/tbcmh/src/helper/tbc_mqtt_helper.c:36-46 | two draws give the same id if and only if they are a multiple of 65535 draws apart |
| Trackers.RequestList.OnData | components/tbcmh/src/helper/attributes_request.c:410-463 | an answer in place is Answer: one request leaves the list, is called back, the last one unsubscribes; which one is stated by AnswersFindTheirRequests and StrangersIgnored |
| Trackers.RequestList.CutExpired | components/tbcmh/src/helper/attributes_request.c:477-497 | the in-place surgery splits the list into Kept and Expired, both in list order |
| Trackers.RequestList.ReportTimeouts | components/tbcmh/src/helper/attributes_request.c:510-523 | the callback loop makes exactly the calls TimeoutCalls |
| Trackers.RequestList.CheckTimeout | components/tbcmh/src/helper/attributes_request.c:465-524 | the sweep in place is Sweep |
| Trackers.RequestList.OnDisconnected | components/tbcmh/src/helper/attributes_request.c:101-118 | the disconnect handler in place is Disconnect |
| TrackerLaws.AppendKeeps | components/tbcmh/src/helper/attributes_request.c:169-183 | a request sent with the next id goes to the end of a list that stays sorted by time and numbered by the generator, and is accounted for |
| TrackerLaws.ExpiredArePrefix | components/tbcmh/src/helper/client_rpc.c:331-351 | in a list sorted by time the expired requests are a prefix and the survivors the rest, in order |
| TrackerLaws.TimeoutCallsStop | components/tbcmh/src/helper/client_rpc.c:364-378 | the handlers called are exactly those up to and including the first that returns 2, in list order |
| TrackerLaws.AnswerFindsItsRequest | components/tbcmh/src/helper/attributes_request.c:423-430 | an answer matches the request that drew its id if and only if no request pending longer was sent a multiple of 65535 draws earlier |
| TrackerLaws.CloseIsUnambiguous | components/tbcmh/src/helper/attributes_request.c:423-430 | with fewer than 65535 draws between the oldest and the newest request pending there is no such request |
| TrackerLaws.AnswerKeeps | components/tbcmh/src/helper/client_rpc.c:270-317 | an answer keeps the ledger, the order and the subscription |
| TrackerLaws.SweepKeeps | components/tbcmh/src/helper/provision_request.c:523-582 | a sweep keeps the ledger, the order and the subscription |
| TrackerLaws.DisconnectKeeps | components/tbcmh/src/helper/client_rpc.c:108-125 | a disconnect expires everything pending, so clearing the list drops no request |
| Client.Helper.GetRequestId | components/tbcmh/src/helper/tbc_mqtt_helper.c:36-46 | the k-th draw in place returns the k-th id, ((k-1) mod 65535) + 1 |
| Client.Helper.Request | components/tbcmh/src/helper/client_rpc.c:178-267 | sending in place is Step; it succeeds only if connected, published and with a response handler |
| ClientRuns.RunInv | components/tbcmh/src/helper/attributes_request.c:120-524 | in every reachable state each accepted request is pending, answered or expired and only one of them, called back at most once, numbered by the generator, and the lists are sorted by time |
| ClientRuns.AfterDisconnect | components/tbcmh/src/helper/tbc_mqtt_helper.c:353-361 | after a handled disconnect nothing is pending, each request with a handler got exactly one call unless a handler returned 2, and handling it again changes nothing |
| ClientRuns.AnswersFindTheirRequests | components/tbcmh/src/helper/provision_request.c:476-483 | in every reachable state an answer finishes exactly the request with its id, unless an older one shares it, a provisioning answer the oldest, and touches no other tracker |
| ClientOutcomes.StrangersIgnored | components/tbcmh/src/helper/attributes_request.c:443-446 | in every reachable state an answer whose id no pending request carries, or a provisioning answer nobody waits for, changes nothing |
| ClientOutcomes.AnswerOutcome | components/tbcmh/src/helper/client_rpc.c:270-317 | what an answer to a waiting request does to list, ledger, callbacks and subscription |
| ClientOutcomes.NoJsonNoEffect | components/tbcmh/src/helper/client_rpc.c:270-273 | an answer that is not JSON is dropped |
| ClientOutcomes.SendOutcome | components/tbcmh/src/helper/attributes_request.c:136-192 | what sending does in every case to ids, list and subscription |
| ClientOutcomes.TimeoutOutcome | components/tbcmh/src/helper/tbc_mqtt_helper.c:510-528 | what a timeout event does in every reachable state: nothing within 32 s, else exactly the requests of at least 30 s are given up, a beginning of the list, their handlers called in order |
| ClientOutcomes.ConnectOutcome | components/tbcmh/src/helper/tbc_mqtt_helper.c:376-413 | a new connection has no subscriptions and leaves the rest |
| ClientOutcomes.DisconnectOutcome | components/tbcmh/src/helper/provision_request.c:104-124 | a disconnect gives up everything pending, the handlers called in order |
| ClientRuns.StepSafe | components/tbcmh/src/helper/attributes_request.c:143-183 | pending requests imply a held subscription after a step if and only if the step is not a first request whose subscribe call failed |
| ClientRuns.RunSafeExactly | components/tbcmh/src/helper/client_rpc.c:199-262 | pending requests imply a held subscription all through a run if and only if no event of it is a first request whose subscribe call failed |
| ClientRuns.FailedSubscribeIsUnheard | components/tbcmh/src/helper/attributes_request.c:145-150 | a run in which a request waits without a subscription, because the result of subscribing is ignored |
| ClientRuns.StepFollows | components/tbcmh/src/helper/attributes_request.c:143-183 | "the topic is subscribed if and only if requests are pending" survives a step if and only if no first request has subscribing and sending end differently and no list runs empty while unsubscribing fails |
| ClientRuns.RunFollowsExactly | components/tbcmh/src/helper/attributes_request.c:433-438 | the subscription follows list emptiness all through a run if and only if no event of it falls out of step |
| ClientRuns.FailedSendStaysSubscribed | components/tbcmh/src/helper/attributes_request.c:145-168 | a run that ends with a subscription nobody waits for, because sending failed |
| ClientRuns.FailedUnsubscribeStaysSubscribed | components/tbcmh/src/helper/attributes_request.c:433-438 | a run that ends with one because unsubscribing failed |
| ClientRuns.NullCallExactly | components/tbcmh/src/helper/provision_request.c:506-517 | some answer would call a null pointer if and only if the oldest pending provisioning request has no timeout handler |
| ClientRuns.NeverCallsNull | components/tbcmh/src/helper/provision_request.c:506-517 | in no run whose provisioning requests all have a timeout handler |
| ClientRuns.UnparsedAnswerCallsNull | components/tbcmh/src/helper/provision_request.c:515 | a run in which the null pointer is called |
| ClientRuns.Deadlines | components/tbcmh/src/helper/tbc_mqtt_helper.c:517-527 | with timeout events at most p s apart, a request on a live connection is given up between 30 and 60 + p s after it was sent, and none stays pending longer |
| ClientRuns.DeadlineIsTight | components/tbcmh/src/helper/tbc_mqtt_helper.c:517-527 | for every p of at least 1 there is a run in which a request is given up exactly 60 + p s after it was sent, so the upper bound cannot be lowered |
| FwUpdate.FwWriter.WriteData | components/tbcmh/src/helper/ota_fwupdate.c:195-284 | a write in place is Write: header and version checks, opening the partition once, appending |
| FwLaws.FirstWriteExactly | components/tbcmh/src/helper/ota_fwupdate.c:216-284 | a first chunk is taken if and only if it has 288 bytes, its version bytes 48 to 79 are neither the running nor the failed ones, and ESP-IDF opens and writes; and what each case leaves behind |
| FwLaws.LaterWriteExactly | components/tbcmh/src/helper/ota_fwupdate.c:271-280 | once a header was checked a chunk is appended unchecked if ESP-IDF writes it |
| FwUpdate.FwWriter.Finish | components/tbcmh/src/helper/ota_fwupdate.c:288-319 | ending in place is End: the boot partition switches only if both calls succeed, and the writer is clean then |
| FwLaws.EndExactly | components/tbcmh/src/helper/ota_fwupdate.c:288-319 | the boot partition switches and the record is cleaned if and only if both calls succeed |
| FwUpdate.FwWriter.Abort | components/tbcmh/src/helper/ota_fwupdate.c:322-331 | aborting leaves a clean writer |
| OtaUpdates.OtaUpdate.HandleAttributes | components/tbcmh/src/helper/ota_update.c:801-884 | negotiation in place is OnAttributes |
| OtaUpdates.OtaUpdate.DoWrite | components/tbcmh/src/helper/ota_update.c:526-560 | only the expected, non-empty chunk that the writer takes is counted and checksummed |
| OtaUpdates.OtaUpdate.ChecksumVerification | components/tbcmh/src/helper/ota_update.c:339-371 | the test succeeds if and only if the attribute reads as the counted checksum with its four bytes in reverse order |
| OtaUpdates.OtaUpdate.HandleChunk | components/tbcmh/src/helper/ota_update.c:976-1070 | a chunk in place is OnChunk |
| OtaUpdates.OtaUpdate.FailSession | components/tbcmh/src/helper/ota_update.c:1054-1057 | failing publishes FAILED, aborts if bytes were received, resets and reports |
| OtaUpdates.OtaUpdate.Reset | components/tbcmh/src/helper/ota_update.c:373-400 | resetting leaves the idle session |
| OtaUpdates.OtaUpdate.CreateEntry | components/tbcmh/src/helper/ota_update.c:634-686 | a new entry starts idle with an initialised writer |
| OtaUpdates.OtaUpdate.DestroyEntry | components/tbcmh/src/helper/ota_update.c:688-718 | a destroyed entry drops its session and leaves the writer as it is |
| OtaLaws.AcceptCounts | components/tbcmh/src/helper/ota_update.c:555-558 | an accepted chunk moves chunk number, length, checksum, writer and flash on together, without wrap-around, whatever writer the session found |
| OtaLaws.StepKeeps | components/tbcmh/src/helper/ota_update.c:976-1099 | every event keeps the invariant of sessions, writer, flash and reports |
| OtaLaws.RunInv | components/tbcmh/src/helper/ota_update.c:420-1099 | in every reachable state an active session has counted and checksummed exactly its chunks, writer and flash are in step with it, the last request sent is for the chunk it waits for, every session was reported once, replaced, dropped or is going on, every report has a legal status trace and a truthful success with the flash it was booted from, and the boot switches equal the successes |
| OtaTheorems.SuccessExactly | components/tbcmh/src/helper/ota_update.c:1008-1037 | the boot partition switches and success is reported if and only if the last chunk arrives, the checksum attribute describes exactly the session's bytes, and ESP-IDF accepts the image; flash then holds these bytes behind what the session found |
| OtaTheorems.BootedExactly | components/tbcmh/src/helper/ota_fwupdate.c:205-284 | flash holds exactly the verified bytes at the switch if and only if the session found a writer that had not checked a header, or an empty partition |
| OtaTheorems.HeaderCheckedExactly | components/tbcmh/src/helper/ota_fwupdate.c:205-262 | the first chunk of a session is taken if and only if it has a header and a new version, spelled out in bytes, or the writer had checked some header before |
| OtaTheorems.BootedIsVerified | components/tbcmh/src/helper/ota_update.c:1008-1037 | over every run without a spoiled first write and without a replaced download that had accepted chunks, every booted image is byte for byte the verified one |
| OtaTheorems.PublishedChecksum | components/tbcmh/src/helper/ota_update.c:346-363 | with the byte-reversed CRC printed in hexadecimal as attribute, the test is equality of the CRCs |
| OtaTheorems.CorruptedByteRejected | components/tbcmh/src/helper/ota_update.c:1012-1037 | an image with one changed byte never switches the boot partition |
| OtaTheorems.CleanupExactly | components/tbcmh/src/helper/ota_update.c:576-585 | a reported session, however it ended and whatever it found, leaves the writer clean if and only if not: none of its chunks was accepted, and the writer had checked a header before or the first write failed behind the header check |
| OtaTheorems.ChunksMakeProgress | components/tbcmh/src/helper/ota_update.c:1038-1046 | every chunk that keeps a session going strictly decreases what is missing |
| OtaTheorems.TimeoutExactly | components/tbcmh/src/helper/ota_update.c:1082-1095 | a timeout check fails a session, with one callback, if and only if it was stamped and 30 s have passed |
| OtaTheorems.StaleChunksIgnored | components/tbcmh/src/helper/ota_update.c:989-1001 | chunks with the id of an ended session change nothing until a negotiation draws the id again |
| OtaTheorems.IdleIgnoresExactly | components/tbcmh/src/helper/ota_update.c:991-995 | an idle entry ignores every chunk of an id if and only if the id is not 0 |
| OtaTheorems.NegotiatingAgain | components/tbcmh/src/helper/ota_update.c:431-474 | attributes during a download keep it, publishing FAILED, if they are foreign, and otherwise replace it silently without aborting the writer; the new session is reported as failed at once if its first request cannot be sent |
| OtaOutcomes.OfferOutcome | components/tbcmh/src/helper/ota_update.c:801-884 | what an offer does in every case: FAILED for a foreign one, silence for the running version, FAILED for one that does not fit, and a first request otherwise |
| FwLaws.NegotiateExactly | components/tbcmh/src/helper/ota_fwupdate.c:154-191 | an image is accepted if and only if it has the current title, another version and fits the partition; the running version is up to date |
| OtaOutcomes.AlgorithmExactly | components/tbcmh/src/helper/ota_update.c:433 | crc32 is accepted in upper and lower case, nothing else |
| OtaOutcomes.ChunkOutcome | components/tbcmh/src/helper/ota_update.c:1002-1066 | what an answer does in every case: a wrong, empty or refused chunk fails the download, any other asks for the next or decides by checksum and ESP-IDF, with all announcements in order |
| OtaOutcomes.ForeignChunk | components/tbcmh/src/helper/ota_update.c:989-1001 | an answer with another id changes nothing |
| OtaOutcomes.SubscribeOutcome | components/tbcmh/src/helper/ota_update.c:634-686 | a new entry has no download and a writer as after power-on |
| OtaOutcomes.UnsubscribeOutcome | components/tbcmh/src/helper/ota_update.c:688-718 | unsubscribing drops a download without a report and without aborting the writer |
| OtaTheorems.StepStuck | components/tbcmh/src/helper/ota_fwupdate.c:258-277 | with a header checked and no handle, and ESP-IDF refusing writes without one, an answered download fails at its first chunk and the writer stays as it is |
| OtaTheorems.StuckWriter | components/tbcmh/src/helper/ota_fwupdate.c:258-277 | over every run until the entry is created anew, nothing is written or booted and no download succeeds |
| OtaRuns.BootedUnverified | components/tbcmh/src/helper/ota_update.c:439 | a run that boots a header and one byte although one byte was verified |
| OtaRuns.SpoiledByFirstWrite | components/tbcmh/src/helper/ota_fwupdate.c:258-277 | a run after which the idle writer remembers a header and has no handle |
| OtaRuns.ReplacedSilently | components/tbcmh/src/helper/ota_update.c:439 | a run in which a download disappears without a report |
| OtaRuns.FailedWhileGoingOn | components/tbcmh/src/helper/ota_update.c:837-841 | a run that publishes FAILED while the download goes on |
| OtaRuns.NeverTimesOut | components/tbcmh/src/helper/ota_update.c:1084-1088 | a run after which no timeout check ends the download |
| Download.SliceRouted | components/tbcmh/src/wapper/tbc_mqtt_wapper.c:1082-1110 | an answer's topic carries request id and chunk number to the chunk handler |
| Download.SlicesHandled | components/tbcmh/src/helper/ota_update.c:976-1070 | after k slices the flash holds the first k, and the request for slice k is the last one sent; after all, the image is installed |
| Download.EndToEnd | components/tbcmh/src/helper/ota_update.c:801-1070 | for every image, fragmentation and buffer content: flash holds exactly the image, exactly ceil(size / 16384) chunks were requested, each before its answer, the statuses in order, success reported once |
| Download.Device.ReceiveAll | components/tbcmh/src/wapper/tbc_mqtt_wapper.c:1179-1187 | the in-place buffer and entry together process a run of data events as the value-level run does |
| Download.Device.InstallFirmware | components/tbcmh/src/helper/ota_update.c:801-1070 | the same end-to-end result for the in-place classes, each message requested before it was handled |
| OtaRuns.Installable | components/tbcmh/src/helper/ota_update.c:801-1070 | the conditions of an installation can be met |
| Dispatch.RunInv | components/tbcmh/src/helper/tbc_mqtt_helper.c:353-528 | in every reachable state of the whole client, trackers and download keep their invariants, and an active download carries the id drawn by the last negotiation |
| Dispatch.AnswerByTopic | components/tbcmh/src/helper/tbc_mqtt_helper.c:452-508 | an answer under the response topic of a pending request's printed id finishes exactly that request, unless an older one shares the id, and touches nothing else |
| Dispatch.ProvisionByTopic | components/tbcmh/src/helper/tbc_mqtt_helper.c:497-501 | a provisioning answer finishes the request pending longest, with the credentials or as a timeout, and touches nothing else |
| Dispatch.FirmwareByTopic | components/tbcmh/src/helper/tbc_mqtt_helper.c:490-495 | a firmware answer reaches the OTA entry with both numbers of its topic, and no tracker |
| Dispatch.OtherTopicsPass | components/tbcmh/src/helper/tbc_mqtt_helper.c:503-507 | other topics concern neither trackers nor download |
| Dispatch.OfferDrawsId | components/tbcmh/src/helper/ota_update.c:492-497 | an acceptable offer draws the next shared id for its session, other offers draw none |
| Dispatch.LateChunks | components/tbcmh/src/helper/ota_update.c:989-1001 | chunks with the id of an earlier download are ignored if none is active, and otherwise if and only if the active one's id was not drawn a multiple of 65535 draws later |
| Dispatch.DownloadDeadline | components/tbcmh/src/helper/tbc_mqtt_helper.c:517-527 | with timeout events at most p s apart, no download whose last request was stamped later than second 0 waits longer than 60 + p s for its answer, and none of these survives a disconnect |
| Dispatch.DownloadGivenUp | components/tbcmh/src/helper/ota_update.c:1082-1095 | a timeout event gives a waiting download up if and only if the sweep is due and 30 s have passed, and comes at most 60 + p s after the request |
| TbClients.TbClient.OnMessage | components/tbcmh/src/helper/tbc_mqtt_helper.c:452-508 | a message in place reaches the tracker or the OTA entry its topic names |
| TbClients.TbClient.OnCheckTimeout | components/tbcmh/src/helper/tbc_mqtt_helper.c:510-528 | sweeps in place are at least 32 s apart and cover all trackers and the download |
| TbClients.TbClient.OnDisconnected | components/tbcmh/src/helper/tbc_mqtt_helper.c:415-450 | a disconnect in place flushes all trackers and the download, whose check is stamped 60 s ahead |
| TbClients.TbClient.OnOffer | components/tbcmh/src/helper/ota_update.c:801-884 | firmware attributes in place draw an id of the shared generator if and only if the negotiation succeeds |
| TbClients.TbClient.HandleAll | components/tbcmh/src/helper/tbc_mqtt_helper.c:353-528 | a whole run of events in place ends in the state of the value-level run, so its laws hold of the class |
| AttributesSubscribe.SubscriberList.SubscribeKeys | components/tbcmh/src/helper/attributes_subscribe.c:223-281 | subscribing in place is Subscribe, and returns the new id as an int |
| AttributesSubscribe.SubscriberList.UnsubscribeId | components/tbcmh/src/helper/attributes_subscribe.c:301-334 | unsubscribing in place removes the first subscriber with the id |
| AttributesSubscribe.SubscriberList.OnData | components/tbcmh/src/helper/attributes_subscribe.c:359-403 | the nested loops tell exactly the subscribers Told, in order, and return 1 or 2 if and only if a subscriber ended the distribution |
| AttributesSubscribe.ResultTells | components/tbcmh/src/helper/attributes_subscribe.c:384-392 | the last result looked at is 1 or 2 if and only if some interested subscriber with keys of its own stops |
| AttributesSubscribe.ToldExactly | components/tbcmh/src/helper/attributes_subscribe.c:370-398 | those told are the interested ones up to and including the first that stops the distribution |
| AttributesSubscribe.ToldWho | components/tbcmh/src/helper/attributes_subscribe.c:380-396 | unless an earlier one ends the distribution, a subscriber is told if and only if it has no keys or one of them is in the update, up to the case of letters |
| AttributesSubscribe.SubscribeOutcome | components/tbcmh/src/helper/attributes_subscribe.c:223-281 | a subscriber comes last under the next 32-bit id, the first one subscribes the topic |
| AttributesSubscribe.UnsubscribeOutcome | components/tbcmh/src/helper/attributes_subscribe.c:301-334 | the first subscriber with the id leaves, the others stay in order, the last one unsubscribes the topic |
| AttributesSubscribe.UnsubscribeStranger | components/tbcmh/src/helper/attributes_subscribe.c:313-321 | an id nobody has changes no list |
| AttributesSubscribe.ConnectionOutcome | components/tbcmh/src/helper/attributes_subscribe.c:336-353 | a connection starts without the topic and subscribes it if anybody wants it; a disconnect keeps the list |
| AttributesSubscribe.StepAgrees | components/tbcmh/src/helper/attributes_subscribe.c:210-346 | one event keeps "at the broker if and only if connected and somebody subscribed" if and only if no needed call fails |
| AttributesSubscribe.RunAgreesExactly | components/tbcmh/src/helper/attributes_subscribe.c:192-346 | over all interleavings it holds throughout if and only if no needed call fails |
| Reconnects.HandledOftenExactly | components/tbcmh/src/helper/ota_update.c:720-741 | after k connects an offer is handled by k more OTA handlers, unless an earlier subscriber stops its distribution |
| Reconnects.OneOfferManyDownloads | components/tbcmh/src/helper/ota_update.c:720-741 | one offer then starts k downloads with a request each, of which k - 1 are replaced without a report |
| Reconnects.SecondConnectReplaces | components/tbcmh/src/helper/ota_update.c:735-741 | a run with two connects and one offer in which a download disappears |
| SharedAttributes.AttributeSet.SubscribeWaiting | components/tbcmh/src/extension/tbc_extension_sharedattributes.c:210-250 | the array-filling loop subscribes exactly the batches of the waiting members and stores their ids |
| SharedAttributes.AttributeSet.SubscribeTo | components/tbcmh/src/extension/tbc_extension_sharedattributes.c:195-253 | a set bound to another client leaves it first; a batch size of 0 does nothing |
| SharedAttributes.AttributeSet.UnsubscribeAll | components/tbcmh/src/extension/tbc_extension_sharedattributes.c:255-272 | every subscribed member gives its id back, once per member, and holds -1 afterwards; a set bound to no client is left alone |
| BatchLaws.BatchesPartition | components/tbcmh/src/extension/tbc_extension_sharedattributes.c:211-235 | the batches concatenated are the unsubscribed members in order, all but the last of size min(m, 10) |
| BatchLaws.UnsubscribedInOrder | components/tbcmh/src/extension/tbc_extension_sharedattributes.c:215-217 | the waiting members are taken in list order |
| BatchLaws.MembersGetBatchIds | components/tbcmh/src/extension/tbc_extension_sharedattributes.c:226-231 | each member of batch k ends with the k-th new id of the 32-bit counter, unless that comes back negative, and the others keep theirs |
| BatchLaws.BatchesRegistered | components/tbcmh/src/extension/tbc_extension_sharedattributes.c:222-225 | each batch becomes one subscriber with exactly its members' keys, behind the earlier subscribers |
| BatchLaws.UnsubscribeUndoes | components/tbcmh/src/extension/tbc_extension_sharedattributes.c:255-272 | subscribing a fresh set and unsubscribing it restores subscribers and broker subscription, and every id is -1 |
| KeyBatches.Initialize | components/tbcmh/src/extension/tbc_extension_clientattributes.c:259-294 | the loop sends exactly the joined batches of the keys with a setter, and reports a write beyond its buffer exactly when one of its writes leaves it |
| KeyBatches.LeavesExactly | components/tbcmh/src/extension/tbc_extension_sharedattributes.c:339-345 | some write of the loop leaves the buffer if and only if some whole batch does not fit it |
| KeyBatches.JoinedWithCommas | components/tbcmh/src/extension/tbc_extension_clientattributes.c:265-270 | a further key is written behind a comma |
| KeyBatches.TwoLongKeysOverrun | components/tbcmh/src/extension/tbc_extension_clientattributes.c:265-270 | two keys of 200 characters with which it does |
| KeyBatches.ReadBackExactly | components/tbcmh/src/extension/tbc_extension_clientattributes.c:264-270 | the server reads exactly the keys of a batch if and only if the batch fits the buffer, its keys are comma-free, and the first one is neither empty nor cut |
| KeyBatches.EmptyFirstKeyIsLost | components/tbcmh/src/extension/tbc_extension_clientattributes.c:265-269 | a batch whose empty first key the server never sees |
| KeyBatches.NothingLostExactly | components/tbcmh/src/extension/tbc_extension_clientattributes.c:259-294 | the server reads exactly the keys with a setter, in order, if and only if this holds of every batch |
| KeyBatches.NothingLost | components/tbcmh/src/extension/tbc_extension_sharedattributes.c:334-369 | for non-empty comma-free keys of at most 255 characters that is the case if and only if every joined batch fits 255 characters; at most max(1, m) keys per request |

## Left out

- Queue, semaphores and threads: events are handled one after the other, each as one atomic step.
- Calls the application makes from inside a callback: they count as events after the handler that made the callback.
- cJSON: a received object is its keys and values; an answer is JSON or not, and dropped if not; a provisioning answer
  is parsed or not.
- Provisioning parameters and the credentials struct: field copies without state.
- Telemetry, attribute updates, claiming, one-way RPC, time series: one publish each; a one-way RPC appears as DrawId.
- Server-side RPC handlers: the same list and subscription as the shared-attribute subscribers.
- Software OTA and several firmware entries: the former has no writer, the latter share one writer record.
- The subscription to the firmware response topic, and the texts of telemetry other than the state.
- The int counter of the firmware writer grows without bound in the model; the code only logs it.
- Topics that are shorter than the prefix they are compared with, or whose numbers are longer than 31 characters: the
  C code reads or writes beyond its buffers there, the model does not match or scans the whole text.
- Allocation failure, and an on_response handler of NULL except where the code reports failure for it.
- Destroying the client while requests are pending: runs end at a handled disconnect.
- PayloadBuffers.Step: asks that a fragment to be copied lies inside its block and does not count more bytes than the
  block holds; otherwise the C code leaves its block.
- PayloadBuffers.PayloadBuffer.Process: asks what PayloadBuffers.Step asks.
- PayloadBuffers.PayloadBuffer.FeedEvent: asks what PayloadBuffers.Step asks, and that a topic finds the buffer freed.
- Trackers.RequestList.OnData: asks that a provisioning answer that cannot be parsed has a timeout handler to go to;
  otherwise the C code calls a null pointer.
- OtaLaws.RunInv: asks that partition size + 128 KiB stays below 2^32, so that the 32-bit length cannot wrap.
- BatchLaws.UnsubscribeUndoes: asks that fewer than 2^31 subscription ids were drawn; later ids come back negative and
  are not stored.
