# voipmonitor sniffer core: a verified Dafny model

This project models the sequential core of the voipmonitor packet sniffer's
call table, its packet-buffer pool and its capture-flag setup. It then proves
properties of that model.

- **Call lifecycle** (`CallModel`, `CallTimers`). `Call` is a class whose
  methods update its fields as the inline helpers of `Call` / `Call_abstract`
  do:
  - the forward-only destroy deadline and last-packet time;
  - BYE bookkeeping for merged call legs;
  - the bounded endpoint table with its two RTP direction records per
    endpoint;
  - the rtpmap scans;
  - the readiness gate for writing the CDR, including the 16-bit chunk-buffer
    counter.
- **SS7 circuits** (`Ss7Model`). This part is pure:
  - the validity check of parsed ISUP data;
  - the symmetric circuit key `cic-low-high`;
  - the call status derived from the REL/ANM time stamps and the release
    cause.
- **Call table lookups** (`EndpointHash`, `Registry`):
  - the 32-bit wrap-around `tuplehash` reduced modulo `MAXNODE`;
  - the walks of a hash bucket's chains (the last matching node wins);
  - the call-id and merge-id lookups, which hide calls whose `end_call` is
    set; a hit with a non-zero packet time also bumps the in-flight counter
    and stamps the truncated time;
  - the register-id lookup, which hides `end_call` registrations but keeps no
    counter, and the SS7-id lookup, a plain map lookup.
- **Packet-buffer pool** (`HeaderPacketPool`). `cHeaderPacketStack` keeps:
  - ten push pools of 100 packet slots each, held in an `array2`;
  - a pop pool, held in an `array`;
  - their fill counters;
  - a bounded backing queue of whole pools, which can refuse a pool.

  `CREATE_HP`, `DESTROY_HP` and `PUSH_HP` are module-level methods.
- **Capture flags** (`CaptureFlags`). `set_global_flags` is a method made of
  the same run of conditional ORs, proved equal to the flags word united with
  a reference function of the options.
- **SIP constants** (`SipMethods`). These are the `REGISTER` method code and
  the 487 response code that the deadline rule uses.

Widths are explicit where they matter:
- the chunk counter wraps modulo 2^16;
- `tuplehash` computes on `bv32`;
- `in_preprocess_queue_before_process_packet_at` is truncated to 32 bits.

Integers the source treats as `int` or `time_t` are unbounded. Locks are left
out, and each method is read as one critical section run by one thread.

The deadline rule is modelled as written in `shift_destroy_call_at`: the
deadline never moves backwards. So a BYE-OK ("+5 s") seen after a BYE
("+60 s") has no effect unless more than 55 s have passed, and then it extends
the deadline. For example, a BYE at second 3 followed by its OK at second
4 leaves the deadline at 63, not 9. `CallTimers.ConfirmedByeKeepsByeWindow`
states this.

## Model

| member | source | states |
|---|---|---|
| CallTimers.DestroyWindow | calltable.h:846-853 | a REGISTER gets the registration timeout; otherwise the window is 60 s exactly when BYE was seen but not its OK, and 15 s exactly when no BYE was seen and either the passed or the stored last response is 487 |
| CallTimers.CallWindowChoices | calltable.h:846-853 | for a non-REGISTER call the window is always 5, 15 or 60 seconds |
| CallModel.Call.ShiftDestroyCallAt | calltable.h:843-858 | a deadline of 0 (or below) is left alone; otherwise the new deadline is the larger of the old one and packet second plus the window (`opt_register_timeout` for REGISTER, else 5 after BYE-OK, else 60 after BYE, else 15 when either the passed or the stored last response is 487, else 5), so it never moves backwards |
| CallTimers.ShiftAllMonotone | calltable.h:843-858 | a run of deadline shifts never lowers the deadline; an unset deadline stays unset, and a set one ends at or above every candidate |
| CallTimers.ShiftAllIdempotent | calltable.h:843-858 | replaying the same run of shifts a second time changes nothing |
| CallTimers.ShiftAllAbsorbs | calltable.h:855-856 | a candidate not above the current deadline leaves it unchanged |
| CallTimers.ConfirmedByeKeepsByeWindow | calltable.h:843-858 | a BYE-OK within 55 s of the BYE leaves the BYE deadline in place, which stays at least BYE second + 60 |
| CallModel.Call.SetLastPacketTime | calltable.h:643 | the last packet time becomes the larger of old and new, so it never decreases |
| CallModel.Call.IsEmptyChunkBuffersCount | calltable.h:200-202 | true exactly when the chunk-buffer counter is 0 |
| CallModel.Call.IncChunkBuffers | calltable.h:203-205 | the 16-bit counter is incremented modulo 2^16 |
| CallModel.Call.DecChunkBuffers | calltable.h:206-208 | the 16-bit counter is decremented modulo 2^16 |
| CallTimers.ApplyChunkOpsCount | calltable.h:200-208 | after any sequence of increments and decrements the counter is the start value plus increments minus decrements, modulo 2^16 |
| CallTimers.BalancedChunkOpsRestore | calltable.h:200-208 | as many decrements as increments, in any order and even through wrap-around, bring the counter back to its start value |
| CallModel.Call.SetSeenbye | calltable.h:921-930 | the call-level BYE flag and time are always set; the leg entry under the C string `call_id` is written only when the merge header is non-empty and `call_id` is non-NULL and non-empty, and other legs stay as they were |
| CallModel.MergeLegKey | calltable.h:925-928 | a leg key exists exactly for a present, non-empty `call_id`, and it is that C string |
| CallModel.Call.GetSeenbyeTimeUS | calltable.h:931-946 | with merging: 0 when any leg lacks BYE or has time 0; otherwise at least every leg's time and equal to one of them (0 for no legs). Without merging: the call's BYE time if BYE was seen, else 0 |
| CallModel.Call.EvProcessRtpStream | calltable.h:731-742 | an index at or above `ipport_n` changes nothing; otherwise the `by_dest` record takes the packet's endpoints only if its saddr was 0 (reported as a stream start), always takes the packet time, and no other slot or direction changes |
| CallModel.ProcessFlowMeaning | calltable.h:732-739 | one packet stamps its time; it records its endpoints only into an unused direction and leaves a used direction's endpoints unchanged |
| CallModel.RecordedFlowSticks | calltable.h:731-742 | once a direction has a source, any further packets keep its endpoints and leave the last packet's time |
| CallModel.Call.NullIpPortInfoRtpStream | calltable.h:758-768 | for an in-range index both direction records of that slot become all-zero, and every other slot (every slot for an out-of-range index) is unchanged |
| CallModel.EndEvents | calltable.h:744-753 | the end events are at most two: every one is for this endpoint and a direction with non-zero saddr, and every such direction gets one |
| CallModel.Call.EvDestroyIpPortRtpStream | calltable.h:743-757 | an in-range endpoint reports the end events of its directions that have a source, then is nulled; other slots are unchanged, and an out-of-range index reports nothing and changes nothing |
| CallModel.Call.IsFillRtpMap | calltable.h:788-795 | true exactly when some rtpmap entry of the endpoint is non-zero |
| CallModel.Call.GetFillRtpMapByCallerd | calltable.h:797-805 | the result is -1 or an index below `ipport_n` on the requested side with a filled rtpmap, and no higher index qualifies |
| CallModel.Call.IsPcapsClose | calltable.h:809-813 | true exactly when all three pcap dumpers are closed |
| CallModel.Call.IsGraphsClose | calltable.h:814-821 | true exactly when every present RTP stream has its graph closed |
| CallModel.Call.IsReadyForWriteCdr | calltable.h:822-825 | true exactly when the pcaps and graphs are closed and the chunk-buffer counter is 0 |
| Ss7Model.Opc | calltable.h:1031 | the originating point is the M3UA or the MTP3 one, and it is set whenever either of them is set |
| Ss7Model.Dpc | calltable.h:1032 | the destination point is the M3UA or the MTP3 one, and it is set whenever either of them is set |
| Ss7Model.IsOk | calltable.h:1046-1050 | the data is valid exactly when the circuit code is set and the chosen originating and destination point codes (M3UA, else MTP3) are both set |
| Ss7Model.Ss7Id | calltable.h:1027-1036 | the circuit key is empty exactly when `isOk` fails |
| Ss7Model.Ss7IdSymmetric | calltable.h:1027-1053 | swapping the originating and destination points changes neither the validity nor the key |
| Ss7Model.Ss7IdSameCircuitIff | calltable.h:1027-1036 | two valid messages have the same key exactly when they have the same CIC and the same two points in either order |
| Ss7Model.ParseNatToString | calltable.h:1035 | the decimal string of a number reads back as that number |
| Ss7Model.NatToStringInjective | calltable.h:1035 | distinct numbers have distinct decimal strings |
| Ss7Model.CircuitKeyInjective | calltable.h:1035 | the dash-joined key determines its three numbers |
| Ss7Model.CircuitId | calltable.h:1080-1082 | the call's circuit key is empty exactly when its IAM data is not OK |
| Ss7Model.GetState | calltable.h:1086-1096 | completed iff REL and ANM are set; canceled iff only REL is set and the cause is 16; rejected iff only REL is set and the cause is not 16; in_call iff only ANM is set; call_setup iff neither is set |
| Ss7Model.GetStateDependsOnlyOnRelAnmCause | calltable.h:1086-1096 | the status depends on nothing but whether REL and ANM are set and the release cause |
| Ss7Model.GetStateProgresses | calltable.h:1086-1096 | as further messages arrive the status only moves forward: from call_setup to any status, and from the others only to completed |
| Ss7Model.StateName | calltable.h:1097-1104 | every status has a non-empty name |
| Ss7Model.StateNameInjective | calltable.h:1097-1104 | distinct statuses have distinct names |
| EndpointHash.TupleHash | calltable.h:975-986 | the bucket index is always below `MAXNODE` (150000) |
| EndpointHash.LastMatch | calltable.h:1358-1362 | the position found is -1 or a node for the endpoint, and no later node matches |
| EndpointHash.ChainLookupMiss | calltable.h:1358-1362 | a bucket with no node for the endpoint yields no bindings |
| EndpointHash.ChainLookupUnique | calltable.h:1358-1362 | with exactly one node for the endpoint, the lookup yields that node's bindings |
| EndpointHash.ChainLookupIgnoresOthers | calltable.h:1358-1362 | appending nodes for other endpoints does not change the lookup |
| Registry.Calltable.HashfindByIpPort | calltable.h:1351-1367 | the walk of the whole bucket of (addr, port) yields the bindings of its last matching node |
| Registry.Calltable.CheckCallInHashfindByIpPort | calltable.h:1368-1386 | true exactly when the call occurs among the bindings `hashfind_by_ip_port` yields |
| Registry.CallIdKey | calltable.h:1248 | the key is a prefix of the buffer, exactly `len` long when a length is given, else the NUL-free prefix that ends at the buffer's first NUL or at its end (the C string) |
| Registry.Calltable.FindLive | calltable.h:1249-1258 | a call is returned exactly when the key is present and its `end_call` is 0; only such a hit with non-zero time increments its counter and records the time modulo 2^32; no other call changes |
| Registry.Calltable.FindByCallId | calltable.h:1246-1261 | the same visibility and counter rule over `calls_listMAP`, keyed by the call-id string |
| Registry.Calltable.FindByMergecallId | calltable.h:1262-1277 | the same visibility and counter rule over `calls_mergeMAP` |
| Registry.Calltable.FindByRegisterId | calltable.h:1278-1289 | a registration is returned exactly when the key is present and its `end_call` is 0 |
| Registry.Calltable.FindBySs7Id | calltable.h:1304-1313 | a circuit is returned exactly when the key is present, and it is the mapped one |
| Common.CStr | calltable.h:1248 | the C string is a NUL-free prefix of the buffer, ended by NUL when shorter |
| Common.CStrEmptyIff | calltable.h:925-926 | the C string is empty exactly when the buffer is empty or starts with NUL |
| HeaderPacketPool.HeaderPacket.constructor | header_packet.h:88-92 | a packet allocated for a pool, with its owner and size set, header detection off and MD5 word 0 |
| HeaderPacketPool.HeaderPacketStack.constructor | header_packet.h:32-39 | all pools start empty, and the backing queue holds at most `size_max / 100` pools |
| HeaderPacketPool.HeaderPacketStack.Push | header_packet.h:53-77 | the result is 0, 1 or 2, and 0 exactly for NULL, which changes nothing; a packet with no owner gives 2 and no pool changes; otherwise its first header and data bytes are zeroed, a full pool is handed to the backing queue and emptied before the packet is appended, and a refused pool drops the packet with 2 and leaves pool `i` as it was; the pop pool, the other push pools, their counters and the stack's packet size never change, and of the packet only those two bytes may change |
| HeaderPacketPool.HeaderPacketStack.SpillPool | header_packet.h:63-71 | a full pool is accepted exactly when the backing queue has room; it then joins the back of the queue and its counter resets to 0, else nothing changes |
| HeaderPacketPool.HeaderPacketStack.AppendPacket | header_packet.h:72-75 | the packet goes into slot `size` of pool `i`, and no other slot or counter changes |
| HeaderPacketPool.HeaderPacketStack.Pop | header_packet.h:78-107 | a non-empty pop pool hands out `pool[100 - size]` and shrinks by one; an empty one refills from the front of the backing queue and hands out slot 0, leaving 99; with nothing to reuse it allocates a packet owned by this pool, sized by the stack's unchanged packet size, and returns 2; a reused packet keeps its owner, size and first bytes; the packet always has header detection off and MD5 word 0 |
| HeaderPacketPool.HeaderPacketStack.LoadPopQueue | header_packet.h:84-85 | the pop pool becomes a copy of the pool taken from the backing queue |
| HeaderPacketPool.HeaderPacketStack.PoolSnapshot | header_packet.h:64 | the pool handed over holds exactly the 100 slots of push pool `i` |
| HeaderPacketPool.CreateHp | header_packet.h:117-124 | a fresh packet with no owner, the given size, header detection off and MD5 word 0 |
| HeaderPacketPool.DestroyHp | header_packet.h:126-129 | the caller's pointer is NULL afterwards |
| HeaderPacketPool.PushHp | header_packet.h:130-137 | with a non-negative index and an owner the packet is pushed to its owner with the outcomes of `push` (appended, pool spilled first, or dropped when the backing queue is full), and the owner's pop pool, other push pools and packet size stay as they were, and of the packet only its first header and data bytes change; otherwise the packet is released untouched; the caller's pointer is NULL either way |
| CaptureFlags.SetGlobalFlags | filter_mysql.h:317-388 | the flags on exit are the flags on entry united with the bits the options ask for, so every bit set on entry stays set |
| CaptureFlags.OrStreamFlags | filter_mysql.h:337-348 | the four stream ORs add exactly the SIP, RTP, RTP-header and RTCP bits whose options are on |
| CaptureFlags.OrAudioAndCdrFlags | filter_mysql.h:349-363 | the next five ORs add exactly the audio mask (OGG or WAV by format), graph, skip-CDR, hide-message and save-REGISTER bits whose options are on |
| CaptureFlags.OrDtmfAndOptionsFlags | filter_mysql.h:364-375 | the DTMF DB/pcap bits follow their options; the OPTIONS DB bit needs the option to be exactly 1, the pcap bit needs it and its save option non-zero |
| CaptureFlags.OrNotifyAndSubscribeFlags | filter_mysql.h:376-387 | the NOTIFY and SUBSCRIBE DB and pcap bits under the same rule as OPTIONS |
| CaptureFlags.RequestedMembers | filter_mysql.h:337-387 | a bit is added exactly when one of the 17 conditional ORs asks for it; the audio OR adds one of two format bits |
| CaptureFlags.AllOffLeavesFlags | filter_mysql.h:337-387 | with every option off the flags word is unchanged |
| CaptureFlags.SetGlobalFlagsIdempotent | filter_mysql.h:317-388 | applying the composition twice gives the same word as applying it once |
| CaptureFlags.KnownOptionBits | filter_mysql.h:337-363 | saveSIP, saveRTP, onlyRTPheader, saveRTCP, saveGRAPH, skipdefault, hide_message_content and sip_register_save_all each set their own bit exactly when on |
| CaptureFlags.SaveAudioBits | filter_mysql.h:349-351 | saveWAV sets the audio bit plus the OGG format bit when the format is OGG, else the WAV format bit, never both |
| CaptureFlags.SipMessageBits | filter_mysql.h:364-387 | DTMF bits follow their options; the OPTIONS/NOTIFY/SUBSCRIBE DB bit is set exactly when the option equals 1, and the PCAP bit exactly when the option and its save option are non-zero |
| CaptureFlags.RequestedWithin | filter_mysql.h:337-387 | only the flags defined next to the call table and the external flags are ever added |
| CaptureFlags.RuntimeFlagsUntouched | filter_mysql.h:337-387 | RUNSCRIPT, RUNAMOSLQO, RUNBMOSLQO and USE_SPOOL_2 are never set from the options |

## Left out

- Spin locks, `__sync_*` atomics and the backoff in `lock_calls_hash` are concurrency. Each method is modelled as a single-threaded critical section, and counters are plain fields.
- Methods declared but not defined in the modelled files (`add_ip_port`, `read_rtp`, `hashAdd`, `hashRemove`, `cleanup_calls`, `saveToDb`, `processData`, `evStartRtpStream`, `evEndRtpStream`, `find_by_ip_port` and the rest) are not modelled. The start and end events appear only as what `EvProcessRtpStream` and `EvDestroyIpPortRtpStream` would pass them.
- The `Call` and `Ss7` constructors are declared only. The model's tables start from whatever state a caller gives.
- `PcapDumper::isClose` and `RTP::graph.isClose()` are booleans in the model, and an `rtp[]` slot is either empty or a stream with a graph flag.
- The floating-point `mos_lqo` and DTMF times are left out, because floating point is out of scope.
- The SQL filter trees, `CustomHeaders` and `NoHashMessageRules` are declarations only, so no behaviour is modelled for them.
- The spool and path helpers, `getSpoolIndex` and `calls_counter_inc`/`dec` depend on external configuration and process globals, so they are left out.
- `find_by_reference` compares pointer casts, so it is left out.
- `Ss7::filename`, `Ss7::lastMessageTypeToString` and the `Ss7` message-time bookkeeping are left out: they are string output for file names and logs, with no rule the call table depends on.
- The other method, response and call-type codes (calltable.h:41-68) and the `IS_SIP_*` macros (calltable.h:70-73) are not modelled: they are plain constants and comparisons with them, and no modelled operation uses them.
- common.h holds only platform macros and verbosity settings, so it has no behaviour to model.
- `new` / `delete []` of packets are object allocation and release in the model. `DestroyHp` only nulls the caller's pointer, and freeing memory has no model.
- HeaderPacketPool.HeaderPacketStack: the destructor (header_packet.h:40-52) is not modelled, because it only frees memory.
- HeaderPacketPool.HeaderPacketStack: `rqueue_quick` is defined elsewhere. It is modelled as a FIFO sequence of whole pools that refuses a pool when it already holds `size_max / 100` pools, and its blocking and spinning modes are left out.
- HeaderPacketPool.HeaderPacketStack.Push: an index of 10 or more overruns `push_queues` in the source. The model requires an index below 10.
- HeaderPacketPool.PushHp: it requires an index below 10 for an owned packet, as `Push` does.
- CallModel.Call.EvProcessRtpStream: the endpoint index is a `nat`. The source's `int` guard `index < ipport_n` does not reject negative indices, which would write outside the array. The same holds for `NullIpPortInfoRtpStream` and `EvDestroyIpPortRtpStream`.
- CallModel.Call.IsFillRtpMap: it requires an index below `MAX_IP_PER_CALL`. The source does no bound check.
- Registry.Calltable.FindLive: `in_preprocess_queue_before_process_packet` is an unbounded integer, so `int` overflow is not modelled.
- Ss7Model.NatToString: `intToString` is modelled as the decimal string of a natural number, which is injective. The source's implementation is not part of this model.
- EndpointHash.ChainLookup: the `hash_node` and `hash_node_call` linked lists are sequences in list order. A node with no bindings stands for a NULL `calls` pointer.
- CaptureFlags.SetGlobalFlags: the flags word is a set of bit positions. The undefined `FLAG_SAVEDTMF*`, `FLAG_SAVEOPTIONS*`, `FLAG_SAVENOTIFY*` and `FLAG_SAVESUBSCRIBE*` and `FORMAT_OGG` are parameters, required distinct where a lemma needs it. The `volatile` reference becomes an input and a result. The ORs are checked as four consecutive groups, in the source's order.
