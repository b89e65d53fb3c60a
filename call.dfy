/**
 * The session entity `Call` (with the fields it inherits from `Call_abstract`)
 * reduced to the state its inline helpers read and write: the destroy deadline
 * and last-packet time, BYE bookkeeping per merged leg, the bounded table of
 * media endpoints with their per-direction RTP flow records, the rtpmap table,
 * and the flags and counter that gate writing the CDR.
 */
module CallModel {
  import opened Common
  import opened CallTimers
  import opened SipMethods

  const MAX_IP_PER_CALL: int := 40
  const MAX_SSRC_PER_CALL: int := 40
  const MAX_RTPMAP: int := 40

  /** One direction of media seen for an endpoint (`ip_port_call_info_rtp`). */
  datatype RtpFlow = RtpFlow(saddr: u32, sport: u16, daddr: u32, dport: u16, lastPacketTime: int)

  const NullFlow: RtpFlow := RtpFlow(0, 0, 0, 0, 0)

  /** Exactly two direction records, indexed by `by_dest`. */
  type FlowPair = s: seq<RtpFlow> | |s| == 2 witness [NullFlow, NullFlow]

  datatype SdpFlags = SdpFlags(isFax: int, rtcpMux: int)

  /** One negotiated media endpoint (`ip_port_call_info`). */
  datatype IpPortCallInfo = IpPortCallInfo(
    addr: u32, port: u16, iscaller: bool,
    sessid: seq<char>, to: seq<char>, sipSrcAddr: u32,
    sdpFlags: SdpFlags, rtp: FlowPair)

  /** BYE state of one leg of a merged call (`sMergeLegInfo`). */
  datatype MergeLegInfo = MergeLegInfo(seenbye: bool, seenbyeTimeUsec: u64)

  /** A slot of `rtp[MAX_SSRC_PER_CALL]`: empty, or a stream whose graph file is closed or open. */
  datatype RtpSlot = NoStream | Stream(graphClosed: bool)

  /** `by_dest` selects the direction record: false is 0, true is 1. */
  function Dir(byDest: bool): (d: nat)
    ensures d < 2
  {
    if byDest then 1 else 0
  }

  /**
   * What an RTP packet does to one direction record: the first packet with a
   * non-zero source records the flow's endpoints, every packet stamps the time.
   */
  function ProcessFlow(f: RtpFlow, saddr: u32, sport: u16, daddr: u32, dport: u16, time: int): (g: RtpFlow)
  {
    if f.saddr == 0 then RtpFlow(saddr, sport, daddr, dport, time) else f.(lastPacketTime := time)
  }

  lemma ProcessFlowMeaning(f: RtpFlow, saddr: u32, sport: u16, daddr: u32, dport: u16, time: int)
    ensures ProcessFlow(f, saddr, sport, daddr, dport, time).lastPacketTime == time
    ensures f.saddr != 0 ==> ProcessFlow(f, saddr, sport, daddr, dport, time).(lastPacketTime := 0) == f.(lastPacketTime := 0)
    ensures f.saddr == 0 ==> ProcessFlow(f, saddr, sport, daddr, dport, time) == RtpFlow(saddr, sport, daddr, dport, time)
  {
  }

  /** An RTP packet as `evProcessRtpStream` receives it. */
  datatype RtpPacket = RtpPacket(saddr: u32, sport: u16, daddr: u32, dport: u16, time: int)

  function ProcessFlowAll(f: RtpFlow, packets: seq<RtpPacket>): RtpFlow
    decreases |packets|
  {
    if packets == [] then f
    else
      var p := packets[0];
      ProcessFlowAll(ProcessFlow(f, p.saddr, p.sport, p.daddr, p.dport, p.time), packets[1..])
  }

  /**
   * The first recorded endpoints stick: once a direction has a non-zero source,
   * later packets only move its time stamp, which ends as the last packet's.
   */
  lemma {:induction false} RecordedFlowSticks(f: RtpFlow, packets: seq<RtpPacket>)
    requires f.saddr != 0
    ensures ProcessFlowAll(f, packets).(lastPacketTime := 0) == f.(lastPacketTime := 0)
    ensures packets != [] ==> ProcessFlowAll(f, packets).lastPacketTime == packets[|packets| - 1].time
    decreases |packets|
  {
    if packets != [] {
      var p := packets[0];
      var g := ProcessFlow(f, p.saddr, p.sport, p.daddr, p.dport, p.time);
      RecordedFlowSticks(g, packets[1..]);
      if |packets| > 1 {
        assert packets[1..][|packets[1..]| - 1] == packets[|packets| - 1];
      }
    }
  }

  /** A stream-end event for a direction that had media (the arguments of `evEndRtpStream`). */
  datatype RtpStreamEnd = RtpStreamEnd(indexIpPort: nat, flow: RtpFlow)

  /** The end events `evDestroyIpPortRtpStream` emits for one endpoint: each direction with a source, in order. */
  function EndEvents(index: nat, rtp: FlowPair): (evs: seq<RtpStreamEnd>)
    ensures |evs| <= 2
    ensures forall e :: e in evs ==> e.indexIpPort == index && e.flow in rtp && e.flow.saddr != 0
    ensures forall d :: 0 <= d < 2 && rtp[d].saddr != 0 ==> RtpStreamEnd(index, rtp[d]) in evs
  {
    (if rtp[0].saddr != 0 then [RtpStreamEnd(index, rtp[0])] else [])
    + (if rtp[1].saddr != 0 then [RtpStreamEnd(index, rtp[1])] else [])
  }

  /** The merge header option is set when its first character is not NUL. */
  predicate MergeHeaderSet(mergeHeader: seq<char>)
  {
    |mergeHeader| > 0 && mergeHeader[0] != NUL
  }

  /** The key `setSeenbye` writes under: the C string `call_id`, when it is present and non-empty. */
  function MergeLegKey(callId: Option<seq<char>>): (k: Option<seq<char>>)
    ensures k.Some? <==> callId.Some? && CStr(callId.value) != []
    ensures k.Some? ==> k.value == CStr(callId.value) && NUL !in k.value
  {
    if callId.Some? && CStr(callId.value) != [] then Some(CStr(callId.value)) else None
  }

  predicate LegDone(leg: MergeLegInfo)
  {
    leg.seenbye && leg.seenbyeTimeUsec != 0
  }

  class Call {
    // Call_abstract
    var callType: int
    var chunkBuffersCount: u16

    // timers and SIP state
    var destroyCallAt: int
    var lastPacketTime: int
    var seenbye: bool
    var seenbyeTimeUsec: u64
    var seenbyeandok: bool
    var lastSipResponseNum: int
    var endCall: int
    var inPreprocessQueue: int
    var inPreprocessQueueAt: u32

    var mergecalls: map<seq<char>, MergeLegInfo>

    // bounded per-call tables
    var ipPort: array<IpPortCallInfo>
    var ipportN: int
    var rtpmap: array2<int>
    var rtp: array<RtpSlot>

    // open state of the three pcap dumpers
    var pcapClosed: bool
    var pcapSipClosed: bool
    var pcapRtpClosed: bool

    ghost predicate Valid()
      reads this
    {
      && ipPort.Length == MAX_IP_PER_CALL
      && 0 <= ipportN <= MAX_IP_PER_CALL
      && rtpmap.Length0 == MAX_IP_PER_CALL && rtpmap.Length1 == MAX_RTPMAP
      && rtp.Length == MAX_SSRC_PER_CALL
    }

    ghost predicate RtpMapFilled(index: int)
      reads this, rtpmap
      requires Valid() && 0 <= index < MAX_IP_PER_CALL
    {
      exists k :: 0 <= k < MAX_RTPMAP && rtpmap[index, k] != 0
    }

    /** `set_last_packet_time`: the time only moves forward. */
    method SetLastPacketTime(mtime: int)
      modifies this`lastPacketTime
      ensures lastPacketTime == ForwardTime(old(lastPacketTime), mtime)
      ensures lastPacketTime >= old(lastPacketTime)
    {
      if mtime > lastPacketTime {
        lastPacketTime := mtime;
      }
    }

    /**
     * `shift_destroy_call_at`: for a set deadline, push it to the packet second
     * plus the window of the current protocol state, never backwards.
     */
    method ShiftDestroyCallAt(packetSec: int, responseNum: int, registerTimeout: int)
      modifies this`destroyCallAt
      ensures destroyCallAt == ShiftDeadline(old(destroyCallAt),
                packetSec + DestroyWindow(callType, seenbyeandok, seenbye, responseNum, lastSipResponseNum, registerTimeout))
      ensures old(destroyCallAt) <= 0 ==> destroyCallAt == old(destroyCallAt)
      ensures destroyCallAt >= old(destroyCallAt)
    {
      if destroyCallAt > 0 {
        var newDestroyCallAt :=
          if callType == REGISTER then packetSec + registerTimeout
          else if seenbyeandok then packetSec + 5
          else if seenbye then packetSec + 60
          else packetSec + (if responseNum == RES487 || lastSipResponseNum == RES487 then 15 else 5);
        if newDestroyCallAt > destroyCallAt {
          destroyCallAt := newDestroyCallAt;
        }
      }
    }

    /** `isEmptyChunkBuffersCount`. */
    method IsEmptyChunkBuffersCount() returns (empty: bool)
      ensures empty <==> chunkBuffersCount == 0
    {
      empty := chunkBuffersCount == 0;
    }

    method IncChunkBuffers()
      modifies this`chunkBuffersCount
      ensures chunkBuffersCount == IncChunk(old(chunkBuffersCount))
    {
      chunkBuffersCount := (chunkBuffersCount + 1) % 0x1_0000;
    }

    method DecChunkBuffers()
      modifies this`chunkBuffersCount
      ensures chunkBuffersCount == DecChunk(old(chunkBuffersCount))
    {
      chunkBuffersCount := (chunkBuffersCount - 1) % 0x1_0000;
    }

    /**
     * `setSeenbye`: the call-level BYE fields always change; the leg entry under
     * `call_id` is written, other legs untouched, only when merging is configured
     * and `call_id` is a non-empty string.
     */
    method SetSeenbye(newSeenbye: bool, timeUsec: u64, callId: Option<seq<char>>, mergeHeader: seq<char>)
      modifies this`seenbye, this`seenbyeTimeUsec, this`mergecalls
      ensures seenbye == newSeenbye && seenbyeTimeUsec == timeUsec
      ensures MergeHeaderSet(mergeHeader) && MergeLegKey(callId).Some?
              ==> mergecalls == old(mergecalls)[MergeLegKey(callId).value := MergeLegInfo(newSeenbye, timeUsec)]
      ensures !(MergeHeaderSet(mergeHeader) && MergeLegKey(callId).Some?) ==> mergecalls == old(mergecalls)
    {
      seenbye := newSeenbye;
      seenbyeTimeUsec := timeUsec;
      if mergeHeader != [] && mergeHeader[0] != NUL && callId.Some? && callId.value != [] && callId.value[0] != NUL {
        CStrEmptyIff(callId.value);
        var key := CStr(callId.value);
        mergecalls := mergecalls[key := MergeLegInfo(newSeenbye, timeUsec)];
      } else if callId.Some? {
        CStrEmptyIff(callId.value);
      }
    }

    /**
     * `getSeenbyeTimeUS`. With merging configured: 0 while any leg lacks BYE or
     * has time 0, otherwise the latest leg time (0 for no legs). Without it:
     * the call's own BYE time when BYE was seen, else 0.
     */
    method GetSeenbyeTimeUS(mergeHeader: seq<char>) returns (t: u64)
      ensures !MergeHeaderSet(mergeHeader) ==> t == (if seenbye then seenbyeTimeUsec else 0)
      ensures MergeHeaderSet(mergeHeader) && (exists k :: k in mergecalls && !LegDone(mergecalls[k])) ==> t == 0
      ensures MergeHeaderSet(mergeHeader) && (forall k :: k in mergecalls ==> LegDone(mergecalls[k])) ==>
                (forall k :: k in mergecalls ==> mergecalls[k].seenbyeTimeUsec <= t)
                && (mergecalls == map[] ==> t == 0)
                && (mergecalls != map[] ==> exists k :: k in mergecalls && mergecalls[k].seenbyeTimeUsec == t)
    {
      if mergeHeader != [] && mergeHeader[0] != NUL {
        var acc: u64 := 0;
        var todo := mergecalls.Keys;
        while todo != {}
          invariant todo <= mergecalls.Keys
          invariant forall k :: k in mergecalls.Keys - todo ==> LegDone(mergecalls[k]) && mergecalls[k].seenbyeTimeUsec <= acc
          invariant todo == mergecalls.Keys ==> acc == 0
          invariant todo != mergecalls.Keys ==> exists k :: k in mergecalls.Keys - todo && mergecalls[k].seenbyeTimeUsec == acc
          decreases todo
        {
          var k :| k in todo;
          var leg := mergecalls[k];
          if !leg.seenbye || leg.seenbyeTimeUsec == 0 {
            return 0;
          }
          if acc < leg.seenbyeTimeUsec {
            acc := leg.seenbyeTimeUsec;
          }
          todo := todo - {k};
        }
        return acc;
      }
      t := if seenbye then seenbyeTimeUsec else 0;
    }

    /**
     * `evProcessRtpStream`: for an endpoint index below `ipport_n`, record the
     * flow of direction `by_dest` if that direction has no source yet (reported
     * as `started`, the call of `evStartRtpStream`), and stamp its time.
     * Nothing else in the endpoint table changes.
     */
    method EvProcessRtpStream(index: nat, byDest: bool, saddr: u32, sport: u16, daddr: u32, dport: u16, time: int)
      returns (started: bool)
      requires Valid()
      modifies ipPort
      ensures index >= ipportN ==> !started && ipPort[..] == old(ipPort[..])
      ensures index < ipportN ==>
                started == (old(ipPort[index].rtp[Dir(byDest)].saddr) == 0)
                && ipPort[index] == old(ipPort[index]).(rtp :=
                     old(ipPort[index].rtp)[Dir(byDest) := ProcessFlow(old(ipPort[index].rtp[Dir(byDest)]), saddr, sport, daddr, dport, time)])
      ensures forall j :: 0 <= j < ipPort.Length && j != index ==> ipPort[j] == old(ipPort[j])
    {
      started := false;
      if index < ipportN {
        var d := Dir(byDest);
        var info := ipPort[index];
        var flow := info.rtp[d];
        if flow.saddr == 0 {
          flow := RtpFlow(saddr, sport, daddr, dport, flow.lastPacketTime);
          started := true;
        }
        flow := flow.(lastPacketTime := time);
        ipPort[index] := info.(rtp := info.rtp[d := flow]);
      }
    }

    /** `nullIpPortInfoRtpStream`: zero both direction records of one in-range endpoint. */
    method NullIpPortInfoRtpStream(index: nat)
      requires Valid()
      modifies ipPort
      ensures index < ipportN ==> ipPort[index] == old(ipPort[index]).(rtp := [NullFlow, NullFlow])
      ensures forall j :: 0 <= j < ipPort.Length && (j != index || index >= ipportN) ==> ipPort[j] == old(ipPort[j])
    {
      if index < ipportN {
        for i := 0 to 2
          invariant forall d :: 0 <= d < i ==> ipPort[index].rtp[d] == NullFlow
          invariant forall d :: i <= d < 2 ==> ipPort[index].rtp[d] == old(ipPort[index].rtp[d])
          invariant ipPort[index] == old(ipPort[index]).(rtp := ipPort[index].rtp)
          invariant forall j :: 0 <= j < ipPort.Length && j != index ==> ipPort[j] == old(ipPort[j])
        {
          var info := ipPort[index];
          ipPort[index] := info.(rtp := info.rtp[i := NullFlow]);
        }
        assert ipPort[index].rtp == [NullFlow, NullFlow];
      }
    }

    /**
     * `evDestroyIpPortRtpStream`: for an in-range endpoint, report an end event
     * for each direction that has a source, then null that endpoint.
     */
    method EvDestroyIpPortRtpStream(index: nat) returns (ended: seq<RtpStreamEnd>)
      requires Valid()
      modifies ipPort
      ensures index >= ipportN ==> ended == [] && ipPort[..] == old(ipPort[..])
      ensures index < ipportN ==> (ended == EndEvents(index, old(ipPort[index].rtp))
                                   && ipPort[index] == old(ipPort[index]).(rtp := [NullFlow, NullFlow]))
      ensures forall j :: 0 <= j < ipPort.Length && j != index ==> ipPort[j] == old(ipPort[j])
    {
      ended := [];
      if index < ipportN {
        var flows := ipPort[index].rtp;
        for i := 0 to 2
          invariant i == 0 ==> ended == []
          invariant i >= 1 ==> ended == (if flows[0].saddr != 0 then [RtpStreamEnd(index, flows[0])] else [])
                                         + (if i == 2 && flows[1].saddr != 0 then [RtpStreamEnd(index, flows[1])] else [])
        {
          if ipPort[index].rtp[i].saddr != 0 {
            ended := ended + [RtpStreamEnd(index, ipPort[index].rtp[i])];
          }
        }
        NullIpPortInfoRtpStream(index);
      }
    }

    /** `isFillRtpMap`: some rtpmap entry of the endpoint is non-zero. */
    method IsFillRtpMap(index: int) returns (filled: bool)
      requires Valid() && 0 <= index < MAX_IP_PER_CALL
      ensures filled <==> RtpMapFilled(index)
    {
      for i := 0 to MAX_RTPMAP
        invariant forall k :: 0 <= k < i ==> rtpmap[index, k] == 0
      {
        if rtpmap[index, i] != 0 {
          return true;
        }
      }
      return false;
    }

    /**
     * `getFillRtpMapByCallerd`: the highest endpoint index below `ipport_n`
     * on the given side whose rtpmap is filled, or -1 when there is none.
     */
    method GetFillRtpMapByCallerd(iscaller: bool) returns (r: int)
      requires Valid()
      ensures -1 <= r < ipportN
      ensures r >= 0 ==> ipPort[r].iscaller == iscaller && RtpMapFilled(r)
      ensures forall j :: r < j < ipportN ==> !(ipPort[j].iscaller == iscaller && RtpMapFilled(j))
    {
      var i := ipportN - 1;
      while i >= 0
        invariant -1 <= i < ipportN
        invariant forall j :: i < j < ipportN ==> !(ipPort[j].iscaller == iscaller && RtpMapFilled(j))
      {
        if ipPort[i].iscaller == iscaller {
          var filled := IsFillRtpMap(i);
          if filled {
            return i;
          }
        }
        i := i - 1;
      }
      return -1;
    }

    /** `isPcapsClose`. */
    method IsPcapsClose() returns (closed: bool)
      ensures closed <==> pcapClosed && pcapSipClosed && pcapRtpClosed
    {
      closed := pcapClosed && pcapSipClosed && pcapRtpClosed;
    }

    /** `isGraphsClose`: no present stream still has its graph file open. */
    method IsGraphsClose() returns (closed: bool)
      requires Valid()
      ensures closed <==> forall i :: 0 <= i < rtp.Length ==> (rtp[i].Stream? ==> rtp[i].graphClosed)
    {
      for i := 0 to MAX_SSRC_PER_CALL
        invariant forall k :: 0 <= k < i ==> (rtp[k].Stream? ==> rtp[k].graphClosed)
      {
        if rtp[i].Stream? && !rtp[i].graphClosed {
          return false;
        }
      }
      return true;
    }

    /**
     * `isReadyForWriteCdr`: the call may be finalized only when all three pcap
     * dumpers and every graph file are closed and no chunk buffer is in flight.
     */
    method IsReadyForWriteCdr() returns (ready: bool)
      requires Valid()
      ensures ready <==> (pcapClosed && pcapSipClosed && pcapRtpClosed
                          && (forall i :: 0 <= i < rtp.Length ==> (rtp[i].Stream? ==> rtp[i].graphClosed))
                          && chunkBuffersCount == 0)
    {
      var pcaps := IsPcapsClose();
      var graphs := IsGraphsClose();
      var empty := IsEmptyChunkBuffersCount();
      ready := pcaps && graphs && empty;
    }
  }
}
