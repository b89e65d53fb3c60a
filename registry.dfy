/**
 * The session registry `Calltable`, reduced to its lookup paths: the three
 * identifier indexes (calls, merge aliases, registrations), the SS7 circuit
 * index, and the walks of the endpoint hash table. Locks are left out; each
 * method is one critical section run by a single thread.
 */
module Registry {
  import opened Common
  import opened CallModel
  import opened EndpointHash
  import opened Ss7Model

  /**
   * The key that `string(call_id, call_id_len)` or `string(call_id)` builds:
   * exactly `len` characters when a length is given, else the C string.
   */
  function CallIdKey(callId: seq<char>, len: nat): (key: seq<char>)
    requires len <= |callId|
    ensures key <= callId
    ensures len != 0 ==> |key| == len
    ensures len == 0 ==> NUL !in key
    ensures len == 0 ==> key == callId || callId[|key|] == NUL
  {
    if len != 0 then callId[..len] else CStr(callId)
  }

  class Calltable {
    var callsListMap: map<seq<char>, Call>
    var callsMergeMap: map<seq<char>, Call>
    var registersListMap: map<seq<char>, Call>
    var ss7ListMap: map<seq<char>, Ss7>
    var callsHash: array<seq<HashNode>>

    ghost predicate Valid()
      reads this
    {
      callsHash.Length == MAXNODE
    }

    /**
     * `find_by_call_id` and `find_by_mergecall_id` share this body: a call is
     * returned only when the key is present and the call's `end_call` is 0,
     * and only such a hit with a non-zero `time` bumps its in-flight counter
     * and records `time` truncated to 32 bits.
     */
    static method FindLive(index: map<seq<char>, Call>, key: seq<char>, time: int) returns (r: Call?)
      modifies index.Values`inPreprocessQueue, index.Values`inPreprocessQueueAt
      ensures r != null <==> key in index && index[key].endCall == 0
      ensures r != null ==> r == index[key]
      ensures r != null && time != 0 ==>
                r.inPreprocessQueue == old(r.inPreprocessQueue) + 1
                && r.inPreprocessQueueAt == time % 0x1_0000_0000
      ensures forall c :: c in index.Values && (c != r || time == 0) ==>
                c.inPreprocessQueue == old(c.inPreprocessQueue) && c.inPreprocessQueueAt == old(c.inPreprocessQueueAt)
    {
      r := null;
      if key in index && index[key].endCall == 0 {
        r := index[key];
        if time != 0 {
          r.inPreprocessQueue := r.inPreprocessQueue + 1;
          r.inPreprocessQueueAt := time % 0x1_0000_0000;
        }
      }
    }

    method FindByCallId(callId: seq<char>, callIdLen: nat, time: int) returns (r: Call?)
      requires callIdLen <= |callId|
      modifies callsListMap.Values`inPreprocessQueue, callsListMap.Values`inPreprocessQueueAt
      ensures var key := CallIdKey(callId, callIdLen);
              (r != null <==> key in callsListMap && callsListMap[key].endCall == 0)
              && (r != null ==> r == callsListMap[key])
      ensures r != null && time != 0 ==>
                r.inPreprocessQueue == old(r.inPreprocessQueue) + 1
                && r.inPreprocessQueueAt == time % 0x1_0000_0000
      ensures forall c :: c in callsListMap.Values && (c != r || time == 0) ==>
                c.inPreprocessQueue == old(c.inPreprocessQueue) && c.inPreprocessQueueAt == old(c.inPreprocessQueueAt)
    {
      r := FindLive(callsListMap, CallIdKey(callId, callIdLen), time);
    }

    method FindByMergecallId(callId: seq<char>, callIdLen: nat, time: int) returns (r: Call?)
      requires callIdLen <= |callId|
      modifies callsMergeMap.Values`inPreprocessQueue, callsMergeMap.Values`inPreprocessQueueAt
      ensures var key := CallIdKey(callId, callIdLen);
              (r != null <==> key in callsMergeMap && callsMergeMap[key].endCall == 0)
              && (r != null ==> r == callsMergeMap[key])
      ensures r != null && time != 0 ==>
                r.inPreprocessQueue == old(r.inPreprocessQueue) + 1
                && r.inPreprocessQueueAt == time % 0x1_0000_0000
      ensures forall c :: c in callsMergeMap.Values && (c != r || time == 0) ==>
                c.inPreprocessQueue == old(c.inPreprocessQueue) && c.inPreprocessQueueAt == old(c.inPreprocessQueueAt)
    {
      r := FindLive(callsMergeMap, CallIdKey(callId, callIdLen), time);
    }

    /** `find_by_register_id`: the same visibility rule, with no counter. */
    method FindByRegisterId(registerId: seq<char>, registerIdLen: nat) returns (r: Call?)
      requires registerIdLen <= |registerId|
      ensures var key := CallIdKey(registerId, registerIdLen);
              (r != null <==> key in registersListMap && registersListMap[key].endCall == 0)
              && (r != null ==> r == registersListMap[key])
    {
      var key := CallIdKey(registerId, registerIdLen);
      r := null;
      if key in registersListMap && registersListMap[key].endCall == 0 {
        r := registersListMap[key];
      }
    }

    /** `find_by_ss7_id`: a plain lookup; circuits have no `end_call` to hide them. */
    method FindBySs7Id(ss7Id: seq<char>) returns (r: Option<Ss7>)
      ensures r.Some? <==> ss7Id in ss7ListMap
      ensures r.Some? ==> r.value == ss7ListMap[ss7Id]
    {
      r := None;
      if ss7Id in ss7ListMap {
        r := Some(ss7ListMap[ss7Id]);
      }
    }

    /**
     * `hashfind_by_ip_port`: walk the whole bucket of (addr, port) and keep the
     * bindings of every matching node, so the last matching node wins.
     */
    method HashfindByIpPort(addr: u32, port: u16) returns (calls: seq<HashNodeCall>)
      requires Valid()
      ensures calls == ChainLookup(callsHash[TupleHash(addr, port)], addr, port)
    {
      var chain := callsHash[TupleHash(addr, port)];
      calls := [];
      var i := 0;
      while i < |chain|
        invariant 0 <= i <= |chain|
        invariant calls == ChainLookup(chain[..i], addr, port)
      {
        assert chain[..i + 1][..i] == chain[..i];
        if chain[i].addr == addr && chain[i].port == port {
          calls := chain[i].calls;
        }
        i := i + 1;
      }
      assert chain[..i] == chain;
    }

    /** `check_call_in_hashfind_by_ip_port`: whether `call` is bound in the chain the lookup yields. */
    method CheckCallInHashfindByIpPort(call: Call, addr: u32, port: u16) returns (found: bool)
      requires Valid()
      ensures var chain := ChainLookup(callsHash[TupleHash(addr, port)], addr, port);
              found <==> exists k :: 0 <= k < |chain| && chain[k].call == call
    {
      var calls := HashfindByIpPort(addr, port);
      found := false;
      var i := 0;
      while i < |calls|
        invariant 0 <= i <= |calls|
        invariant forall k :: 0 <= k < i ==> calls[k].call != call
      {
        if calls[i].call == call {
          found := true;
          break;
        }
        i := i + 1;
      }
    }
  }
}
