/**
 * The IP:port endpoint hash table of `Calltable`: the bucket function
 * `tuplehash` and the chains it selects. A bucket is a chain of nodes, one per
 * (address, port) seen in that bucket, and each node holds the chain of call
 * bindings for that endpoint. Both chains are sequences here, in list order.
 */
module EndpointHash {
  import opened Common
  import opened CallModel

  /** Number of buckets (`MAXNODE`). */
  const MAXNODE: int := 150000

  /**
   * `tuplehash`: the 32-bit `addr * port`, mixed by shifts, complements,
   * additions and xors that all wrap modulo 2^32, reduced modulo `MAXNODE`.
   */
  function TupleHash(addr: u32, port: u16): (h: nat)
    ensures h < MAXNODE
  {
    var key: bv32 := ((addr * port) % 0x1_0000_0000) as bv32;
    var k1 := key + !(key << 15);
    var k2 := k1 ^ (k1 >> 10);
    var k3 := k2 + (k2 << 3);
    var k4 := k3 ^ (k3 >> 6);
    var k5 := k4 + !(k4 << 11);
    var k6 := k5 ^ (k5 >> 16);
    (k6 as int) % MAXNODE
  }

  /** One binding of a call to an endpoint (`hash_node_call`). */
  datatype HashNodeCall = HashNodeCall(call: Call, iscaller: int, isRtcp: u16, sdpFlags: SdpFlags)

  /** One endpoint in a bucket with its bindings (`hash_node`); no bindings stands for a NULL list. */
  datatype HashNode = HashNode(addr: u32, port: u16, calls: seq<HashNodeCall>)

  predicate NodeMatches(n: HashNode, addr: u32, port: u16)
  {
    n.addr == addr && n.port == port
  }

  /** The position of the last node of the chain for (addr, port), or -1 when there is none. */
  function LastMatch(chain: seq<HashNode>, addr: u32, port: u16): (j: int)
    ensures -1 <= j < |chain|
    ensures j >= 0 ==> NodeMatches(chain[j], addr, port)
    ensures forall k :: j < k < |chain| ==> !NodeMatches(chain[k], addr, port)
    decreases |chain|
  {
    if chain == [] then -1
    else if NodeMatches(chain[|chain| - 1], addr, port) then |chain| - 1
    else LastMatch(chain[..|chain| - 1], addr, port)
  }

  /** The bindings the bucket walk yields: those of the last matching node, none when no node matches. */
  function ChainLookup(chain: seq<HashNode>, addr: u32, port: u16): (calls: seq<HashNodeCall>)
  {
    var j := LastMatch(chain, addr, port);
    if j < 0 then [] else chain[j].calls
  }

  /** A lookup finds nothing when no node carries the endpoint. */
  lemma ChainLookupMiss(chain: seq<HashNode>, addr: u32, port: u16)
    requires forall k :: 0 <= k < |chain| ==> !NodeMatches(chain[k], addr, port)
    ensures ChainLookup(chain, addr, port) == []
  {
  }

  /**
   * With one node per endpoint in a chain, the lookup yields exactly that
   * node's bindings, wherever it stands.
   */
  lemma ChainLookupUnique(chain: seq<HashNode>, addr: u32, port: u16, j: nat)
    requires j < |chain| && NodeMatches(chain[j], addr, port)
    requires forall k :: 0 <= k < |chain| && k != j ==> !NodeMatches(chain[k], addr, port)
    ensures ChainLookup(chain, addr, port) == chain[j].calls
  {
  }

  /** Nodes for other endpoints appended to a chain do not change what the lookup yields. */
  lemma {:induction false} ChainLookupIgnoresOthers(chain: seq<HashNode>, more: seq<HashNode>, addr: u32, port: u16)
    requires forall k :: 0 <= k < |more| ==> !NodeMatches(more[k], addr, port)
    ensures ChainLookup(chain + more, addr, port) == ChainLookup(chain, addr, port)
    decreases |more|
  {
    if more != [] {
      var shorter := more[..|more| - 1];
      assert (chain + more)[..|chain + more| - 1] == chain + shorter;
      assert (chain + more)[|chain + more| - 1] == more[|more| - 1];
      assert LastMatch(chain + more, addr, port) == LastMatch(chain + shorter, addr, port);
      ChainLookupIgnoresOthers(chain, shorter, addr, port);
    } else {
      assert chain + more == chain;
    }
  }
}
