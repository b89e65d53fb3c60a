/**
 * The packet-buffer pool `cHeaderPacketStack`. Released packets are collected
 * in ten fixed-size push pools; a full pool is handed, as a whole, to a
 * bounded backing queue of pools, which the single pop pool refills from.
 * Packets are objects whose identity is all that matters here, except for
 * the few bytes the pool resets.
 */
module HeaderPacketPool {
  import opened Common

  const POOL_SIZE: int := 100
  const PUSH_QUEUE_MAX: int := 10

  /** `sHeaderPacket`: the owning pool (NULL for a packet made by `CREATE_HP`) and the fields the pool touches. */
  class HeaderPacket {
    var stack: HeaderPacketStack?
    var packetAllocSize: u16
    var detectHeaders: bool
    var md5First: u16
    /** First byte of the pcap header and first byte of the packet data. */
    var headerFirstByte: u8
    var packetFirstByte: u8

    /** A freshly allocated packet; the header and data bytes are left as they were in memory. */
    constructor (stack: HeaderPacketStack?, allocSize: u16)
      ensures this.stack == stack && packetAllocSize == allocSize
      ensures !detectHeaders && md5First == 0
    {
      this.stack := stack;
      packetAllocSize := allocSize;
      detectHeaders := false;
      md5First := 0;
    }
  }

  /** A pool as handed to the backing queue: all its slots hold packets. */
  ghost predicate FullPool(p: seq<HeaderPacket?>)
  {
    |p| == POOL_SIZE && null !in p
  }

  /** The first `n` slots of row `i` of a two-dimensional array. */
  ghost function RowPrefix(a: array2<HeaderPacket?>, i: int, n: int): (r: seq<HeaderPacket?>)
    reads a
    requires 0 <= i < a.Length0 && 0 <= n <= a.Length1
    ensures |r| == n && forall k :: 0 <= k < n ==> r[k] == a[i, k]
    decreases n
  {
    if n == 0 then [] else RowPrefix(a, i, n - 1) + [a[i, n - 1]]
  }

  class HeaderPacketStack {
    var packetAllocSize: u16
    var popQueue: array<HeaderPacket?>
    var popQueueSize: int
    var pushQueues: array2<HeaderPacket?>
    var pushQueuesSize: array<int>
    /** The `rqueue_quick` of whole pools, front first, and how many pools it holds at most. */
    var backing: seq<seq<HeaderPacket?>>
    var backingCapacity: nat
    ghost var Repr: set<object>

    ghost predicate Valid()
      reads this, Repr
    {
      && Repr == {this, popQueue, pushQueues, pushQueuesSize}
      && popQueue.Length == POOL_SIZE
      && pushQueues.Length0 == PUSH_QUEUE_MAX && pushQueues.Length1 == POOL_SIZE
      && pushQueuesSize.Length == PUSH_QUEUE_MAX
      && 0 <= popQueueSize <= POOL_SIZE
      && (forall k :: POOL_SIZE - popQueueSize <= k < POOL_SIZE ==> popQueue[k] != null)
      && (forall i :: 0 <= i < PUSH_QUEUE_MAX ==> 0 <= pushQueuesSize[i] <= POOL_SIZE)
      && (forall i, k :: 0 <= i < PUSH_QUEUE_MAX && 0 <= k < pushQueuesSize[i] ==> pushQueues[i, k] != null)
      && |backing| <= backingCapacity
      && (forall j :: 0 <= j < |backing| ==> FullPool(backing[j]))
    }

    /** The pool arrays themselves are never replaced after construction. */
    twostate predicate SameArrays()
      reads this
    {
      popQueue == old(popQueue) && pushQueues == old(pushQueues) && pushQueuesSize == old(pushQueuesSize)
    }

    /** The packets waiting in push pool `i`, oldest first. */
    ghost function PushQueue(i: int): seq<HeaderPacket?>
      reads this, Repr
      requires Valid() && 0 <= i < PUSH_QUEUE_MAX
    {
      RowPrefix(pushQueues, i, pushQueuesSize[i])
    }

    /** The packets the pop pool still hands out, in the order it hands them out. */
    ghost function PopQueue(): seq<HeaderPacket?>
      reads this, Repr
      requires Valid()
    {
      popQueue[POOL_SIZE - popQueueSize..]
    }

    /** The constructor: all pools empty, room for `size_max / 100` pools in the backing queue. */
    constructor (sizeMax: u32, allocSize: u16)
      ensures Valid() && fresh(Repr)
      ensures packetAllocSize == allocSize
      ensures popQueueSize == 0 && backing == [] && backingCapacity == sizeMax / POOL_SIZE
      ensures forall i :: 0 <= i < PUSH_QUEUE_MAX ==> pushQueuesSize[i] == 0
    {
      packetAllocSize := allocSize;
      popQueue := new HeaderPacket?[POOL_SIZE](_ => null);
      popQueueSize := 0;
      pushQueues := new HeaderPacket?[PUSH_QUEUE_MAX, POOL_SIZE]((_, _) => null);
      pushQueuesSize := new int[PUSH_QUEUE_MAX](_ => 0);
      backing := [];
      backingCapacity := sizeMax / POOL_SIZE;
      Repr := {this, popQueue, pushQueues, pushQueuesSize};
    }

    /** The whole of push pool `i`, as the struct copy the backing queue receives. */
    method PoolSnapshot(i: int) returns (pool: seq<HeaderPacket?>)
      requires Valid() && 0 <= i < PUSH_QUEUE_MAX
      ensures |pool| == POOL_SIZE
      ensures forall k :: 0 <= k < POOL_SIZE ==> pool[k] == pushQueues[i, k]
    {
      pool := [];
      for k := 0 to POOL_SIZE
        invariant |pool| == k
        invariant forall m :: 0 <= m < k ==> pool[m] == pushQueues[i, m]
      {
        pool := pool + [pushQueues[i, k]];
      }
    }

    /**
     * `push`: 0 for NULL; 2 for a packet that belongs to no pool (it is freed);
     * otherwise reset its first header and data bytes and append it to pool
     * `i`, first handing a full pool to the backing queue. When the backing
     * queue refuses the pool, the packet is dropped with 2 and pool `i` stays
     * as it was. Only pool `i` and the backing queue ever change.
     */
    method Push(hp: HeaderPacket?, i: int) returns (rc: int)
      requires Valid() && 0 <= i < PUSH_QUEUE_MAX
      modifies Repr, {hp}`headerFirstByte, {hp}`packetFirstByte
      ensures Valid() && Repr == old(Repr) && SameArrays()
      ensures unchanged(popQueue) && popQueueSize == old(popQueueSize) && backingCapacity == old(backingCapacity)
      ensures packetAllocSize == old(packetAllocSize)
      ensures forall j, k :: 0 <= j < PUSH_QUEUE_MAX && j != i && 0 <= k < POOL_SIZE ==> pushQueues[j, k] == old(pushQueues[j, k])
      ensures forall j :: 0 <= j < PUSH_QUEUE_MAX && j != i ==> pushQueuesSize[j] == old(pushQueuesSize[j])
      ensures forall j :: 0 <= j < PUSH_QUEUE_MAX && j != i ==> PushQueue(j) == old(PushQueue(j))
      ensures PopQueue() == old(PopQueue())
      ensures rc in {0, 1, 2}
      ensures rc == 0 <==> hp == null
      ensures hp != null && old(hp.stack) == null ==> rc == 2 && unchanged(hp)
      ensures hp != null && old(hp.stack) != null && old(pushQueuesSize[i]) == POOL_SIZE && old(|backing|) >= backingCapacity
              ==> rc == 2
      ensures hp != null && old(hp.stack) != null ==>
                hp.headerFirstByte == 0 && hp.packetFirstByte == 0 && hp.stack == old(hp.stack)
      ensures rc != 1 ==> unchanged(pushQueues, pushQueuesSize) && backing == old(backing)
      ensures rc == 1 <==> hp != null && old(hp.stack) != null
                           && (old(pushQueuesSize[i]) < POOL_SIZE || old(|backing|) < backingCapacity)
      ensures rc == 1 && old(pushQueuesSize[i]) < POOL_SIZE ==>
                PushQueue(i) == old(PushQueue(i)) + [hp] && backing == old(backing)
      ensures rc == 1 && old(pushQueuesSize[i]) == POOL_SIZE ==>
                PushQueue(i) == [hp] && backing == old(backing) + [old(PushQueue(i))]
    {
      if hp == null {
        return 0;
      }
      if hp.stack == null {
        return 2;
      }
      hp.headerFirstByte := 0;
      hp.packetFirstByte := 0;
      if pushQueuesSize[i] == POOL_SIZE {
        var accepted := SpillPool(i);
        if !accepted {
          return 2;
        }
      }
      if pushQueuesSize[i] < POOL_SIZE {
        AppendPacket(hp, i);
      }
      return 1;
    }

    /** Hand the full pool `i` to the backing queue and empty it, unless the queue is full. */
    method SpillPool(i: int) returns (accepted: bool)
      requires Valid() && 0 <= i < PUSH_QUEUE_MAX && pushQueuesSize[i] == POOL_SIZE
      modifies this`backing, pushQueuesSize
      ensures Valid()
      ensures accepted == (old(|backing|) < backingCapacity)
      ensures accepted ==> backing == old(backing) + [old(PushQueue(i))] && pushQueuesSize[i] == 0
      ensures !accepted ==> backing == old(backing) && unchanged(pushQueuesSize)
      ensures forall j :: 0 <= j < PUSH_QUEUE_MAX && j != i ==> pushQueuesSize[j] == old(pushQueuesSize[j])
    {
      var pool := PoolSnapshot(i);
      assert pool == PushQueue(i);
      accepted := |backing| < backingCapacity;
      if accepted {
        backing := backing + [pool];
        pushQueuesSize[i] := 0;
      }
    }

    /** Store `hp` in the next free slot of pool `i`. */
    method AppendPacket(hp: HeaderPacket, i: int)
      requires Valid() && 0 <= i < PUSH_QUEUE_MAX && pushQueuesSize[i] < POOL_SIZE
      modifies pushQueues, pushQueuesSize
      ensures Valid()
      ensures PushQueue(i) == old(PushQueue(i)) + [hp]
      ensures forall j, k :: 0 <= j < PUSH_QUEUE_MAX && 0 <= k < POOL_SIZE && (j != i || k != old(pushQueuesSize[i]))
                ==> pushQueues[j, k] == old(pushQueues[j, k])
      ensures forall j :: 0 <= j < PUSH_QUEUE_MAX && j != i ==> pushQueuesSize[j] == old(pushQueuesSize[j])
    {
      pushQueues[i, pushQueuesSize[i]] := hp;
      pushQueuesSize[i] := pushQueuesSize[i] + 1;
    }

    /** `popq` copies a whole pool into the pop pool. */
    method LoadPopQueue(pool: seq<HeaderPacket?>)
      requires popQueue.Length == |pool|
      modifies popQueue
      ensures popQueue[..] == pool
    {
      for k := 0 to |pool|
        invariant forall m :: 0 <= m < k ==> popQueue[m] == pool[m]
      {
        popQueue[k] := pool[k];
      }
    }

    /**
     * `pop`: hand out the next packet of the pop pool (slots 0..99 in order);
     * when it is empty, refill it with the front pool of the backing queue and
     * hand out its slot 0 (rc 1 in both cases); with nothing to reuse,
     * allocate a packet owned by this pool (rc 2). The packet handed out has
     * header detection off and the first MD5 word zero.
     */
    method Pop() returns (rc: int, hp: HeaderPacket)
      requires Valid()
      modifies Repr, if popQueueSize > 0 then popQueue[POOL_SIZE - popQueueSize]
                     else if backing != [] then backing[0][0] else null
      ensures Valid() && Repr == old(Repr) && SameArrays()
      ensures unchanged(pushQueues, pushQueuesSize) && backingCapacity == old(backingCapacity)
      ensures packetAllocSize == old(packetAllocSize)
      ensures !hp.detectHeaders && hp.md5First == 0
      ensures old(popQueueSize) > 0 ==>
                rc == 1 && hp == old(PopQueue())[0] && PopQueue() == old(PopQueue())[1..] && backing == old(backing)
                && hp.stack == old(PopQueue()[0].stack) && hp.packetAllocSize == old(PopQueue()[0].packetAllocSize)
                && hp.headerFirstByte == old(PopQueue()[0].headerFirstByte) && hp.packetFirstByte == old(PopQueue()[0].packetFirstByte)
      ensures old(popQueueSize) == 0 && old(backing) != [] ==>
                rc == 1 && hp == old(backing[0][0]) && PopQueue() == old(backing[0])[1..]
                && hp.stack == old(backing[0][0].stack) && hp.packetAllocSize == old(backing[0][0].packetAllocSize)
                && hp.headerFirstByte == old(backing[0][0].headerFirstByte) && hp.packetFirstByte == old(backing[0][0].packetFirstByte)
                && popQueue[..] == old(backing[0]) && backing == old(backing[1..])
      ensures old(popQueueSize) == 0 && old(backing) == [] ==>
                rc == 2 && fresh(hp) && hp.stack == this && hp.packetAllocSize == old(packetAllocSize)
                && unchanged(popQueue) && popQueueSize == 0 && backing == []
    {
      if popQueueSize > 0 {
        hp := popQueue[POOL_SIZE - popQueueSize];
        popQueueSize := popQueueSize - 1;
      } else if backing != [] {
        var pool := backing[0];
        backing := backing[1..];
        LoadPopQueue(pool);
        hp := popQueue[0];
        popQueueSize := POOL_SIZE - 1;
      } else {
        hp := new HeaderPacket(this, packetAllocSize);
        return 2, hp;
      }
      hp.detectHeaders := false;
      hp.md5First := 0;
      rc := 1;
    }
  }

  /** `CREATE_HP`: a packet that belongs to no pool. */
  method CreateHp(allocSize: u16) returns (hp: HeaderPacket)
    ensures fresh(hp) && hp.stack == null && hp.packetAllocSize == allocSize
    ensures !hp.detectHeaders && hp.md5First == 0
  {
    hp := new HeaderPacket(null, allocSize);
  }

  /** `DESTROY_HP`: the packet is released and the caller's pointer is NULL afterwards. */
  method DestroyHp(hp: HeaderPacket?) returns (out: HeaderPacket?)
    ensures out == null
  {
    out := null;
  }

  /**
   * `PUSH_HP`: give the packet back to its owning pool when the index is
   * non-negative and the packet has an owner, otherwise release it; either
   * way the caller's pointer is NULL afterwards.
   */
  method PushHp(hp: HeaderPacket, index: int) returns (out: HeaderPacket?)
    requires index >= 0 && hp.stack != null ==> index < PUSH_QUEUE_MAX && hp.stack.Valid()
    modifies hp`headerFirstByte, hp`packetFirstByte, if index >= 0 && hp.stack != null then hp.stack.Repr else {}
    ensures out == null
    ensures hp.stack == old(hp.stack)
    ensures index < 0 || old(hp.stack) == null ==> unchanged(hp)
    ensures index >= 0 && hp.stack != null ==>
              var s := hp.stack;
              && s.Valid() && s.Repr == old(s.Repr) && s.SameArrays()
              && hp.headerFirstByte == 0 && hp.packetFirstByte == 0
              && s.PopQueue() == old(s.PopQueue()) && s.backingCapacity == old(s.backingCapacity)
              && s.packetAllocSize == old(s.packetAllocSize)
              && (forall j :: 0 <= j < PUSH_QUEUE_MAX && j != index ==> s.PushQueue(j) == old(s.PushQueue(j)))
              && (old(s.pushQueuesSize[index]) < POOL_SIZE ==>
                    s.PushQueue(index) == old(s.PushQueue(index)) + [hp] && s.backing == old(s.backing))
              && (old(s.pushQueuesSize[index]) == POOL_SIZE && old(|s.backing|) < s.backingCapacity ==>
                    s.PushQueue(index) == [hp] && s.backing == old(s.backing) + [old(s.PushQueue(index))])
              && (old(s.pushQueuesSize[index]) == POOL_SIZE && old(|s.backing|) >= s.backingCapacity ==>
                    s.PushQueue(index) == old(s.PushQueue(index)) && s.backing == old(s.backing))
  {
    if index >= 0 && hp.stack != null {
      var rc := hp.stack.Push(hp, index);
      out := null;
    } else {
      out := DestroyHp(hp);
    }
  }
}
