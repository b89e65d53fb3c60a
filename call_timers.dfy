/**
 * The pure policies behind a call's timers and counters: the destroy-deadline
 * extension of `Call::shift_destroy_call_at`, the forward-only last-packet
 * time, and the 16-bit chunk-buffer counter of `Call_abstract`.
 */
module CallTimers {
  import opened Common
  import opened SipMethods

  /**
   * The window added to the packet's second: the registration timeout for a
   * REGISTER, 5 s once BYE has been answered, 60 s for a BYE alone, 15 s when
   * either the passed or the stored last response is 487, and 5 s otherwise.
   */
  function DestroyWindow(callType: int, seenbyeandok: bool, seenbye: bool,
                         responseNum: int, storedResponseNum: int,
                         registerTimeout: int): (w: int)
    ensures callType == REGISTER ==> w == registerTimeout
    ensures callType != REGISTER ==> (w == 60 <==> seenbye && !seenbyeandok)
    ensures callType != REGISTER ==>
              (w == 15 <==> !seenbyeandok && !seenbye && (responseNum == RES487 || storedResponseNum == RES487))
  {
    if callType == REGISTER then registerTimeout
    else if seenbyeandok then 5
    else if seenbye then 60
    else if responseNum == RES487 || storedResponseNum == RES487 then 15
    else 5
  }

  /** The deadline after one extension attempt with candidate `candidate`. */
  function ShiftDeadline(deadline: int, candidate: int): (d: int)
    ensures deadline <= 0 ==> d == deadline
    ensures deadline > 0 ==> d == Max(deadline, candidate)
  {
    if deadline > 0 && candidate > deadline then candidate else deadline
  }

  /** A call deadline that is not REGISTER is always extended by 5, 15 or 60 seconds. */
  lemma CallWindowChoices(callType: int, byeOk: bool, bye: bool, resp: int, stored: int, regTimeout: int)
    requires callType != REGISTER
    ensures DestroyWindow(callType, byeOk, bye, resp, stored, regTimeout) in {5, 15, 60}
  {
  }

  /** The deadline after a run of extension attempts, oldest first. */
  function ShiftAll(deadline: int, candidates: seq<int>): int
    decreases |candidates|
  {
    if candidates == [] then deadline
    else ShiftAll(ShiftDeadline(deadline, candidates[0]), candidates[1..])
  }

  /**
   * Over any run of events the deadline never moves back; an unset (zero)
   * deadline stays unset; a set one ends at or past every candidate seen.
   */
  lemma {:induction false} ShiftAllMonotone(deadline: int, candidates: seq<int>)
    ensures ShiftAll(deadline, candidates) >= deadline
    ensures deadline <= 0 ==> ShiftAll(deadline, candidates) == deadline
    ensures deadline > 0 ==> forall k :: 0 <= k < |candidates| ==> ShiftAll(deadline, candidates) >= candidates[k]
    decreases |candidates|
  {
    if candidates != [] {
      var next := ShiftDeadline(deadline, candidates[0]);
      ShiftAllMonotone(next, candidates[1..]);
      assert forall k :: 1 <= k < |candidates| ==> candidates[k] == candidates[1..][k - 1];
    }
  }

  /** Replaying a run of events twice gives the same deadline as replaying it once. */
  lemma {:induction false} ShiftAllIdempotent(deadline: int, candidates: seq<int>)
    ensures ShiftAll(ShiftAll(deadline, candidates), candidates) == ShiftAll(deadline, candidates)
  {
    var d := ShiftAll(deadline, candidates);
    ShiftAllMonotone(deadline, candidates);
    ShiftAllAbsorbs(d, candidates);
  }

  /** A deadline already at or past every candidate is left where it is. */
  lemma {:induction false} ShiftAllAbsorbs(deadline: int, candidates: seq<int>)
    requires deadline <= 0 || forall k :: 0 <= k < |candidates| ==> candidates[k] <= deadline
    ensures ShiftAll(deadline, candidates) == deadline
    decreases |candidates|
  {
    if candidates != [] {
      assert ShiftDeadline(deadline, candidates[0]) == deadline;
      assert forall k :: 0 <= k < |candidates[1..]| ==> candidates[1..][k] == candidates[k + 1];
      ShiftAllAbsorbs(deadline, candidates[1..]);
    }
  }

  /**
   * A confirmed teardown does not pull back a deadline that a BYE pushed out:
   * once BYE at second `tBye` has set the deadline to at least `tBye + 60`,
   * the 5-second window of a BYE-OK at `tOk < tBye + 55` changes nothing.
   */
  lemma ConfirmedByeKeepsByeWindow(deadline: int, tBye: int, tOk: int, callType: int, resp: int, stored: int, regTimeout: int)
    requires callType != REGISTER
    requires deadline > 0
    requires tOk < tBye + 55
    ensures var afterBye := ShiftDeadline(deadline, tBye + DestroyWindow(callType, false, true, resp, stored, regTimeout));
            ShiftDeadline(afterBye, tOk + DestroyWindow(callType, true, true, resp, stored, regTimeout)) == afterBye
            && afterBye >= tBye + 60
  {
  }

  /** The forward-only update of `set_last_packet_time`. */
  function ForwardTime(last: int, mtime: int): (t: int)
    ensures t >= last && t >= mtime
    ensures t == last || t == mtime
  {
    if mtime > last then mtime else last
  }

  /** `__sync_add_and_fetch` / `__sync_sub_and_fetch` on a `u_int16_t`: both wrap modulo 2^16. */
  function IncChunk(c: u16): u16 { (c + 1) % 0x1_0000 }
  function DecChunk(c: u16): u16 { (c - 1) % 0x1_0000 }

  datatype ChunkOp = Inc | Dec

  function ApplyChunkOps(c: u16, ops: seq<ChunkOp>): u16
    decreases |ops|
  {
    if ops == [] then c
    else ApplyChunkOps(if ops[0] == Inc then IncChunk(c) else DecChunk(c), ops[1..])
  }

  function CountOps(ops: seq<ChunkOp>, op: ChunkOp): nat
  {
    if ops == [] then 0 else (if ops[0] == op then 1 else 0) + CountOps(ops[1..], op)
  }

  /** The counter after any interleaving is the start value plus increments minus decrements, modulo 2^16. */
  lemma {:induction false} ApplyChunkOpsCount(c: u16, ops: seq<ChunkOp>)
    ensures ApplyChunkOps(c, ops) == (c + CountOps(ops, Inc) - CountOps(ops, Dec)) % 0x1_0000
    decreases |ops|
  {
    if ops != [] {
      var c' := if ops[0] == Inc then IncChunk(c) else DecChunk(c);
      ApplyChunkOpsCount(c', ops[1..]);
      var k := CountOps(ops[1..], Inc) - CountOps(ops[1..], Dec);
      ModShift(if ops[0] == Inc then c + 1 else c - 1, k);
    }
  }

  lemma ModShift(a: int, k: int)
    ensures (a % 0x1_0000 + k) % 0x1_0000 == (a + k) % 0x1_0000
  {
    var q := a / 0x1_0000;
    assert a == q * 0x1_0000 + a % 0x1_0000;
    assert a + k == (a % 0x1_0000 + k) + q * 0x1_0000;
  }

  /** Balanced work (one decrement per increment) brings the counter back to where it started. */
  lemma BalancedChunkOpsRestore(c: u16, ops: seq<ChunkOp>)
    requires CountOps(ops, Inc) == CountOps(ops, Dec)
    ensures ApplyChunkOps(c, ops) == c
  {
    ApplyChunkOpsCount(c, ops);
  }
}
