/**
 * The SS7 circuit-correlation entity `Ss7`: the symmetric circuit key built
 * from the parsed ISUP/MTP3/M3UA fields, and the call status, which is derived
 * from the milestone time stamps alone and never stored.
 */
module Ss7Model {
  import opened Common

  /** The "unset" marker of the parser's unsigned fields. */
  const UINT_MAX: int := 0xFFFF_FFFF
  /** ISUP cause 16, "normal call clearing". */
  const CAUSE_NORMAL_CLEARING: int := 16

  datatype MessageType = Iam | Acm | Cpg | Anm | Rel | Rlc

  /** The fields of `sParseData` the correlation reads. */
  datatype ParseData = ParseData(
    isupMessageType: u32,
    isupCic: u32,
    m3uaOpc: u32, m3uaDpc: u32,
    mtp3Opc: u32, mtp3Dpc: u32,
    isupCauseIndicator: u32,
    callingDigits: seq<char>, calledDigits: seq<char>)

  predicate IssetUnsigned(v: u32)
  {
    v != UINT_MAX
  }

  /** `isOk`: a circuit code and both point codes, each from M3UA or from MTP3. */
  function IsOk(d: ParseData): (ok: bool)
    ensures ok <==> IssetUnsigned(d.isupCic) && IssetUnsigned(Opc(d)) && IssetUnsigned(Dpc(d))
  {
    && IssetUnsigned(d.isupCic)
    && (IssetUnsigned(d.m3uaOpc) || IssetUnsigned(d.mtp3Opc))
    && (IssetUnsigned(d.m3uaDpc) || IssetUnsigned(d.mtp3Dpc))
  }

  /** The originating point code: the M3UA one when set, else the MTP3 one. */
  function Opc(d: ParseData): (p: u32)
    ensures p == d.m3uaOpc || p == d.mtp3Opc
    ensures IssetUnsigned(d.m3uaOpc) || IssetUnsigned(d.mtp3Opc) ==> IssetUnsigned(p)
  {
    if IssetUnsigned(d.m3uaOpc) then d.m3uaOpc else d.mtp3Opc
  }

  function Dpc(d: ParseData): (p: u32)
    ensures p == d.m3uaDpc || p == d.mtp3Dpc
    ensures IssetUnsigned(d.m3uaDpc) || IssetUnsigned(d.mtp3Dpc) ==> IssetUnsigned(p)
  {
    if IssetUnsigned(d.m3uaDpc) then d.m3uaDpc else d.mtp3Dpc
  }

  function DigitChar(n: nat): (c: char)
    requires n < 10
    ensures '0' <= c <= '9'
  {
    (('0' as int) + n) as char
  }

  /** Decimal rendering, the model of `intToString` on an unsigned value. */
  function NatToString(n: nat): (s: seq<char>)
    ensures |s| > 0
    ensures forall c :: c in s ==> '0' <= c <= '9'
    decreases n
  {
    if n < 10 then [DigitChar(n)] else NatToString(n / 10) + [DigitChar(n % 10)]
  }

  predicate AllDigits(s: seq<char>)
  {
    forall c :: c in s ==> '0' <= c <= '9'
  }

  function ParseDecimal(s: seq<char>): nat
    requires AllDigits(s)
    decreases |s|
  {
    if s == [] then 0
    else
      var init, last := s[..|s| - 1], s[|s| - 1];
      assert last in s && forall c :: c in init ==> c in s;
      ParseDecimal(init) * 10 + ((last as int) - ('0' as int))
  }

  lemma {:induction false} ParseNatToString(n: nat)
    ensures ParseDecimal(NatToString(n)) == n
    decreases n
  {
    var s := NatToString(n);
    if n >= 10 {
      ParseNatToString(n / 10);
      assert s[..|s| - 1] == NatToString(n / 10);
    }
  }

  /** Decimal rendering is injective, so a key string determines its numbers. */
  lemma NatToStringInjective(a: nat, b: nat)
    requires NatToString(a) == NatToString(b)
    ensures a == b
  {
    ParseNatToString(a);
    ParseNatToString(b);
  }

  /** `ss7_id`: "" unless `isOk`, else "cic-low-high" with the point codes ordered. */
  function Ss7Id(d: ParseData): (id: seq<char>)
    ensures id == [] <==> !IsOk(d)
  {
    if !IsOk(d) then ""
    else
      var opc := Opc(d);
      var dpc := Dpc(d);
      CircuitKey(d.isupCic, if opc <= dpc then opc else dpc, if opc <= dpc then dpc else opc)
  }

  function CircuitKey(cic: nat, low: nat, high: nat): seq<char>
  {
    NatToString(cic) + "-" + NatToString(low) + "-" + NatToString(high)
  }

  /** The same message seen from the other direction: originating and destination point codes swapped. */
  function SwapPoints(d: ParseData): ParseData
  {
    d.(m3uaOpc := d.m3uaDpc, m3uaDpc := d.m3uaOpc, mtp3Opc := d.mtp3Dpc, mtp3Dpc := d.mtp3Opc)
  }

  /** Both directions of a circuit get the same key. */
  lemma Ss7IdSymmetric(d: ParseData)
    ensures IsOk(SwapPoints(d)) == IsOk(d)
    ensures Ss7Id(SwapPoints(d)) == Ss7Id(d)
  {
    var e := SwapPoints(d);
    assert Opc(e) == Dpc(d) && Dpc(e) == Opc(d);
  }

  lemma SplitAtDash(a: seq<char>, b: seq<char>, c: seq<char>, e: seq<char>)
    requires '-' !in a && '-' !in c
    requires a + "-" + b == c + "-" + e
    ensures a == c && b == e
  {
    var s := a + "-" + b;
    assert s[|a|] == '-' && s[|c|] == '-';
    assert forall i :: 0 <= i < |c| ==> s[i] == c[i] && c[i] != '-';
    assert forall i :: 0 <= i < |a| ==> s[i] == a[i] && a[i] != '-';
    assert a == s[..|a|] == c;
    assert b == s[|a| + 1..] == e;
  }

  lemma NoDash(n: nat)
    ensures '-' !in NatToString(n)
  {
  }

  /** A circuit key determines the circuit code and the ordered point-code pair. */
  lemma CircuitKeyInjective(c1: nat, l1: nat, h1: nat, c2: nat, l2: nat, h2: nat)
    requires CircuitKey(c1, l1, h1) == CircuitKey(c2, l2, h2)
    ensures c1 == c2 && l1 == l2 && h1 == h2
  {
    NoDash(c1); NoDash(c2); NoDash(l1); NoDash(l2);
    var t1 := NatToString(l1) + "-" + NatToString(h1);
    var t2 := NatToString(l2) + "-" + NatToString(h2);
    assert CircuitKey(c1, l1, h1) == NatToString(c1) + "-" + t1;
    assert CircuitKey(c2, l2, h2) == NatToString(c2) + "-" + t2;
    SplitAtDash(NatToString(c1), t1, NatToString(c2), t2);
    SplitAtDash(NatToString(l1), NatToString(h1), NatToString(l2), NatToString(h2));
    NatToStringInjective(c1, c2);
    NatToStringInjective(l1, l2);
    NatToStringInjective(h1, h2);
  }

  /**
   * Two valid messages get the same key exactly when they name the same
   * circuit code and the same pair of point codes, in either order.
   */
  lemma Ss7IdSameCircuitIff(a: ParseData, b: ParseData)
    requires IsOk(a) && IsOk(b)
    ensures Ss7Id(a) == Ss7Id(b) <==>
              a.isupCic == b.isupCic
              && ((Opc(a) == Opc(b) && Dpc(a) == Dpc(b)) || (Opc(a) == Dpc(b) && Dpc(a) == Opc(b)))
  {
    if Ss7Id(a) == Ss7Id(b) {
      var oa, da, ob, db := Opc(a), Dpc(a), Opc(b), Dpc(b);
      CircuitKeyInjective(a.isupCic, if oa <= da then oa else da, if oa <= da then da else oa,
                          b.isupCic, if ob <= db then ob else db, if ob <= db then db else ob);
    }
  }

  datatype Ss7State = CallSetup | InCall | Completed | Rejected | Canceled

  /** The milestone time stamps of one circuit (`Ss7`); 0 means "not seen". */
  datatype Ss7 = Ss7(
    lastMessageType: MessageType,
    iamData: ParseData,
    iamSrcIp: u32, iamDstIp: u32,
    iamTimeUs: u64, acmTimeUs: u64, cpgTimeUs: u64,
    anmTimeUs: u64, relTimeUs: u64, rlcTimeUs: u64,
    lastTimeUs: u64,
    relCauseIndicator: u32)

  /** `Ss7::ss7_id` is the key of the initial address message. */
  function CircuitId(s: Ss7): (id: seq<char>)
    ensures id == [] <==> !IsOk(s.iamData)
  {
    Ss7Id(s.iamData)
  }

  /** `getState`, as a total function of the REL and ANM stamps and the release cause. */
  function GetState(s: Ss7): (st: Ss7State)
    ensures st == Completed <==> s.relTimeUs != 0 && s.anmTimeUs != 0
    ensures st == Canceled <==> s.relTimeUs != 0 && s.anmTimeUs == 0 && s.relCauseIndicator == CAUSE_NORMAL_CLEARING
    ensures st == Rejected <==> s.relTimeUs != 0 && s.anmTimeUs == 0 && s.relCauseIndicator != CAUSE_NORMAL_CLEARING
    ensures st == InCall <==> s.relTimeUs == 0 && s.anmTimeUs != 0
    ensures st == CallSetup <==> s.relTimeUs == 0 && s.anmTimeUs == 0
  {
    if s.relTimeUs != 0 then
      (if s.anmTimeUs != 0 then Completed
       else if s.relCauseIndicator == CAUSE_NORMAL_CLEARING then Canceled
       else Rejected)
    else if s.anmTimeUs != 0 then InCall
    else CallSetup
  }

  /** The status ignores the IAM, ACM, CPG and RLC stamps and everything else but REL, ANM and the cause. */
  lemma GetStateDependsOnlyOnRelAnmCause(s: Ss7, t: Ss7)
    requires (s.relTimeUs == 0) == (t.relTimeUs == 0)
    requires (s.anmTimeUs == 0) == (t.anmTimeUs == 0)
    requires s.relCauseIndicator == t.relCauseIndicator
    ensures GetState(s) == GetState(t)
  {
  }

  /** The order in which statuses can follow each other as more messages arrive. */
  predicate StateLeq(a: Ss7State, b: Ss7State)
  {
    a == b || a == CallSetup || b == Completed
  }

  /** `t` has seen every milestone `s` has, with the same release cause once REL is seen. */
  predicate Later(s: Ss7, t: Ss7)
  {
    && (s.iamTimeUs != 0 ==> t.iamTimeUs != 0)
    && (s.acmTimeUs != 0 ==> t.acmTimeUs != 0)
    && (s.cpgTimeUs != 0 ==> t.cpgTimeUs != 0)
    && (s.anmTimeUs != 0 ==> t.anmTimeUs != 0)
    && (s.relTimeUs != 0 ==> t.relTimeUs != 0 && t.relCauseIndicator == s.relCauseIndicator)
    && (s.rlcTimeUs != 0 ==> t.rlcTimeUs != 0)
  }

  /**
   * Messages arriving in any order only move the status forward: from
   * call_setup to anything, from in_call, rejected or canceled only to completed.
   */
  lemma GetStateProgresses(s: Ss7, t: Ss7)
    requires Later(s, t)
    ensures StateLeq(GetState(s), GetState(t))
  {
  }

  /** `getStateToString`. */
  function StateName(st: Ss7State): (name: seq<char>)
    ensures name != []
  {
    match st
    case CallSetup => "call_setup"
    case InCall => "in_call"
    case Completed => "completed"
    case Rejected => "rejected"
    case Canceled => "canceled"
  }

  lemma StateNameInjective(a: Ss7State, b: Ss7State)
    requires StateName(a) == StateName(b)
    ensures a == b
  {
  }
}
