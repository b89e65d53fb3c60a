/**
 * `set_global_flags`: the capture flags a call starts with, composed from the
 * global save options by a run of conditional ORs into a 64-bit word.
 * A flags word is modelled as the set of its set bit positions (each below
 * 64), so `flags |= FLAG_X` is a union and `flags & FLAG_X` a membership test.
 * The DTMF, OPTIONS, NOTIFY and SUBSCRIBE flags and the OGG format code are
 * defined outside the modelled files; they are passed in as `ExternalConstants`.
 */
module CaptureFlags {

  type BitIndex = i: nat | i < 64

  /** A value of the `unsigned long` flags word, as the positions of its one bits. */
  type FlagWord = set<BitIndex>

  const SAVERTP: BitIndex := 0
  const SAVERTCP: BitIndex := 1
  const SAVESIP: BitIndex := 2
  const SAVEREGISTER: BitIndex := 3
  const SAVEAUDIO: BitIndex := 4
  const FORMATAUDIO_WAV: BitIndex := 5
  const FORMATAUDIO_OGG: BitIndex := 6
  const SAVEGRAPH: BitIndex := 7
  const SAVERTPHEADER: BitIndex := 8
  const SKIPCDR: BitIndex := 9
  const RUNSCRIPT: BitIndex := 10
  const RUNAMOSLQO: BitIndex := 11
  const RUNBMOSLQO: BitIndex := 12
  const HIDEMESSAGE: BitIndex := 13
  const USE_SPOOL_2: BitIndex := 14

  /** `FLAG_SAVEAUDIO_WAV` and `FLAG_SAVEAUDIO_OGG` are two-bit masks. */
  const FLAG_SAVEAUDIO_WAV: FlagWord := {SAVEAUDIO, FORMATAUDIO_WAV}
  const FLAG_SAVEAUDIO_OGG: FlagWord := {SAVEAUDIO, FORMATAUDIO_OGG}

  /** Whether a bit position is one of the flags defined next to the call table. */
  predicate IsKnownBit(b: BitIndex)
  {
    b <= USE_SPOOL_2
  }

  /** The bit positions of the flags the modelled files use but do not define, and the OGG format code. */
  datatype ExternalConstants = ExternalConstants(
    saveDtmfDb: BitIndex, saveDtmfPcap: BitIndex,
    saveOptionsDb: BitIndex, saveOptionsPcap: BitIndex,
    saveNotifyDb: BitIndex, saveNotifyPcap: BitIndex,
    saveSubscribeDb: BitIndex, saveSubscribePcap: BitIndex,
    formatOgg: int)

  /** The external flags, in the order `set_global_flags` tests them. */
  function ExternalBits(ext: ExternalConstants): (bs: seq<BitIndex>)
    ensures |bs| == 8
  {
    [ext.saveDtmfDb, ext.saveDtmfPcap, ext.saveOptionsDb, ext.saveOptionsPcap,
     ext.saveNotifyDb, ext.saveNotifyPcap, ext.saveSubscribeDb, ext.saveSubscribePcap]
  }

  /** The external flags are distinct from each other and from the known ones. */
  predicate DistinctBits(ext: ExternalConstants)
  {
    var bs := ExternalBits(ext);
    && (forall i :: 0 <= i < |bs| ==> !IsKnownBit(bs[i]))
    && (forall i, j :: 0 <= i < j < |bs| ==> bs[i] != bs[j])
  }

  /** The global options `set_global_flags` reads. */
  datatype Options = Options(
    saveSip: int, saveRtp: int, onlyRtpHeader: int, saveRtcp: int,
    saveWav: int, audioFormat: int, saveGraph: int, skipDefault: int,
    hideMessageContent: int, sipRegisterSaveAll: bool,
    dbDtmf: int, pcapDtmf: int,
    sipOptions: int, sipSubscribe: int, sipNotify: int,
    saveSipOptions: int, saveSipSubscribe: int, saveSipNotify: int)

  /** Every option off. */
  predicate AllOff(o: Options)
  {
    && o.saveSip == 0 && o.saveRtp == 0 && o.onlyRtpHeader == 0 && o.saveRtcp == 0
    && o.saveWav == 0 && o.saveGraph == 0 && o.skipDefault == 0
    && o.hideMessageContent == 0 && !o.sipRegisterSaveAll
    && o.dbDtmf == 0 && o.pcapDtmf == 0
    && o.sipOptions == 0 && o.sipSubscribe == 0 && o.sipNotify == 0
  }

  function When(cond: bool, m: FlagWord): FlagWord
  {
    if cond then m else {}
  }

  /** The audio mask `set_global_flags` picks for the configured format. */
  function AudioMask(o: Options, ext: ExternalConstants): FlagWord
  {
    if o.audioFormat == ext.formatOgg then FLAG_SAVEAUDIO_OGG else FLAG_SAVEAUDIO_WAV
  }

  /** The stream flags: SIP, RTP, RTP headers only, RTCP. */
  function StreamBits(o: Options): FlagWord
  {
    When(o.saveSip != 0, {SAVESIP})
    + When(o.saveRtp != 0, {SAVERTP})
    + When(o.onlyRtpHeader != 0, {SAVERTPHEADER})
    + When(o.saveRtcp != 0, {SAVERTCP})
  }

  /** The audio, graph, CDR, message-hiding and REGISTER flags. */
  function AudioAndCdrBits(o: Options, ext: ExternalConstants): FlagWord
  {
    When(o.saveWav != 0, AudioMask(o, ext))
    + When(o.saveGraph != 0, {SAVEGRAPH})
    + When(o.skipDefault != 0, {SKIPCDR})
    + When(o.hideMessageContent != 0, {HIDEMESSAGE})
    + When(o.sipRegisterSaveAll, {SAVEREGISTER})
  }

  /**
   * The DTMF and OPTIONS flags. The OPTIONS DB flag needs the option to be
   * exactly 1, the PCAP flag needs it and `opt_save_sip_options` non-zero.
   */
  function DtmfAndOptionsBits(o: Options, ext: ExternalConstants): FlagWord
  {
    When(o.dbDtmf != 0, {ext.saveDtmfDb})
    + When(o.pcapDtmf != 0, {ext.saveDtmfPcap})
    + When(o.sipOptions == 1, {ext.saveOptionsDb})
    + When(o.sipOptions != 0 && o.saveSipOptions != 0, {ext.saveOptionsPcap})
  }

  /** The NOTIFY and SUBSCRIBE flags, under the same rule as OPTIONS. */
  function NotifyAndSubscribeBits(o: Options, ext: ExternalConstants): FlagWord
  {
    When(o.sipNotify == 1, {ext.saveNotifyDb})
    + When(o.sipNotify != 0 && o.saveSipNotify != 0, {ext.saveNotifyPcap})
    + When(o.sipSubscribe == 1, {ext.saveSubscribeDb})
    + When(o.sipSubscribe != 0 && o.saveSipSubscribe != 0, {ext.saveSubscribePcap})
  }

  /** The bits the options ask for, in the order `set_global_flags` ORs them in. */
  function Requested(o: Options, ext: ExternalConstants): FlagWord
  {
    StreamBits(o) + AudioAndCdrBits(o, ext) + DtmfAndOptionsBits(o, ext) + NotifyAndSubscribeBits(o, ext)
  }

  /**
   * The same composition read one bit at a time: bit `b` is asked for when it
   * is the flag of an option that is on.
   */
  predicate Asked(o: Options, ext: ExternalConstants, b: BitIndex)
  {
    || (b == SAVESIP && o.saveSip != 0)
    || (b == SAVERTP && o.saveRtp != 0)
    || (b == SAVERTPHEADER && o.onlyRtpHeader != 0)
    || (b == SAVERTCP && o.saveRtcp != 0)
    || (b == SAVEAUDIO && o.saveWav != 0)
    || (b == FORMATAUDIO_OGG && o.saveWav != 0 && o.audioFormat == ext.formatOgg)
    || (b == FORMATAUDIO_WAV && o.saveWav != 0 && o.audioFormat != ext.formatOgg)
    || (b == SAVEGRAPH && o.saveGraph != 0)
    || (b == SKIPCDR && o.skipDefault != 0)
    || (b == HIDEMESSAGE && o.hideMessageContent != 0)
    || (b == SAVEREGISTER && o.sipRegisterSaveAll)
    || (b == ext.saveDtmfDb && o.dbDtmf != 0)
    || (b == ext.saveDtmfPcap && o.pcapDtmf != 0)
    || (b == ext.saveOptionsDb && o.sipOptions == 1)
    || (b == ext.saveOptionsPcap && o.sipOptions != 0 && o.saveSipOptions != 0)
    || (b == ext.saveNotifyDb && o.sipNotify == 1)
    || (b == ext.saveNotifyPcap && o.sipNotify != 0 && o.saveSipNotify != 0)
    || (b == ext.saveSubscribeDb && o.sipSubscribe == 1)
    || (b == ext.saveSubscribePcap && o.sipSubscribe != 0 && o.saveSipSubscribe != 0)
  }

  /**
   * `set_global_flags`: OR into `flags` the flag of every option that is on,
   * in the source's order, four groups of conditional ORs one after the other.
   * No bit is ever cleared.
   */
  method SetGlobalFlags(flags: FlagWord, o: Options, ext: ExternalConstants) returns (r: FlagWord)
    ensures r == flags + Requested(o, ext)
    ensures flags <= r
  {
    r := OrStreamFlags(flags, o);
    r := OrAudioAndCdrFlags(r, o, ext);
    r := OrDtmfAndOptionsFlags(r, o, ext);
    r := OrNotifyAndSubscribeFlags(r, o, ext);
  }

  /** The conditional ORs of the stream flags. */
  method OrStreamFlags(flags: FlagWord, o: Options) returns (r: FlagWord)
    ensures r == flags + StreamBits(o)
  {
    r := flags;
    if o.saveSip != 0 {
      r := r + {SAVESIP};
    }
    if o.saveRtp != 0 {
      r := r + {SAVERTP};
    }
    if o.onlyRtpHeader != 0 {
      r := r + {SAVERTPHEADER};
    }
    if o.saveRtcp != 0 {
      r := r + {SAVERTCP};
    }
  }

  /** The conditional ORs of the audio, graph, CDR, hiding and REGISTER flags. */
  method OrAudioAndCdrFlags(flags: FlagWord, o: Options, ext: ExternalConstants) returns (r: FlagWord)
    ensures r == flags + AudioAndCdrBits(o, ext)
  {
    r := flags;
    if o.saveWav != 0 {
      r := r + (if o.audioFormat == ext.formatOgg then FLAG_SAVEAUDIO_OGG else FLAG_SAVEAUDIO_WAV);
    }
    if o.saveGraph != 0 {
      r := r + {SAVEGRAPH};
    }
    if o.skipDefault != 0 {
      r := r + {SKIPCDR};
    }
    if o.hideMessageContent != 0 {
      r := r + {HIDEMESSAGE};
    }
    if o.sipRegisterSaveAll {
      r := r + {SAVEREGISTER};
    }
  }

  /** The conditional ORs of the DTMF and OPTIONS flags. */
  method OrDtmfAndOptionsFlags(flags: FlagWord, o: Options, ext: ExternalConstants) returns (r: FlagWord)
    ensures r == flags + DtmfAndOptionsBits(o, ext)
  {
    r := flags;
    if o.dbDtmf != 0 {
      r := r + {ext.saveDtmfDb};
    }
    if o.pcapDtmf != 0 {
      r := r + {ext.saveDtmfPcap};
    }
    if o.sipOptions == 1 {
      r := r + {ext.saveOptionsDb};
    }
    if o.sipOptions != 0 && o.saveSipOptions != 0 {
      r := r + {ext.saveOptionsPcap};
    }
  }

  /** The conditional ORs of the NOTIFY and SUBSCRIBE flags. */
  method OrNotifyAndSubscribeFlags(flags: FlagWord, o: Options, ext: ExternalConstants) returns (r: FlagWord)
    ensures r == flags + NotifyAndSubscribeBits(o, ext)
  {
    r := flags;
    if o.sipNotify == 1 {
      r := r + {ext.saveNotifyDb};
    }
    if o.sipNotify != 0 && o.saveSipNotify != 0 {
      r := r + {ext.saveNotifyPcap};
    }
    if o.sipSubscribe == 1 {
      r := r + {ext.saveSubscribeDb};
    }
    if o.sipSubscribe != 0 && o.saveSipSubscribe != 0 {
      r := r + {ext.saveSubscribePcap};
    }
  }

  /** Membership in each group, bit by bit. */
  lemma StreamMembers(o: Options, b: BitIndex)
    ensures b in StreamBits(o) <==>
      || (b == SAVESIP && o.saveSip != 0)
      || (b == SAVERTP && o.saveRtp != 0)
      || (b == SAVERTPHEADER && o.onlyRtpHeader != 0)
      || (b == SAVERTCP && o.saveRtcp != 0)
  {
  }

  lemma AudioAndCdrMembers(o: Options, ext: ExternalConstants, b: BitIndex)
    ensures b in AudioAndCdrBits(o, ext) <==>
      || (b == SAVEAUDIO && o.saveWav != 0)
      || (b == FORMATAUDIO_OGG && o.saveWav != 0 && o.audioFormat == ext.formatOgg)
      || (b == FORMATAUDIO_WAV && o.saveWav != 0 && o.audioFormat != ext.formatOgg)
      || (b == SAVEGRAPH && o.saveGraph != 0)
      || (b == SKIPCDR && o.skipDefault != 0)
      || (b == HIDEMESSAGE && o.hideMessageContent != 0)
      || (b == SAVEREGISTER && o.sipRegisterSaveAll)
  {
  }

  lemma DtmfAndOptionsMembers(o: Options, ext: ExternalConstants, b: BitIndex)
    ensures b in DtmfAndOptionsBits(o, ext) <==>
      || (b == ext.saveDtmfDb && o.dbDtmf != 0)
      || (b == ext.saveDtmfPcap && o.pcapDtmf != 0)
      || (b == ext.saveOptionsDb && o.sipOptions == 1)
      || (b == ext.saveOptionsPcap && o.sipOptions != 0 && o.saveSipOptions != 0)
  {
  }

  lemma NotifyAndSubscribeMembers(o: Options, ext: ExternalConstants, b: BitIndex)
    ensures b in NotifyAndSubscribeBits(o, ext) <==>
      || (b == ext.saveNotifyDb && o.sipNotify == 1)
      || (b == ext.saveNotifyPcap && o.sipNotify != 0 && o.saveSipNotify != 0)
      || (b == ext.saveSubscribeDb && o.sipSubscribe == 1)
      || (b == ext.saveSubscribePcap && o.sipSubscribe != 0 && o.saveSipSubscribe != 0)
  {
  }

  /** A bit is in the composed word exactly when it is asked for. */
  lemma RequestedMembers(o: Options, ext: ExternalConstants, b: BitIndex)
    ensures b in Requested(o, ext) <==> Asked(o, ext, b)
  {
    StreamMembers(o, b);
    AudioAndCdrMembers(o, ext, b);
    DtmfAndOptionsMembers(o, ext, b);
    NotifyAndSubscribeMembers(o, ext, b);
  }

  /** With every option off the flags word comes back as it went in. */
  lemma AllOffLeavesFlags(flags: FlagWord, o: Options, ext: ExternalConstants)
    requires AllOff(o)
    ensures flags + Requested(o, ext) == flags
  {
  }

  /** Composing the flags a second time with the same options changes nothing. */
  lemma SetGlobalFlagsIdempotent(flags: FlagWord, o: Options, ext: ExternalConstants)
    ensures (flags + Requested(o, ext)) + Requested(o, ext) == flags + Requested(o, ext)
  {
  }

  /** Only the known flags and the external ones are ever asked for. */
  lemma RequestedWithin(o: Options, ext: ExternalConstants)
    ensures forall b :: b in Requested(o, ext) ==> IsKnownBit(b) || b in ExternalBits(ext)
  {
    forall b | b in Requested(o, ext)
      ensures IsKnownBit(b) || b in ExternalBits(ext)
    {
      RequestedMembers(o, ext, b);
    }
  }

  /**
   * The SIP, RTP, RTP-header, RTCP, graph, skip, hide and register options each
   * control their own bit: the bit is asked for iff the option is on.
   */
  lemma KnownOptionBits(o: Options, ext: ExternalConstants)
    requires DistinctBits(ext)
    ensures SAVESIP in Requested(o, ext) <==> o.saveSip != 0
    ensures SAVERTP in Requested(o, ext) <==> o.saveRtp != 0
    ensures SAVERTPHEADER in Requested(o, ext) <==> o.onlyRtpHeader != 0
    ensures SAVERTCP in Requested(o, ext) <==> o.saveRtcp != 0
    ensures SAVEGRAPH in Requested(o, ext) <==> o.saveGraph != 0
    ensures SKIPCDR in Requested(o, ext) <==> o.skipDefault != 0
    ensures HIDEMESSAGE in Requested(o, ext) <==> o.hideMessageContent != 0
    ensures SAVEREGISTER in Requested(o, ext) <==> o.sipRegisterSaveAll
  {
    ExternalNotKnown(ext);
    RequestedMembers(o, ext, SAVESIP);
    RequestedMembers(o, ext, SAVERTP);
    RequestedMembers(o, ext, SAVERTPHEADER);
    RequestedMembers(o, ext, SAVERTCP);
    RequestedMembers(o, ext, SAVEGRAPH);
    RequestedMembers(o, ext, SKIPCDR);
    RequestedMembers(o, ext, HIDEMESSAGE);
    RequestedMembers(o, ext, SAVEREGISTER);
  }

  /**
   * The audio option sets the audio bit and the format bit of the configured
   * format: OGG when the format is the OGG code and WAV otherwise, never both.
   */
  lemma SaveAudioBits(o: Options, ext: ExternalConstants)
    requires DistinctBits(ext)
    ensures SAVEAUDIO in Requested(o, ext) <==> o.saveWav != 0
    ensures FORMATAUDIO_OGG in Requested(o, ext) <==> o.saveWav != 0 && o.audioFormat == ext.formatOgg
    ensures FORMATAUDIO_WAV in Requested(o, ext) <==> o.saveWav != 0 && o.audioFormat != ext.formatOgg
  {
    ExternalNotKnown(ext);
    RequestedMembers(o, ext, SAVEAUDIO);
    RequestedMembers(o, ext, FORMATAUDIO_OGG);
    RequestedMembers(o, ext, FORMATAUDIO_WAV);
  }

  /**
   * For OPTIONS, NOTIFY and SUBSCRIBE the DB flag is set iff the option is
   * exactly 1, the PCAP flag iff the option and its save option are non-zero;
   * the DTMF flags follow their options.
   */
  lemma SipMessageBits(o: Options, ext: ExternalConstants)
    requires DistinctBits(ext)
    ensures ext.saveDtmfDb in Requested(o, ext) <==> o.dbDtmf != 0
    ensures ext.saveDtmfPcap in Requested(o, ext) <==> o.pcapDtmf != 0
    ensures ext.saveOptionsDb in Requested(o, ext) <==> o.sipOptions == 1
    ensures ext.saveOptionsPcap in Requested(o, ext) <==> o.sipOptions != 0 && o.saveSipOptions != 0
    ensures ext.saveNotifyDb in Requested(o, ext) <==> o.sipNotify == 1
    ensures ext.saveNotifyPcap in Requested(o, ext) <==> o.sipNotify != 0 && o.saveSipNotify != 0
    ensures ext.saveSubscribeDb in Requested(o, ext) <==> o.sipSubscribe == 1
    ensures ext.saveSubscribePcap in Requested(o, ext) <==> o.sipSubscribe != 0 && o.saveSipSubscribe != 0
  {
    ExternalNotKnown(ext);
    var bs := ExternalBits(ext);
    assert bs[0] == ext.saveDtmfDb && bs[1] == ext.saveDtmfPcap;
    assert bs[2] == ext.saveOptionsDb && bs[3] == ext.saveOptionsPcap;
    assert bs[4] == ext.saveNotifyDb && bs[5] == ext.saveNotifyPcap;
    assert bs[6] == ext.saveSubscribeDb && bs[7] == ext.saveSubscribePcap;
    RequestedMembers(o, ext, ext.saveDtmfDb);
    RequestedMembers(o, ext, ext.saveDtmfPcap);
    RequestedMembers(o, ext, ext.saveOptionsDb);
    RequestedMembers(o, ext, ext.saveOptionsPcap);
    RequestedMembers(o, ext, ext.saveNotifyDb);
    RequestedMembers(o, ext, ext.saveNotifyPcap);
    RequestedMembers(o, ext, ext.saveSubscribeDb);
    RequestedMembers(o, ext, ext.saveSubscribePcap);
  }

  /** The script, LQO and spool flags are never set from the options. */
  lemma RuntimeFlagsUntouched(o: Options, ext: ExternalConstants)
    requires DistinctBits(ext)
    ensures RUNSCRIPT !in Requested(o, ext) && RUNAMOSLQO !in Requested(o, ext)
    ensures RUNBMOSLQO !in Requested(o, ext) && USE_SPOOL_2 !in Requested(o, ext)
  {
    ExternalNotKnown(ext);
    RequestedMembers(o, ext, RUNSCRIPT);
    RequestedMembers(o, ext, RUNAMOSLQO);
    RequestedMembers(o, ext, RUNBMOSLQO);
    RequestedMembers(o, ext, USE_SPOOL_2);
  }

  lemma ExternalNotKnown(ext: ExternalConstants)
    requires DistinctBits(ext)
    ensures !IsKnownBit(ext.saveDtmfDb) && !IsKnownBit(ext.saveDtmfPcap)
    ensures !IsKnownBit(ext.saveOptionsDb) && !IsKnownBit(ext.saveOptionsPcap)
    ensures !IsKnownBit(ext.saveNotifyDb) && !IsKnownBit(ext.saveNotifyPcap)
    ensures !IsKnownBit(ext.saveSubscribeDb) && !IsKnownBit(ext.saveSubscribePcap)
  {
    var bs := ExternalBits(ext);
    assert !IsKnownBit(bs[0]) && !IsKnownBit(bs[1]) && !IsKnownBit(bs[2]) && !IsKnownBit(bs[3]);
    assert !IsKnownBit(bs[4]) && !IsKnownBit(bs[5]) && !IsKnownBit(bs[6]) && !IsKnownBit(bs[7]);
  }
}
