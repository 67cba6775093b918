/** The per-packet TCP segment descriptor: header fields decoded from network
    byte order, the end sequence number, and the MSS and window-scale
    options (src/stream/libtcp/tcp_segment_descriptor.cc). */
module TcpSegment {
  import opened Ints
  import opened Wrappers

  /** Header layout of section 3.1 of RFC 9293 (offsets in octets). */
  const MinHeaderLen := 20
  const SrcPortAt := 0
  const DstPortAt := 2
  const SeqAt := 4
  const AckAt := 8
  const FlagsAt := 13
  const WinAt := 14

  /** Control bits of the flags octet. */
  const TH_FIN: bv8 := 0x01
  const TH_SYN: bv8 := 0x02
  const TH_ACK: bv8 := 0x10

  /** Option kinds: MSS (section 3.2 of RFC 9293) and window scale
      (section 2.2 of RFC 7323). */
  const MAXSEG: u8 := 2
  const WSCALE: u8 := 3

  /** The largest shift count a window-scale option may take
      (section 2.3 of RFC 7323). */
  const MaxWscale: u16 := 14

  /** Tracking flags returned by the option lookups. */
  const TF_NONE: u32 := 0x0000
  const TF_WSCALE: u32 := 0x0001
  const TF_MSS: u32 := 0x0008

  /** One option as the option iterator yields it: its kind and its data
      octets (after the kind and length octets). */
  datatype TcpOption = TcpOption(code: u8, data: seq<u8>)

  /** A raw TCP header: at least the fixed 20 octets. */
  type TcpHeader = h: seq<u8> | |h| >= MinHeaderLen witness seq(MinHeaderLen, _ => 0)

  /** Each field accessor gives the host-order value whose network-order
      encoding is exactly the field's octets. */
  function SrcPort(h: TcpHeader): (r: u16)
    ensures EncodeBE16(r) == h[SrcPortAt..SrcPortAt + 2]
  {
    EncodeDecode16(h[SrcPortAt..SrcPortAt + 2]);
    DecodeBE16(h[SrcPortAt..SrcPortAt + 2])
  }

  function DstPort(h: TcpHeader): (r: u16)
    ensures EncodeBE16(r) == h[DstPortAt..DstPortAt + 2]
  {
    EncodeDecode16(h[DstPortAt..DstPortAt + 2]);
    DecodeBE16(h[DstPortAt..DstPortAt + 2])
  }

  function SeqNum(h: TcpHeader): (r: u32)
    ensures EncodeBE32(r) == h[SeqAt..SeqAt + 4]
  {
    EncodeDecode32(h[SeqAt..SeqAt + 4]);
    DecodeBE32(h[SeqAt..SeqAt + 4])
  }

  function AckNum(h: TcpHeader): (r: u32)
    ensures EncodeBE32(r) == h[AckAt..AckAt + 4]
  {
    EncodeDecode32(h[AckAt..AckAt + 4]);
    DecodeBE32(h[AckAt..AckAt + 4])
  }

  function Window(h: TcpHeader): (r: u16)
    ensures EncodeBE16(r) == h[WinAt..WinAt + 2]
  {
    EncodeDecode16(h[WinAt..WinAt + 2]);
    DecodeBE16(h[WinAt..WinAt + 2])
  }

  function Flags(h: TcpHeader): bv8 { h[FlagsAt] as bv8 }

  /** The control-bit tests: SYN is bit 1 of the flags octet, ACK bit 4 and
      FIN bit 0. */
  predicate IsSyn(h: TcpHeader): (r: bool)
    ensures r <==> (h[FlagsAt] / 2) % 2 == 1
  {
    Flags(h) & TH_SYN != 0
  }

  predicate IsAck(h: TcpHeader): (r: bool)
    ensures r <==> (h[FlagsAt] / 0x10) % 2 == 1
  {
    Flags(h) & TH_ACK != 0
  }

  predicate IsFin(h: TcpHeader): (r: bool)
    ensures r <==> h[FlagsAt] % 2 == 1
  {
    Flags(h) & TH_FIN != 0
  }

  /** The field values a header carries, in host order. */
  datatype HeaderFields = HeaderFields(
    srcPort: u16, dstPort: u16, seqNum: u32, ackNum: u32,
    offx2: u8, flags: u8, win: u16, sum: u16, urp: u16)

  /** Lays the fields out in network byte order. */
  function EncodeHeader(f: HeaderFields): (h: TcpHeader)
    ensures |h| == MinHeaderLen
  {
    EncodeBE16(f.srcPort) + EncodeBE16(f.dstPort) + EncodeBE32(f.seqNum) +
    EncodeBE32(f.ackNum) + [f.offx2, f.flags] + EncodeBE16(f.win) +
    EncodeBE16(f.sum) + EncodeBE16(f.urp)
  }

  /** Decoding an encoded header gives back the host-order values. */
  lemma DecodeEncodedHeader(f: HeaderFields)
    ensures var h := EncodeHeader(f);
      SrcPort(h) == f.srcPort && DstPort(h) == f.dstPort &&
      SeqNum(h) == f.seqNum && AckNum(h) == f.ackNum &&
      Window(h) == f.win && h[FlagsAt] == f.flags
  {
    var h := EncodeHeader(f);
    assert h[SrcPortAt..SrcPortAt + 2] == EncodeBE16(f.srcPort);
    assert h[DstPortAt..DstPortAt + 2] == EncodeBE16(f.dstPort);
    assert h[SeqAt..SeqAt + 4] == EncodeBE32(f.seqNum);
    assert h[AckAt..AckAt + 4] == EncodeBE32(f.ackNum);
    assert h[WinAt..WinAt + 2] == EncodeBE16(f.win);
    DecodeEncode16(f.srcPort);
    DecodeEncode16(f.dstPort);
    DecodeEncode32(f.seqNum);
    DecodeEncode32(f.ackNum);
    DecodeEncode16(f.win);
  }

  /** The sequence number one past the segment: the payload octets, plus
      one for a SYN; a FIN is not counted here. */
  function EndSeq(seqNum: u32, dsize: u16, syn: bool): (r: u32)
    ensures seqNum + dsize + (if syn then 1 else 0) < 0x1_0000_0000 ==>
      r == seqNum + dsize + (if syn then 1 else 0)
    ensures (seqNum + dsize + (if syn then 1 else 0) - r) % 0x1_0000_0000 == 0
  {
    Wrap32(seqNum + dsize + (if syn then 1 else 0))
  }

  /** The distance from seq to end_seq, modulo 2^32, is the number of
      sequence numbers the segment occupies. */
  lemma EndSeqSpan(seqNum: u32, dsize: u16, syn: bool)
    ensures Wrap32(EndSeq(seqNum, dsize, syn) - seqNum) == dsize + (if syn then 1 else 0)
  {
  }

  /** The FIN bit never changes the end sequence number: a flags octet
      that agrees with the header's on every bit but FIN (bit 0) keeps the
      SYN and ACK tests and end_seq, and flips the FIN test if it differs. */
  lemma FinDoesNotCount(h: TcpHeader, dsize: u16, flags: u8)
    requires flags / 2 == h[FlagsAt] / 2
    ensures var h' := h[FlagsAt := flags];
      (flags != h[FlagsAt] ==> IsFin(h') != IsFin(h)) &&
      IsSyn(h') == IsSyn(h) && IsAck(h') == IsAck(h) &&
      EndSeq(SeqNum(h'), dsize, IsSyn(h')) == EndSeq(SeqNum(h), dsize, IsSyn(h))
  {
    var h' := h[FlagsAt := flags];
    assert h'[SeqAt..SeqAt + 4] == h[SeqAt..SeqAt + 4];
  }

  /** The i-th option is the first one of kind `code`. */
  ghost predicate IsFirst(opts: seq<TcpOption>, code: u8, i: nat)
  {
    i < |opts| && opts[i].code == code && forall j :: 0 <= j < i ==> opts[j].code != code
  }

  /** The position of the first option of kind `code`, if any. */
  function FirstIndex(opts: seq<TcpOption>, code: u8): (r: Option<nat>)
    ensures r.Some? ==> IsFirst(opts, code, r.value)
    ensures r.None? <==> forall j :: 0 <= j < |opts| ==> opts[j].code != code
    decreases |opts|
  {
    if opts == [] then None
    else if opts[0].code == code then Some(0)
    else match FirstIndex(opts[1..], code)
      case None => None
      case Some(k) => Some(k + 1)
  }

  /** Every MSS option carries its two value octets and every window-scale
      option its shift count: the option iterator's length check, which is
      not part of this model, guarantees it. */
  predicate OptionsWellFormed(opts: seq<TcpOption>)
  {
    forall o :: o in opts ==>
      (o.code == MAXSEG ==> |o.data| >= 2) && (o.code == WSCALE ==> |o.data| >= 1)
  }

  /** What an option lookup returns: the tracking flag and *value. */
  datatype Lookup = Lookup(flag: u32, value: u16)

  /** init_mss on an option sequence. */
  function MssOf(opts: seq<TcpOption>): (r: Lookup)
    requires OptionsWellFormed(opts)
    ensures r.flag == TF_MSS || r.flag == TF_NONE
    ensures r.flag == TF_MSS <==> exists i :: 0 <= i < |opts| && opts[i].code == MAXSEG
    ensures r.flag == TF_NONE ==> r.value == 0
    ensures forall i: nat :: IsFirst(opts, MAXSEG, i) ==>
      r.value == (opts[i].data[0] as int) * 0x100 + (opts[i].data[1] as int)
  {
    match FirstIndex(opts, MAXSEG)
    case Some(i) => Lookup(TF_MSS, DecodeBE16(opts[i].data[..2]))
    case None => Lookup(TF_NONE, 0)
  }

  /** init_wscale on an option sequence. */
  function WscaleOf(opts: seq<TcpOption>): (r: Lookup)
    requires OptionsWellFormed(opts)
    ensures r.flag == TF_WSCALE || r.flag == TF_NONE
    ensures r.flag == TF_WSCALE <==> exists i :: 0 <= i < |opts| && opts[i].code == WSCALE
    ensures r.flag == TF_NONE ==> r.value == 0
    ensures r.value <= MaxWscale
    ensures forall i: nat :: IsFirst(opts, WSCALE, i) ==>
      r.value == if opts[i].data[0] > 14 then 14 else opts[i].data[0]
  {
    match FirstIndex(opts, WSCALE)
    case Some(i) => Lookup(TF_WSCALE, if opts[i].data[0] > MaxWscale then MaxWscale else opts[i].data[0])
    case None => Lookup(TF_NONE, 0)
  }

  /** Options after the first of the searched kind are never looked at. */
  lemma {:induction false} FirstIndexIgnoresLater(opts: seq<TcpOption>, more: seq<TcpOption>, code: u8)
    requires FirstIndex(opts, code).Some?
    ensures FirstIndex(opts + more, code) == FirstIndex(opts, code)
    decreases |opts|
  {
    if opts[0].code != code {
      assert (opts + more)[1..] == opts[1..] + more;
      FirstIndexIgnoresLater(opts[1..], more, code);
    }
  }

  lemma MssIgnoresLaterOptions(opts: seq<TcpOption>, more: seq<TcpOption>)
    requires OptionsWellFormed(opts + more)
    requires exists i :: 0 <= i < |opts| && opts[i].code == MAXSEG
    ensures OptionsWellFormed(opts) && MssOf(opts + more) == MssOf(opts)
  {
    assert forall o :: o in opts ==> o in opts + more;
    FirstIndexIgnoresLater(opts, more, MAXSEG);
    var i := FirstIndex(opts, MAXSEG).value;
    assert (opts + more)[i] == opts[i];
  }

  lemma WscaleIgnoresLaterOptions(opts: seq<TcpOption>, more: seq<TcpOption>)
    requires OptionsWellFormed(opts + more)
    requires exists i :: 0 <= i < |opts| && opts[i].code == WSCALE
    ensures OptionsWellFormed(opts) && WscaleOf(opts + more) == WscaleOf(opts)
  {
    assert forall o :: o in opts ==> o in opts + more;
    FirstIndexIgnoresLater(opts, more, WSCALE);
    var i := FirstIndex(opts, WSCALE).value;
    assert (opts + more)[i] == opts[i];
  }

  /** A lone window-scale option with shift count v is reported as min(v, 14). */
  lemma WscaleClamped(v: u8)
    ensures WscaleOf([TcpOption(WSCALE, [v])]) == Lookup(TF_WSCALE, if v > 14 then 14 else v)
  {
  }

  /** A lone MSS option of 1460 (octets 0x05 0xB4): MSS found, no window scale. */
  lemma MssOnlyOptions()
    ensures var opts := [TcpOption(MAXSEG, [0x05, 0xB4])];
      MssOf(opts) == Lookup(TF_MSS, 1460) && WscaleOf(opts) == Lookup(TF_NONE, 0)
  {
  }

  /** The event logger, reduced to the one event the descriptor raises. */
  class TcpEventLogger {
    var internalSynEvents: nat

    constructor ()
      ensures internalSynEvents == 0
    {
      internalSynEvents := 0;
    }

    method SetTcpInternalSynEvent()
      modifies this
      ensures internalSynEvents == old(internalSynEvents) + 1
    {
      internalSynEvents := internalSynEvents + 1;
    }
  }

  class TcpSegmentDescriptor {
    /** The packet's TCP header (tcph). */
    const tcph: TcpHeader
    /** The payload length (pkt->dsize). */
    const dsize: u16
    /** What the option iterator yields over tcph and the packet. */
    const options: seq<TcpOption>

    var srcPort: u16
    var dstPort: u16
    var seqNum: u32
    var ackNum: u32
    var win: u16
    var endSeq: u32
    var ts: u32

    constructor (tcph: TcpHeader, dsize: u16, options: seq<TcpOption>, tel: TcpEventLogger)
      modifies tel
      ensures this.tcph == tcph && this.dsize == dsize && this.options == options
      ensures srcPort == SrcPort(tcph) && dstPort == DstPort(tcph) && win == Window(tcph)
      ensures seqNum == SeqNum(tcph) && ackNum == AckNum(tcph) && ts == 0
      ensures endSeq == EndSeq(SeqNum(tcph), dsize, IsSyn(tcph))
      ensures tel.internalSynEvents ==
        old(tel.internalSynEvents) + (if IsSyn(tcph) && !IsAck(tcph) then 1 else 0)
    {
      this.tcph := tcph;
      this.dsize := dsize;
      this.options := options;
      new;
      srcPort := SrcPort(tcph);
      dstPort := DstPort(tcph);
      seqNum := SeqNum(tcph);
      ackNum := AckNum(tcph);
      win := Window(tcph);
      endSeq := Wrap32(seqNum + dsize);
      ts := 0;
      if Flags(tcph) & TH_SYN != 0 {
        endSeq := Wrap32(endSeq + 1);
        if Flags(tcph) & TH_ACK == 0 {
          tel.SetTcpInternalSynEvent();
        }
      }
    }

    /** init_mss: the first MSS option's value, or 0 when there is none. */
    method InitMss() returns (flag: u32, value: u16)
      requires OptionsWellFormed(options)
      ensures Lookup(flag, value) == MssOf(options)
    {
      for i := 0 to |options|
        invariant forall j :: 0 <= j < i ==> options[j].code != MAXSEG
      {
        if options[i].code == MAXSEG {
          value := DecodeBE16(options[i].data[..2]);
          assert IsFirst(options, MAXSEG, i);
          return TF_MSS, value;
        }
      }
      value := 0;
      return TF_NONE, value;
    }

    /** init_wscale: the first window-scale option's shift count, clamped
        to 14, or 0 when there is none. */
    method InitWscale() returns (flag: u32, value: u16)
      requires OptionsWellFormed(options)
      ensures Lookup(flag, value) == WscaleOf(options)
    {
      for i := 0 to |options|
        invariant forall j :: 0 <= j < i ==> options[j].code != WSCALE
      {
        if options[i].code == WSCALE {
          value := options[i].data[0];
          if value > MaxWscale {
            value := MaxWscale;
          }
          assert IsFirst(options, WSCALE, i);
          return TF_WSCALE, value;
        }
      }
      value := 0;
      return TF_NONE, value;
    }

    /** has_wscale: the flag init_wscale returns, the value discarded. */
    method HasWscale() returns (flag: u32)
      requires OptionsWellFormed(options)
      ensures flag == WscaleOf(options).flag
    {
      var wscale;
      flag, wscale := InitWscale();
    }
  }

  /** A SYN without ACK, sequence number 1000 and 40 payload octets ends at
      1041 and raises one internal-SYN event. */
  method SynScenario() returns (endSeq: u32, events: nat)
    ensures endSeq == 1041 && events == 1
  {
    var h := EncodeHeader(HeaderFields(1024, 80, 1000, 0, 0x50, 0x02, 8192, 0, 0));
    DecodeEncodedHeader(HeaderFields(1024, 80, 1000, 0, 0x50, 0x02, 8192, 0, 0));
    var tel := new TcpEventLogger();
    var tsd := new TcpSegmentDescriptor(h, 40, [], tel);
    return tsd.endSeq, tel.internalSynEvents;
  }
}
