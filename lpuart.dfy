/** The LPUART driver of UART/Source/s32k144_lpuart_driver.c: argument
    validation, the initialisation sequence, the guarded setters, the
    multi-frame transfers and the callback table. Each HAL call the driver
    makes is recorded, in order, in the log of the instance it targets. */
module Lpuart {
  import opened CTypes

  datatype Status = E_OK | E_NOT_OK

  /** Interrupt sources with a HAL enable/disable setter. */
  datatype IrqSource =
    | TxIrq | TxCompleteIrq | RxIrq | OverRunIrq | NoiseErrorIrq | FrameErrorIrq | ParityErrorIrq

  /** One call into the LPUART HAL, with the value passed to it. */
  datatype HalCall =
    | ClearTE | ClearRE | SetTE | SetRE
    | FrameLengthConfig(frameLength: u8)
    | ParityConfig(parityMode: u8)
    | TxDataInversionConfig(txPolarity: u8)
    | RxDataInversionConfig(rxPolarity: u8)
    | SetNumOfStopBit(nOfStopBits: u8)
    | MSBFConfig(msbFirst: u8)
    | SetBaudrate(baudRate: u32)          // the OSR/SBR pair chosen for this rate
    | InterruptConfig(source: IrqSource, enable: u8)
    | TxFrame7_8(data8: u8)
    | TxFrame9_10(data16: u16)
    | RxFrame
    | DeInit

  /** `LPUART_Config_Type`, as raw bytes. */
  datatype Config = Config(
    frameLength: u8, parityMode: u8, nOfStopBits: u8, msbFirst: u8,
    txInterrupt: u8, rxInterrupt: u8, txCompleteInterrupt: u8, overRunInterrupt: u8,
    noiseErrorInterrupt: u8, frameErrorInterrupt: u8, parityErrorInterrupt: u8,
    rxPolarity: u8, txPolarity: u8, baudRate: u32)

  // Encodings from UART/Include/s32k144_lpuart_driver.h
  const FRAME_7BITS: u8 := 7
  const FRAME_10BITS: u8 := 10
  const PARITY_EVEN: u8 := 0
  const PARITY_ODD: u8 := 1
  const PARITY_DISABLE: u8 := 2
  const STOP_BITS_1: u8 := 0
  const STOP_BITS_2: u8 := 1
  const MSB_FIRST: u8 := 0
  const LSB_FIRST: u8 := 1
  const DISABLE: u8 := 0
  const ENABLE: u8 := 1

  /** The same settings as typed values: what a valid byte configuration
      stands for. */
  datatype FrameLength = Bits7 | Bits8 | Bits9 | Bits10
  datatype Parity = Even | Odd | NoParity
  datatype StopBits = OneStop | TwoStop
  datatype BitOrder = MsbFirst | LsbFirst
  datatype Settings = Settings(
    frame: FrameLength, parity: Parity, stop: StopBits, order: BitOrder,
    txIrq: bool, rxIrq: bool, txCompleteIrq: bool, overRunIrq: bool,
    noiseErrorIrq: bool, frameErrorIrq: bool, parityErrorIrq: bool,
    rxInvert: bool, txInvert: bool)

  function EncodeFlag(b: bool): u8 { if b then ENABLE else DISABLE }

  function DecodeFlag(x: u8): Option<bool>
  {
    if x == DISABLE then Some(false) else if x == ENABLE then Some(true) else None
  }

  function EncodeFrame(f: FrameLength): u8
  {
    match f
    case Bits7 => 7
    case Bits8 => 8
    case Bits9 => 9
    case Bits10 => 10
  }

  function DecodeFrame(x: u8): Option<FrameLength>
  {
    if x == 7 then Some(Bits7) else if x == 8 then Some(Bits8)
    else if x == 9 then Some(Bits9) else if x == 10 then Some(Bits10) else None
  }

  function EncodeParity(p: Parity): u8
  {
    match p
    case Even => PARITY_EVEN
    case Odd => PARITY_ODD
    case NoParity => PARITY_DISABLE
  }

  function DecodeParity(x: u8): Option<Parity>
  {
    if x == PARITY_EVEN then Some(Even) else if x == PARITY_ODD then Some(Odd)
    else if x == PARITY_DISABLE then Some(NoParity) else None
  }

  function EncodeStop(s: StopBits): u8 { if s == OneStop then STOP_BITS_1 else STOP_BITS_2 }

  function DecodeStop(x: u8): Option<StopBits>
  {
    if x == STOP_BITS_1 then Some(OneStop) else if x == STOP_BITS_2 then Some(TwoStop) else None
  }

  function EncodeOrder(o: BitOrder): u8 { if o == MsbFirst then MSB_FIRST else LSB_FIRST }

  function DecodeOrder(x: u8): Option<BitOrder>
  {
    if x == MSB_FIRST then Some(MsbFirst) else if x == LSB_FIRST then Some(LsbFirst) else None
  }

  /** The byte configuration that stands for `s` at rate `baudRate`. */
  function Encode(s: Settings, baudRate: u32): Config
  {
    Config(EncodeFrame(s.frame), EncodeParity(s.parity), EncodeStop(s.stop), EncodeOrder(s.order),
           EncodeFlag(s.txIrq), EncodeFlag(s.rxIrq), EncodeFlag(s.txCompleteIrq), EncodeFlag(s.overRunIrq),
           EncodeFlag(s.noiseErrorIrq), EncodeFlag(s.frameErrorIrq), EncodeFlag(s.parityErrorIrq),
           EncodeFlag(s.rxInvert), EncodeFlag(s.txInvert), baudRate)
  }

  /** The settings a byte configuration stands for, if every field holds
      one of its defined encodings. */
  function Decode(c: Config): Option<Settings>
  {
    var frame, parity, stop, order := DecodeFrame(c.frameLength), DecodeParity(c.parityMode),
                                      DecodeStop(c.nOfStopBits), DecodeOrder(c.msbFirst);
    var tx, rx, tc, ov := DecodeFlag(c.txInterrupt), DecodeFlag(c.rxInterrupt),
                          DecodeFlag(c.txCompleteInterrupt), DecodeFlag(c.overRunInterrupt);
    var ne, fe, pe := DecodeFlag(c.noiseErrorInterrupt), DecodeFlag(c.frameErrorInterrupt),
                      DecodeFlag(c.parityErrorInterrupt);
    var rxi, txi := DecodeFlag(c.rxPolarity), DecodeFlag(c.txPolarity);
    if frame.Some? && parity.Some? && stop.Some? && order.Some? && tx.Some? && rx.Some? &&
       tc.Some? && ov.Some? && ne.Some? && fe.Some? && pe.Some? && rxi.Some? && txi.Some?
    then Some(Settings(frame.value, parity.value, stop.value, order.value,
                       tx.value, rx.value, tc.value, ov.value, ne.value, fe.value, pe.value,
                       rxi.value, txi.value))
    else None
  }

  lemma DecodeEncode(s: Settings, baudRate: u32)
    ensures Decode(Encode(s, baudRate)) == Some(s)
  {
  }

  lemma EncodeDecode(c: Config)
    requires Decode(c).Some?
    ensures Encode(Decode(c).value, c.baudRate) == c
  {
  }

  /** The field checks of LPUART_CheckHandleValidation, as the C code
      writes them against the header's encodings. */
  predicate FieldsInRange(c: Config)
  {
    FRAME_7BITS <= c.frameLength && FRAME_10BITS >= c.frameLength &&
    PARITY_DISABLE >= c.parityMode &&
    (STOP_BITS_1 == c.nOfStopBits || STOP_BITS_2 == c.nOfStopBits) &&
    (MSB_FIRST == c.msbFirst || LSB_FIRST == c.msbFirst) &&
    (DISABLE == c.txInterrupt || ENABLE == c.txInterrupt) &&
    (DISABLE == c.rxInterrupt || ENABLE == c.rxInterrupt) &&
    (DISABLE == c.txCompleteInterrupt || ENABLE == c.txCompleteInterrupt) &&
    (DISABLE == c.overRunInterrupt || ENABLE == c.overRunInterrupt) &&
    (DISABLE == c.noiseErrorInterrupt || ENABLE == c.noiseErrorInterrupt) &&
    (DISABLE == c.frameErrorInterrupt || ENABLE == c.frameErrorInterrupt) &&
    (DISABLE == c.parityErrorInterrupt || ENABLE == c.parityErrorInterrupt) &&
    (DISABLE == c.txPolarity || ENABLE == c.txPolarity) &&
    (DISABLE == c.rxPolarity || ENABLE == c.rxPolarity)
  }

  /** The range checks accept exactly the configurations that decode. */
  lemma FieldsInRangeDecode(c: Config)
    ensures FieldsInRange(c) <==> Decode(c).Some?
  {
    assert DecodeFrame(c.frameLength).Some? <==> FRAME_7BITS <= c.frameLength <= FRAME_10BITS;
    assert DecodeParity(c.parityMode).Some? <==> c.parityMode <= PARITY_DISABLE;
  }

  /** b <= c / 4 (MAX_BAUDRATE, C unsigned division) iff 4 * b <= c. */
  lemma QuarterBound(b: u32, c: u32)
    ensures b <= c / 4 <==> 4 * b as int <= c as int
  {
  }

  /** `LPUART_Handle_Type`: the instance pointer and its configuration. */
  datatype Handle = Handle(instance: LpuartRegs?, config: Config)

  /** The register block of one LPUART instance. `log` holds the HAL calls
      made on it, oldest first. */
  class LpuartRegs {
    var log: seq<HalCall>
    constructor ()
      ensures log == []
    {
      log := [];
    }
  }

  /** The frames `data` transmitted one after the other. */
  function TxFrames(data: seq<u8>): (calls: seq<HalCall>)
    ensures |calls| == |data|
    ensures forall i :: 0 <= i < |data| ==> calls[i] == TxFrame7_8(data[i])
  {
    if data == [] then [] else TxFrames(data[..|data| - 1]) + [TxFrame7_8(data[|data| - 1])]
  }

  function TxFrames16(data: seq<u16>): (calls: seq<HalCall>)
    ensures |calls| == |data|
    ensures forall i :: 0 <= i < |data| ==> calls[i] == TxFrame9_10(data[i])
  {
    if data == [] then [] else TxFrames16(data[..|data| - 1]) + [TxFrame9_10(data[|data| - 1])]
  }

  /** `n` receive calls. */
  function RxFrames(n: nat): (calls: seq<HalCall>)
    ensures |calls| == n
    ensures forall i :: 0 <= i < n ==> calls[i] == RxFrame
  {
    if n == 0 then [] else RxFrames(n - 1) + [RxFrame]
  }

  /** The settings LPUART_Init applies between disabling and re-enabling the
      transmitter and receiver, in the order it applies them. */
  function ConfigCalls(c: Config): (calls: seq<HalCall>)
    ensures |calls| == 14
  {
    [FrameLengthConfig(c.frameLength), ParityConfig(c.parityMode),
     TxDataInversionConfig(c.txPolarity), RxDataInversionConfig(c.rxPolarity),
     SetNumOfStopBit(c.nOfStopBits), MSBFConfig(c.msbFirst), SetBaudrate(c.baudRate),
     InterruptConfig(TxIrq, c.txInterrupt), InterruptConfig(TxCompleteIrq, c.txCompleteInterrupt),
     InterruptConfig(RxIrq, c.rxInterrupt), InterruptConfig(OverRunIrq, c.overRunInterrupt),
     InterruptConfig(NoiseErrorIrq, c.noiseErrorInterrupt),
     InterruptConfig(FrameErrorIrq, c.frameErrorInterrupt),
     InterruptConfig(ParityErrorIrq, c.parityErrorInterrupt)]
  }

  /** The whole HAL sequence of a successful LPUART_Init. */
  function InitCalls(c: Config): (calls: seq<HalCall>)
    ensures |calls| == 18
    ensures calls[..2] == [ClearTE, ClearRE] && calls[2..16] == ConfigCalls(c) && calls[16..] == [SetTE, SetRE]
  {
    [ClearTE, ClearRE] + ConfigCalls(c) + [SetTE, SetRE]
  }

  /** Whether the transmitter (TE) and the receiver (RE) are enabled. */
  datatype Enables = Enables(te: bool, re: bool)

  /** The effect of one HAL call on TE and RE. */
  function EnablesStep(e: Enables, call: HalCall): Enables
  {
    match call
    case ClearTE => e.(te := false)
    case ClearRE => e.(re := false)
    case SetTE => e.(te := true)
    case SetRE => e.(re := true)
    case _ => e
  }

  /** TE and RE after the calls `calls`, starting from `e`. */
  function EnablesAfter(e: Enables, calls: seq<HalCall>): Enables
    decreases |calls|
  {
    if calls == [] then e else EnablesStep(EnablesAfter(e, calls[..|calls| - 1]), calls[|calls| - 1])
  }

  /** Whatever state the instance was in, every setting LPUART_Init applies
      is applied while the transmitter and the receiver are both disabled:
      after the first i calls, for each i from 2 to 16, TE and RE are off. */
  lemma {:induction false} InitConfiguresWhileDisabled(e: Enables, c: Config, i: nat)
    requires 2 <= i <= 16
    ensures EnablesAfter(e, InitCalls(c)[..i]) == Enables(false, false)
    decreases i
  {
    var calls := InitCalls(c);
    if i == 2 {
      assert calls[..2][..1][..0] == [];
      assert calls[..2][..1] == [ClearTE];
    } else {
      assert calls[..i][..i - 1] == calls[..i - 1];
      InitConfiguresWhileDisabled(e, c, i - 1);
      assert calls[i - 1] == ConfigCalls(c)[i - 3];
    }
  }

  /** LPUART_Init leaves the transmitter and the receiver enabled. */
  lemma InitEndsEnabled(e: Enables, c: Config)
    ensures EnablesAfter(e, InitCalls(c)) == Enables(true, true)
  {
    var calls := InitCalls(c);
    assert calls[..17][..16] == calls[..16];
    assert calls[..17] == calls[..|calls| - 1];
    InitConfiguresWhileDisabled(e, c, 16);
  }

  /** The call "start or stop the transmitter" (resp. receiver) asks for. */
  function TxStateCall(enable: u8): HalCall { if enable == 1 then SetTE else ClearTE }
  function RxStateCall(enable: u8): HalCall { if enable == 1 then SetRE else ClearRE }

  /** The interrupt setters that LPUART_SetTxState and LPUART_SetRxState call
      leave the transmitter and receiver as they were: stopping a running
      transmitter this way leaves it running. */
  lemma StateSettersLeaveEnables(e: Enables, enable: u8)
    ensures EnablesAfter(e, [InterruptConfig(TxIrq, enable)]) == e
    ensures EnablesAfter(e, [InterruptConfig(RxIrq, enable)]) == e
  {
    assert [InterruptConfig(TxIrq, enable)][..0] == [];
    assert [InterruptConfig(RxIrq, enable)][..0] == [];
  }

  /** The TE/RE calls start or stop exactly the transmitter or the receiver. */
  lemma StateCallsSetEnables(e: Enables, enable: u8)
    requires enable == 0 || enable == 1
    ensures EnablesAfter(e, [TxStateCall(enable)]) == e.(te := enable == 1)
    ensures EnablesAfter(e, [RxStateCall(enable)]) == e.(re := enable == 1)
  {
    assert [TxStateCall(enable)][..0] == [];
    assert [RxStateCall(enable)][..0] == [];
  }

  class LpuartDriver {
    const lpuart0: LpuartRegs
    const lpuart1: LpuartRegs
    const lpuart2: LpuartRegs
    const clock: u32
    const callbacks: array<FuncPtr>

    ghost predicate Valid()
    {
      callbacks.Length == 3 &&
      lpuart0 != lpuart1 && lpuart1 != lpuart2 && lpuart0 != lpuart2
    }

    constructor (clock: u32)
      ensures Valid() && this.clock == clock && callbacks[..] == [Null, Null, Null]
      ensures fresh(callbacks) && fresh(lpuart0) && fresh(lpuart1) && fresh(lpuart2)
      ensures lpuart0.log == [] && lpuart1.log == [] && lpuart2.log == []
    {
      lpuart0 := new LpuartRegs();
      lpuart1 := new LpuartRegs();
      lpuart2 := new LpuartRegs();
      this.clock := clock;
      callbacks := new FuncPtr[3](_ => Null);
    }

    /** INSTANCE_IS_AVAILABLE */
    predicate IsInstance(p: LpuartRegs?)
    {
      p == lpuart0 || p == lpuart1 || p == lpuart2
    }

    /** MAX_BAUDRATE: a quarter of the clock, rounded down. */
    function MaxBaudRate(): (m: u32)
      ensures 4 * m as int <= clock as int < 4 * (m as int + 1)
    {
      clock / 4
    }

    /** The callback slot of a known instance. */
    function SlotOf(p: LpuartRegs): (k: nat)
      requires IsInstance(p)
      ensures k < 3
    {
      if p == lpuart0 then 0 else if p == lpuart1 then 1 else 2
    }

    /** `LPUART_CheckHandleValidation`: accepts exactly a known instance, a
        configuration whose every field holds a defined encoding, and a
        nonzero baud rate at most a quarter of the clock. */
    function CheckHandleValidation(h: Handle): (s: Status)
      ensures s == E_OK <==>
                IsInstance(h.instance) && Decode(h.config).Some? &&
                0 < h.config.baudRate && 4 * h.config.baudRate as int <= clock as int
    {
      var c := h.config;
      FieldsInRangeDecode(c);
      QuarterBound(c.baudRate, clock);
      if IsInstance(h.instance) && FieldsInRange(c) && 0 < c.baudRate && MaxBaudRate() >= c.baudRate
      then E_OK
      else E_NOT_OK
    }

    /** `LPUART_Init`: on a valid handle, disables TX and RX, applies every
        setting, re-enables TX and RX and returns OK; otherwise it returns
        NOT_OK with no HAL call. */
    method Init(h: Handle) returns (s: Status)
      modifies h.instance
      ensures s == CheckHandleValidation(h)
      ensures h.instance != null ==>
                h.instance.log == if s == E_OK
                                  then old(h.instance.log) + InitCalls(h.config)
                                  else old(h.instance.log)
    {
      s := E_NOT_OK;
      if CheckHandleValidation(h) == E_OK {
        var p, c := h.instance, h.config;
        QuarterBound(c.baudRate, clock);
        var log := p.log;
        log := log + [ClearTE];
        log := log + [ClearRE];
        log := log + [FrameLengthConfig(c.frameLength)];
        log := log + [ParityConfig(c.parityMode)];
        log := log + [TxDataInversionConfig(c.txPolarity)];
        log := log + [RxDataInversionConfig(c.rxPolarity)];
        log := log + [SetNumOfStopBit(c.nOfStopBits)];
        log := log + [MSBFConfig(c.msbFirst)];
        p.log := log;
        var _ := BaudRateConfig(p, c.baudRate);
        log := p.log;
        log := log + [InterruptConfig(TxIrq, c.txInterrupt)];
        log := log + [InterruptConfig(TxCompleteIrq, c.txCompleteInterrupt)];
        log := log + [InterruptConfig(RxIrq, c.rxInterrupt)];
        log := log + [InterruptConfig(OverRunIrq, c.overRunInterrupt)];
        log := log + [InterruptConfig(NoiseErrorIrq, c.noiseErrorInterrupt)];
        log := log + [InterruptConfig(FrameErrorIrq, c.frameErrorInterrupt)];
        log := log + [InterruptConfig(ParityErrorIrq, c.parityErrorInterrupt)];
        log := log + [SetTE];
        log := log + [SetRE];
        p.log := log;
        s := E_OK;
      }
    }

    /** `LPUART_BaudRateConfig`, guard only: a known instance and
        0 < baudRate <= MAX_BAUDRATE, or nothing is written. */
    method BaudRateConfig(p: LpuartRegs?, baudRate: u32) returns (s: Status)
      modifies p
      ensures s == E_OK <==> IsInstance(p) && baudRate != 0 && baudRate <= MaxBaudRate()
      ensures p != null ==>
                p.log == if s == E_OK then old(p.log) + [SetBaudrate(baudRate)] else old(p.log)
    {
      s := E_NOT_OK;
      if IsInstance(p) && 0 != baudRate && MaxBaudRate() >= baudRate {
        p.log := p.log + [SetBaudrate(baudRate)];
        s := E_OK;
      }
    }

    /** The one guard every on/off setter shares: a known instance and an
        `enable` of 0 or 1; then exactly one HAL call, `call`. */
    method GuardedSetter(p: LpuartRegs?, enable: u8, call: HalCall) returns (s: Status)
      modifies p
      ensures s == E_OK <==> IsInstance(p) && (enable == 0 || enable == 1)
      ensures p != null ==> p.log == if s == E_OK then old(p.log) + [call] else old(p.log)
    {
      s := E_NOT_OK;
      if IsInstance(p) && (0 == enable || 1 == enable) {
        p.log := p.log + [call];
        s := E_OK;
      }
    }

    /** `LPUART_SetTxState`: forwards to the TX interrupt setter. */
    method SetTxState(p: LpuartRegs?, enable: u8) returns (s: Status)
      modifies p
      ensures s == E_OK <==> IsInstance(p) && (enable == 0 || enable == 1)
      ensures p != null ==>
                p.log == if s == E_OK then old(p.log) + [InterruptConfig(TxIrq, enable)] else old(p.log)
    {
      s := GuardedSetter(p, enable, InterruptConfig(TxIrq, enable));
    }

    /** `LPUART_SetRxState`: forwards to the RX interrupt setter. */
    method SetRxState(p: LpuartRegs?, enable: u8) returns (s: Status)
      modifies p
      ensures s == E_OK <==> IsInstance(p) && (enable == 0 || enable == 1)
      ensures p != null ==>
                p.log == if s == E_OK then old(p.log) + [InterruptConfig(RxIrq, enable)] else old(p.log)
    {
      s := GuardedSetter(p, enable, InterruptConfig(RxIrq, enable));
    }

    /** `LPUART_SetTxState` as documented: starts or stops the transmitter. */
    method SetTxStateIntended(p: LpuartRegs?, enable: u8) returns (s: Status)
      modifies p
      ensures s == E_OK <==> IsInstance(p) && (enable == 0 || enable == 1)
      ensures p != null ==>
                p.log == if s == E_OK then old(p.log) + [TxStateCall(enable)] else old(p.log)
    {
      s := GuardedSetter(p, enable, TxStateCall(enable));
    }

    /** `LPUART_SetRxState` as documented: starts or stops the receiver. */
    method SetRxStateIntended(p: LpuartRegs?, enable: u8) returns (s: Status)
      modifies p
      ensures s == E_OK <==> IsInstance(p) && (enable == 0 || enable == 1)
      ensures p != null ==>
                p.log == if s == E_OK then old(p.log) + [RxStateCall(enable)] else old(p.log)
    {
      s := GuardedSetter(p, enable, RxStateCall(enable));
    }

    method TxInterruptConfig(p: LpuartRegs?, enable: u8) returns (s: Status)
      modifies p
      ensures s == E_OK <==> IsInstance(p) && (enable == 0 || enable == 1)
      ensures p != null ==>
                p.log == if s == E_OK then old(p.log) + [InterruptConfig(TxIrq, enable)] else old(p.log)
    {
      s := GuardedSetter(p, enable, InterruptConfig(TxIrq, enable));
    }

    method TxCompleteInterruptConfig(p: LpuartRegs?, enable: u8) returns (s: Status)
      modifies p
      ensures s == E_OK <==> IsInstance(p) && (enable == 0 || enable == 1)
      ensures p != null ==>
                p.log == if s == E_OK then old(p.log) + [InterruptConfig(TxCompleteIrq, enable)] else old(p.log)
    {
      s := GuardedSetter(p, enable, InterruptConfig(TxCompleteIrq, enable));
    }

    method RxInterruptConfig(p: LpuartRegs?, enable: u8) returns (s: Status)
      modifies p
      ensures s == E_OK <==> IsInstance(p) && (enable == 0 || enable == 1)
      ensures p != null ==>
                p.log == if s == E_OK then old(p.log) + [InterruptConfig(RxIrq, enable)] else old(p.log)
    {
      s := GuardedSetter(p, enable, InterruptConfig(RxIrq, enable));
    }

    method OverRunInterruptConfig(p: LpuartRegs?, enable: u8) returns (s: Status)
      modifies p
      ensures s == E_OK <==> IsInstance(p) && (enable == 0 || enable == 1)
      ensures p != null ==>
                p.log == if s == E_OK then old(p.log) + [InterruptConfig(OverRunIrq, enable)] else old(p.log)
    {
      s := GuardedSetter(p, enable, InterruptConfig(OverRunIrq, enable));
    }

    /** `LPUART_NoiseErrorInterruptConfig` as written: it calls the OVERRUN
        interrupt setter, so the noise-error interrupt is never changed. */
    method NoiseErrorInterruptConfig(p: LpuartRegs?, enable: u8) returns (s: Status)
      modifies p
      ensures s == E_OK <==> IsInstance(p) && (enable == 0 || enable == 1)
      ensures p != null ==>
                p.log == if s == E_OK then old(p.log) + [InterruptConfig(OverRunIrq, enable)] else old(p.log)
      ensures p != null ==> forall i :: |old(p.log)| <= i < |p.log| ==> p.log[i] != InterruptConfig(NoiseErrorIrq, enable)
    {
      s := GuardedSetter(p, enable, InterruptConfig(OverRunIrq, enable));
    }

    /** `LPUART_NoiseErrorInterruptConfig` as its documentation describes it. */
    method NoiseErrorInterruptConfigIntended(p: LpuartRegs?, enable: u8) returns (s: Status)
      modifies p
      ensures s == E_OK <==> IsInstance(p) && (enable == 0 || enable == 1)
      ensures p != null ==>
                p.log == if s == E_OK then old(p.log) + [InterruptConfig(NoiseErrorIrq, enable)] else old(p.log)
    {
      s := GuardedSetter(p, enable, InterruptConfig(NoiseErrorIrq, enable));
    }

    method FrameErrorInterruptConfig(p: LpuartRegs?, enable: u8) returns (s: Status)
      modifies p
      ensures s == E_OK <==> IsInstance(p) && (enable == 0 || enable == 1)
      ensures p != null ==>
                p.log == if s == E_OK then old(p.log) + [InterruptConfig(FrameErrorIrq, enable)] else old(p.log)
    {
      s := GuardedSetter(p, enable, InterruptConfig(FrameErrorIrq, enable));
    }

    method ParityErrorInterruptConfig(p: LpuartRegs?, enable: u8) returns (s: Status)
      modifies p
      ensures s == E_OK <==> IsInstance(p) && (enable == 0 || enable == 1)
      ensures p != null ==>
                p.log == if s == E_OK then old(p.log) + [InterruptConfig(ParityErrorIrq, enable)] else old(p.log)
    {
      s := GuardedSetter(p, enable, InterruptConfig(ParityErrorIrq, enable));
    }

    /** `LPUART_TxFrame7_8` */
    method TxFrame7_8(p: LpuartRegs?, data: u8) returns (s: Status)
      modifies p
      ensures s == E_OK <==> IsInstance(p)
      ensures p != null ==> p.log == if s == E_OK then old(p.log) + [HalCall.TxFrame7_8(data)] else old(p.log)
    {
      s := E_NOT_OK;
      if IsInstance(p) {
        p.log := p.log + [HalCall.TxFrame7_8(data)];
        s := E_OK;
      }
    }

    /** `LPUART_TxMultiFrame7_8`: rejects an unknown instance, `len == 0` or
        a NULL buffer; otherwise sends `buf[0..len)` in index order. */
    method TxMultiFrame7_8(p: LpuartRegs?, buf: array?<u8>, len: u32) returns (s: Status)
      requires IsInstance(p) && len != 0 && buf != null ==> len as int <= buf.Length
      modifies p
      ensures s == E_OK <==> IsInstance(p) && len != 0 && buf != null
      ensures p != null ==>
                p.log == if s == E_OK then old(p.log) + TxFrames(buf[..len]) else old(p.log)
    {
      s := E_NOT_OK;
      if IsInstance(p) && 0 != len && null != buf {
        var i: u32 := 0;
        while i < len
          invariant i <= len
          invariant p.log == old(p.log) + TxFrames(buf[..i])
        {
          assert buf[..i + 1][..i] == buf[..i];
          p.log := p.log + [HalCall.TxFrame7_8(buf[i])];
          i := i + 1;
        }
        s := E_OK;
      }
    }

    /** `LPUART_TxFrame9_10` */
    method TxFrame9_10(p: LpuartRegs?, data: u16) returns (s: Status)
      modifies p
      ensures s == E_OK <==> IsInstance(p)
      ensures p != null ==> p.log == if s == E_OK then old(p.log) + [HalCall.TxFrame9_10(data)] else old(p.log)
    {
      s := E_NOT_OK;
      if IsInstance(p) {
        p.log := p.log + [HalCall.TxFrame9_10(data)];
        s := E_OK;
      }
    }

    /** `LPUART_TxMultiFrame9_10`: the 16-bit counterpart of TxMultiFrame7_8. */
    method TxMultiFrame9_10(p: LpuartRegs?, buf: array?<u16>, len: u32) returns (s: Status)
      requires IsInstance(p) && len != 0 && buf != null ==> len as int <= buf.Length
      modifies p
      ensures s == E_OK <==> IsInstance(p) && len != 0 && buf != null
      ensures p != null ==>
                p.log == if s == E_OK then old(p.log) + TxFrames16(buf[..len]) else old(p.log)
    {
      s := E_NOT_OK;
      if IsInstance(p) && 0 != len && null != buf {
        var i: u32 := 0;
        while i < len
          invariant i <= len
          invariant p.log == old(p.log) + TxFrames16(buf[..i])
        {
          assert buf[..i + 1][..i] == buf[..i];
          p.log := p.log + [HalCall.TxFrame9_10(buf[i])];
          i := i + 1;
        }
        s := E_OK;
      }
    }

    /** `LPUART_RxFrame`: stores the low byte of the received frame `frame`
        (the value the HAL read returns) into `rx[0]`. */
    method RxFrame(p: LpuartRegs?, rx: array?<u8>, frame: u16) returns (s: Status)
      requires IsInstance(p) && rx != null ==> rx.Length > 0
      modifies p, rx
      ensures s == E_OK <==> IsInstance(p) && rx != null
      ensures p != null ==> p.log == if s == E_OK then old(p.log) + [HalCall.RxFrame] else old(p.log)
      ensures rx != null ==> rx[..] == if s == E_OK then old(rx[..])[0 := (frame % 0x100) as u8] else old(rx[..])
    {
      s := E_NOT_OK;
      if IsInstance(p) && null != rx {
        p.log := p.log + [HalCall.RxFrame];
        rx[0] := (frame % 0x100) as u8;
        s := E_OK;
      }
    }

    /** `LPUART_RxMultiFrame` as written. The guard tests the first buffer
        ELEMENT (`*pRxBuffer`) rather than the pointer, and the loop counter
        declared in the `for` shadows the result, so the count returned is
        always 0 even when `len` frames were stored. `incoming` holds the
        frames the receiver delivers, in order. */
    method RxMultiFrame(p: LpuartRegs?, buf: array?<u16>, len: u32, incoming: seq<u16>) returns (n: u32)
      requires IsInstance(p) ==> buf != null && buf.Length > 0
      requires IsInstance(p) && buf[0] != 0 && len != 0 ==> len as int <= buf.Length && len as int <= |incoming|
      modifies p, buf
      ensures n == 0
      ensures IsInstance(p) && old(buf[0]) != 0 && len != 0 ==>
                buf[..len] == incoming[..len] && buf[len..] == old(buf[len..]) &&
                p.log == old(p.log) + RxFrames(len as nat)
      ensures !(IsInstance(p) && old(buf[0]) != 0 && len != 0) ==>
                (buf != null ==> buf[..] == old(buf[..])) && (p != null ==> p.log == old(p.log))
    {
      n := 0;
      if IsInstance(p) && 0 != buf[0] && 0 != len {
        var i: u32 := 0;
        while i < len
          invariant i <= len
          invariant buf[..i] == incoming[..i] && buf[len..] == old(buf[len..])
          invariant p.log == old(p.log) + RxFrames(i as nat)
        {
          buf[i] := incoming[i];
          p.log := p.log + [HalCall.RxFrame];
          i := i + 1;
        }
      }
    }

    /** `LPUART_RxMultiFrame` as evidently intended: NULL-checks the pointer
        and returns the number of frames stored. */
    method RxMultiFrameIntended(p: LpuartRegs?, buf: array?<u16>, len: u32, incoming: seq<u16>) returns (n: u32)
      requires IsInstance(p) && buf != null && len != 0 ==> len as int <= buf.Length && len as int <= |incoming|
      modifies p, buf
      ensures n == if IsInstance(p) && buf != null && len != 0 then len else 0
      ensures n != 0 ==>
                buf[..len] == incoming[..len] && buf[len..] == old(buf[len..]) &&
                p.log == old(p.log) + RxFrames(len as nat)
      ensures n == 0 ==> (buf != null ==> buf[..] == old(buf[..])) && (p != null ==> p.log == old(p.log))
    {
      n := 0;
      if IsInstance(p) && null != buf && 0 != len {
        while n < len
          invariant n <= len
          invariant buf[..n] == incoming[..n] && buf[len..] == old(buf[len..])
          invariant p.log == old(p.log) + RxFrames(n as nat)
        {
          buf[n] := incoming[n];
          p.log := p.log + [HalCall.RxFrame];
          n := n + 1;
        }
      }
    }

    /** `LPUART_CallbackRegister`: for a known instance and a non-NULL
        handler, overwrites that instance's slot and no other; otherwise
        NOT_OK and the table is unchanged. */
    method CallbackRegister(p: LpuartRegs?, handler: FuncPtr) returns (s: Status)
      requires Valid()
      modifies callbacks
      ensures s == E_OK <==> IsInstance(p) && handler != Null
      ensures callbacks[..] == if s == E_OK then old(callbacks[..])[SlotOf(p) := handler]
                               else old(callbacks[..])
    {
      s := E_NOT_OK;
      if IsInstance(p) && Null != handler {
        if lpuart0 == p {
          callbacks[0] := handler;
        } else if lpuart1 == p {
          callbacks[1] := handler;
        } else if lpuart2 == p {
          callbacks[2] := handler;
        }
        s := E_OK;
      }
    }

    /** `LPUART_DeInit` */
    method DeInit(p: LpuartRegs?) returns (s: Status)
      modifies p
      ensures s == E_OK <==> IsInstance(p)
      ensures p != null ==> p.log == if s == E_OK then old(p.log) + [HalCall.DeInit] else old(p.log)
    {
      s := E_NOT_OK;
      if IsInstance(p) {
        p.log := p.log + [HalCall.DeInit];
        s := E_OK;
      }
    }
  }
}
