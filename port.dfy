/** The PORT driver of PORT/Source/s32k144_port_driver.c: pin configuration,
    interrupt enable/disable and the per-port callback table. A pin control
    register (PCR) is modelled field by field; the HAL field writes of
    PORT/Source/s32k144_port_hal.c are the functions ClearMux .. SetIrqMode. */
module Port {
  import opened CTypes

  datatype Status = E_OK | E_NOT_OK

  /** The PCR fields the driver touches: MUX (3 bits), PE, PS, IRQC (4 bits)
      and the write-one-to-clear interrupt status flag ISF. */
  datatype Pcr = Pcr(mux: bv3, pe: bool, ps: bool, irqc: bv4, isf: bool)

  const PORT_MAX_PINS: u32 := 32

  /** PIN_IS_AVAILABLE of PORT/Include/s32k144_port_hal.h */
  predicate PinIsAvailable(pin: u32)
  {
    pin < PORT_MAX_PINS
  }

  // Encodings from PORT/Include/s32k144_port_driver.h
  const PULL_DISABLE: u32 := 0
  const PULL_ENABLE: u32 := 1
  const PULLDOWN: u32 := 0
  const PULLUP: u32 := 1

  /** `PORT_Config_t`; enum fields are held as the unsigned values passed. */
  datatype Config = Config(pin: u32, mux: u32, pullEnable: u32, pullSelect: u32, irqMode: u32)

  /** PORT_PCR_MUX(x): the value shifted into the field and masked to it. */
  function MuxField(m: u32): bv3 { (m % 8) as int as bv3 }

  /** PORT_PCR_IRQC(x) */
  function IrqcField(q: u32): bv4 { (q % 16) as int as bv4 }

  /* Every HAL field write reads the whole PCR and writes it back, so a
     pending ISF (read as 1) is written back as 1 and thereby cleared. */
  function ClearMux(r: Pcr): Pcr { r.(mux := 0, isf := false) }
  function SetMux(r: Pcr, m: u32): Pcr { r.(mux := r.mux | MuxField(m), isf := false) }
  function EnablePull(r: Pcr): Pcr { r.(pe := true, isf := false) }
  function DisablePull(r: Pcr): Pcr { r.(pe := false, isf := false) }
  function SetPullUp(r: Pcr): Pcr { r.(ps := true, isf := false) }
  function SetPullDown(r: Pcr): Pcr { r.(ps := false, isf := false) }
  function ClearIrq(r: Pcr): Pcr { r.(irqc := 0, isf := false) }
  function SetIrqMode(r: Pcr, q: u32): Pcr { r.(irqc := r.irqc | IrqcField(q), isf := false) }
  /** PORT_EnableInterrupt's explicit write of 1 to ISF. */
  function ClearIsf(r: Pcr): Pcr { r.(isf := false) }

  /** PE after PORT_Init: set by ENABLE, cleared by DISABLE, otherwise kept. */
  function PullEnabledAfter(pe: bool, c: Config): bool
  {
    if c.pullEnable == PULL_ENABLE then true
    else if c.pullEnable == PULL_DISABLE then false
    else pe
  }

  /** PS after PORT_Init: chosen only when the pull is being enabled with a
      defined select; otherwise kept. */
  function PullSelectAfter(ps: bool, c: Config): bool
  {
    if c.pullEnable == PULL_ENABLE && c.pullSelect == PULLUP then true
    else if c.pullEnable == PULL_ENABLE && c.pullSelect == PULLDOWN then false
    else ps
  }

  /** A pin register after PORT_Init with `c`: MUX and IRQC hold exactly the
      configured values, the pull fields follow the rules above, and ISF is
      clear, since every write in between clears a pending flag. */
  function Configured(r: Pcr, c: Config): Pcr
  {
    Pcr(MuxField(c.mux), PullEnabledAfter(r.pe, c), PullSelectAfter(r.ps, c), IrqcField(c.irqMode), false)
  }

  /** `PORT_Type`: the 32 pin control registers of one port. */
  class PortRegisters {
    const pcr: array<Pcr>
    constructor ()
      ensures pcr.Length == PORT_MAX_PINS as int && fresh(pcr)
    {
      pcr := new Pcr[32](_ => Pcr(0, false, false, 0, false));
    }
  }

  /** `PORT_Init`: NOT_OK with no register change for a NULL port, a NULL
      configuration or a pin >= 32; otherwise configures that one pin. */
  method Init(port: PortRegisters?, config: Option<Config>) returns (result: Status)
    requires port != null ==> port.pcr.Length == PORT_MAX_PINS as int
    modifies if port != null then {port.pcr} else {}
    ensures result == E_OK <==> port != null && config.Some? && PinIsAvailable(config.value.pin)
    ensures port != null ==>
              port.pcr[..] == if result == E_OK
                              then old(port.pcr[..])[config.value.pin := Configured(old(port.pcr[config.value.pin]), config.value)]
                              else old(port.pcr[..])
  {
    result := E_OK;
    if port != null && config.Some? {
      var c := config.value;
      if PinIsAvailable(c.pin) {
        var pin := c.pin;
        port.pcr[pin] := ClearMux(port.pcr[pin]);
        port.pcr[pin] := SetMux(port.pcr[pin], c.mux);
        if PULL_ENABLE == c.pullEnable {
          port.pcr[pin] := EnablePull(port.pcr[pin]);
          if PULLUP == c.pullSelect {
            port.pcr[pin] := SetPullUp(port.pcr[pin]);
          } else if PULLDOWN == c.pullSelect {
            port.pcr[pin] := SetPullDown(port.pcr[pin]);
          }
        } else if PULL_DISABLE == c.pullEnable {
          port.pcr[pin] := DisablePull(port.pcr[pin]);
        }
        port.pcr[pin] := ClearIrq(port.pcr[pin]);
        port.pcr[pin] := SetIrqMode(port.pcr[pin], c.irqMode);
      } else {
        result := E_NOT_OK;
      }
    } else {
      result := E_NOT_OK;
    }
  }

  /** `PORT_EnableInterrupt` as written: clears ISF and ORs the mode into
      IRQC without clearing IRQC first. */
  method EnableInterrupt(port: PortRegisters?, pin: u32, irqMode: u32) returns (result: Status)
    requires port != null ==> port.pcr.Length == PORT_MAX_PINS as int
    modifies if port != null then {port.pcr} else {}
    ensures result == E_OK <==> port != null && PinIsAvailable(pin)
    ensures port != null ==>
              port.pcr[..] == if result == E_OK
                              then old(port.pcr[..])[pin := old(port.pcr[pin]).(isf := false, irqc := old(port.pcr[pin]).irqc | IrqcField(irqMode))]
                              else old(port.pcr[..])
  {
    result := E_OK;
    if port != null {
      if PinIsAvailable(pin) {
        port.pcr[pin] := ClearIsf(port.pcr[pin]);
        port.pcr[pin] := SetIrqMode(port.pcr[pin], irqMode);
      } else {
        result := E_NOT_OK;
      }
    } else {
      result := E_NOT_OK;
    }
  }

  /** A pin left in "interrupt on falling edge" (0xA) and then enabled for
      "interrupt on rising edge" (0x9) ends up in "interrupt on either edge"
      (0xB), a mode nobody asked for. */
  lemma EnableInterruptMergesModes(r: Pcr)
    requires r.irqc == 0xA
    ensures SetIrqMode(ClearIsf(r), 0x9).irqc == 0xB
    ensures SetIrqMode(ClearIsf(r), 0x9).irqc != IrqcField(0x9)
  {
  }

  /** `PORT_EnableInterrupt` as evidently intended: IRQC holds exactly the
      requested mode afterwards. */
  method EnableInterruptIntended(port: PortRegisters?, pin: u32, irqMode: u32) returns (result: Status)
    requires port != null ==> port.pcr.Length == PORT_MAX_PINS as int
    modifies if port != null then {port.pcr} else {}
    ensures result == E_OK <==> port != null && PinIsAvailable(pin)
    ensures port != null ==>
              port.pcr[..] == if result == E_OK
                              then old(port.pcr[..])[pin := old(port.pcr[pin]).(isf := false, irqc := IrqcField(irqMode))]
                              else old(port.pcr[..])
  {
    result := E_OK;
    if port != null {
      if PinIsAvailable(pin) {
        port.pcr[pin] := ClearIsf(port.pcr[pin]);
        port.pcr[pin] := ClearIrq(port.pcr[pin]);
        port.pcr[pin] := SetIrqMode(port.pcr[pin], irqMode);
      } else {
        result := E_NOT_OK;
      }
    } else {
      result := E_NOT_OK;
    }
  }

  /** `PORT_DisableInterrupt`: clears IRQC of a valid pin; the write also
      clears a pending ISF. */
  method DisableInterrupt(port: PortRegisters?, pin: u32) returns (result: Status)
    requires port != null ==> port.pcr.Length == PORT_MAX_PINS as int
    modifies if port != null then {port.pcr} else {}
    ensures result == E_OK <==> port != null && PinIsAvailable(pin)
    ensures port != null ==>
              port.pcr[..] == if result == E_OK
                              then old(port.pcr[..])[pin := old(port.pcr[pin]).(irqc := 0, isf := false)]
                              else old(port.pcr[..])
  {
    result := E_OK;
    if port != null {
      if PinIsAvailable(pin) {
        port.pcr[pin] := ClearIrq(port.pcr[pin]);
      } else {
        result := E_NOT_OK;
      }
    } else {
      result := E_NOT_OK;
    }
  }

  /** The translation unit's globals: the five known ports (PORTA .. PORTE)
      and `PORT_callback_func_arr[5]`. */
  class PortDriver {
    const portA: PortRegisters
    const portB: PortRegisters
    const portC: PortRegisters
    const portD: PortRegisters
    const portE: PortRegisters
    const callbacks: array<FuncPtr>

    /** The five port blocks are distinct, each with its 32 pin registers,
        and the callback table has five slots. */
    ghost predicate Valid()
    {
      callbacks.Length == 5 &&
      portA.pcr.Length == 32 && portB.pcr.Length == 32 && portC.pcr.Length == 32 &&
      portD.pcr.Length == 32 && portE.pcr.Length == 32 &&
      portA != portB && portA != portC && portA != portD && portA != portE &&
      portB != portC && portB != portD && portB != portE &&
      portC != portD && portC != portE && portD != portE
    }

    constructor ()
      ensures Valid() && callbacks[..] == [Null, Null, Null, Null, Null] && fresh(callbacks)
      ensures fresh(portA) && fresh(portB) && fresh(portC) && fresh(portD) && fresh(portE)
      ensures fresh(portA.pcr) && fresh(portB.pcr) && fresh(portC.pcr) && fresh(portD.pcr) && fresh(portE.pcr)
    {
      portA := new PortRegisters();
      portB := new PortRegisters();
      portC := new PortRegisters();
      portD := new PortRegisters();
      portE := new PortRegisters();
      callbacks := new FuncPtr[5](_ => Null);
    }

    /** The callback slot of a port, found by comparing against PORTA ..
        PORTE in that order; None for any other port. */
    function SlotOf(port: PortRegisters): (k: Option<nat>)
      ensures k.Some? ==> k.value < 5
    {
      if port == portA then Some(0)
      else if port == portB then Some(1)
      else if port == portC then Some(2)
      else if port == portD then Some(3)
      else if port == portE then Some(4)
      else None
    }

    /** On a valid driver the five known ports get the slots 0..4, in order,
        and only they have a slot. */
    lemma {:induction false} SlotOfKnownPorts(port: PortRegisters)
      requires Valid()
      ensures SlotOf(portA) == Some(0) && SlotOf(portB) == Some(1) && SlotOf(portC) == Some(2)
      ensures SlotOf(portD) == Some(3) && SlotOf(portE) == Some(4)
      ensures SlotOf(port).Some? <==> port in {portA, portB, portC, portD, portE}
    {
    }

    /** `Register_InterruptHandler`: NOT_OK and no change for a NULL port or
        a NULL function; OK otherwise, storing the function in the port's
        slot, or nowhere when the port is none of PORTA .. PORTE. */
    method RegisterInterruptHandler(port: PortRegisters?, appFunction: FuncPtr) returns (result: Status)
      requires Valid()
      modifies callbacks
      ensures result == E_OK <==> port != null && appFunction != Null
      ensures callbacks[..] == if result == E_OK && SlotOf(port).Some?
                               then old(callbacks[..])[SlotOf(port).value := appFunction]
                               else old(callbacks[..])
    {
      result := E_OK;
      if null != port {
        if Null != appFunction {
          if port == portA {
            callbacks[0] := appFunction;
          } else if port == portB {
            callbacks[1] := appFunction;
          } else if port == portC {
            callbacks[2] := appFunction;
          } else if port == portD {
            callbacks[3] := appFunction;
          } else if port == portE {
            callbacks[4] := appFunction;
          }
        } else {
          result := E_NOT_OK;
        }
      } else {
        result := E_NOT_OK;
      }
    }
  }
}
