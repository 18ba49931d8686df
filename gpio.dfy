/** The GPIO driver of GPIO/Source/s32k144_gpio_driver.c: the per-port pin
    availability rule and the guarded direction, read and output operations.
    Output-side HAL calls are recorded in the port's log; the input data
    register PDIR is driven by the hardware and only read. */
module Gpio {
  import opened CTypes

  datatype Status = E_OK | E_NOT_OK

  // ARM_GPIO_DIRECTION of GPIO/Include/s32k144_gpio_driver.h
  const INPUT: u32 := 0
  const OUTPUT: u32 := 1

  /** One call into the GPIO HAL; the HAL takes `uint8_t` arguments. */
  datatype HalCall =
    | SetDirection(pin: u8, direction: u8)
    | SetPin(pin: u8)
    | ClearPin(pin: u8)
    | TogglePin(pin: u8)

  /** `GPIO_Type`: one port's registers. */
  class GpioRegisters {
    var pdir: bv32               // port data input register
    var log: seq<HalCall>        // HAL calls made on this port, oldest first
    constructor (pdir: bv32)
      ensures this.pdir == pdir && log == []
    {
      this.pdir := pdir;
      log := [];
    }
  }

  /** The bits 0 .. n-1 of a 32-bit word. */
  function LowMask(n: nat): bv32
    requires n < 32
  {
    (1 << n as bv5) - 1
  }

  /** Bit k of `w`, in place. */
  function Bit(w: bv32, k: nat): bv32
    requires k < 32
  {
    w & (1 << k as bv5)
  }

  /** Bits 0 .. n-1 of `w`, gathered one at a time. */
  function Bits(w: bv32, n: nat): bv32
    requires n < 32
  {
    if n == 0 then 0 else Bits(w, n - 1) | Bit(w, n - 1)
  }

  lemma LowMaskStep(k: nat)
    requires k < 31
    ensures LowMask(k + 1) == LowMask(k) | (1 << k as bv5)
  {
  }

  lemma AndOverOr(w: bv32, m: bv32, b: bv32)
    ensures (w & m) | (w & b) == w & (m | b)
  {
  }

  /** Gathering the low n bits one by one masks the word to them. */
  lemma {:induction false} BitsMask(w: bv32, n: nat)
    requires n < 32
    ensures Bits(w, n) == w & LowMask(n)
  {
    if n == 0 {
      assert LowMask(0) == 0;
    } else {
      BitsMask(w, n - 1);
      LowMaskStep(n - 1);
      AndOverOr(w, LowMask(n - 1), 1 << (n - 1) as bv5);
    }
  }

  /** `GPIO_Handle_Type` */
  datatype Handle = Handle(port: GpioRegisters?, pinNumber: u8, direction: u32)

  /** The driver's view of the ports: only PTE is told apart, since it has
      one pin fewer than the others. */
  class GpioDriver {
    const pte: GpioRegisters

    constructor ()
      ensures fresh(pte) && pte.pdir == 0 && pte.log == []
    {
      pte := new GpioRegisters(0);
    }

    /** PIN_IS_AVAILABLE(pin, port) */
    predicate PinIsAvailable(pin: u32, port: GpioRegisters?)
    {
      pin < if port == pte then 17 else 18
    }

    /** `GPIO_Init`: NOT_OK and no HAL call iff the pin is unavailable. The
        direction is passed to the HAL unchecked (truncated to a byte). */
    method Init(h: Handle) returns (result: Status)
      requires PinIsAvailable(h.pinNumber as u32, h.port) ==> h.port != null
      modifies h.port
      ensures result == E_OK <==> PinIsAvailable(h.pinNumber as u32, h.port)
      ensures h.port != null ==> h.port.pdir == old(h.port.pdir)
      ensures h.port != null ==>
                h.port.log == if result == E_OK
                              then old(h.port.log) + [SetDirection(h.pinNumber, (h.direction % 0x100) as u8)]
                              else old(h.port.log)
    {
      result := E_OK;
      if PinIsAvailable(h.pinNumber as u32, h.port) {
        h.port.log := h.port.log + [SetDirection(h.pinNumber, (h.direction % 0x100) as u8)];
      } else {
        result := E_NOT_OK;
      }
    }

    /** `GPIO_SetDirection`: like Init, but also rejects a direction other
        than INPUT or OUTPUT. */
    method SetPinDirection(port: GpioRegisters?, pin: u32, direction: u32) returns (result: Status)
      requires PinIsAvailable(pin, port) ==> port != null
      modifies port
      ensures result == E_OK <==> PinIsAvailable(pin, port) && (direction == INPUT || direction == OUTPUT)
      ensures port != null ==> port.pdir == old(port.pdir)
      ensures port != null ==>
                port.log == if result == E_OK
                            then old(port.log) + [SetDirection(pin as u8 , direction as u8)]
                            else old(port.log)
    {
      result := E_OK;
      if PinIsAvailable(pin, port) && (direction == INPUT || direction == OUTPUT) {
        port.log := port.log + [SetDirection(pin as u8, direction as u8)];
      } else {
        result := E_NOT_OK;
      }
    }

    /** `GPIO_ReadPin`: the pin's input bit, or 0 for an unavailable pin. */
    function ReadPin(port: GpioRegisters?, pin: u32): (v: u32)
      requires PinIsAvailable(pin, port) ==> port != null
      reads port
      ensures v == 0 || v == 1
      ensures v == 1 <==> PinIsAvailable(pin, port) && port.pdir & (1 << pin as bv5) != 0
    {
      if PinIsAvailable(pin, port) && (port.pdir >> pin as bv5) & 1 == 1 then 1 else 0
    }

    /** `GPIO_ReadPort`: the whole input register. */
    function ReadPort(port: GpioRegisters): bv32
      reads port
    {
      port.pdir
    }

    /** The number of available pins of `port`: pins 0 .. PinCount - 1. */
    function PinCount(port: GpioRegisters?): (n: nat)
      ensures forall pin: u32 :: PinIsAvailable(pin, port) <==> pin as nat < n
    {
      if port == pte then 17 else 18
    }

    /** The first `n` pins of `port`, read one at a time with ReadPin and
        put together at their bit positions. */
    function PinsRead(port: GpioRegisters, n: nat): bv32
      requires n <= PinCount(port)
      reads port
      decreases n
    {
      if n == 0 then 0
      else
        var pin := (n - 1) as u32;
        PinsRead(port, n - 1) | (if ReadPin(port, pin) == 1 then 1 << pin as bv5 else 0)
    }

    /** An available pin's read, put back at its bit position, is that bit
        of the port's input register. */
    lemma ReadPinBit(port: GpioRegisters, pin: u32)
      requires PinIsAvailable(pin, port)
      ensures (if ReadPin(port, pin) == 1 then 1 << pin as bv5 else 0) == Bit(port.pdir, pin as nat)
    {
    }

    /** Reading pins 0 .. n-1 one by one gathers the same bits as reading
        them out of the whole-port value. */
    lemma {:induction false} ReadPortFromPins(port: GpioRegisters, n: nat)
      requires n <= PinCount(port)
      ensures PinsRead(port, n) == Bits(ReadPort(port), n)
      decreases n
    {
      if n > 0 {
        var pin := (n - 1) as u32;
        var x := if ReadPin(port, pin) == 1 then 1 << pin as bv5 else 0;
        assert PinsRead(port, n) == PinsRead(port, n - 1) | x;
        assert Bits(ReadPort(port), n) == Bits(ReadPort(port), n - 1) | Bit(ReadPort(port), n - 1);
        ReadPortFromPins(port, n - 1);
        ReadPinBit(port, pin);
        assert x == Bit(ReadPort(port), n - 1);
      }
    }

    /** On its available pins, GPIO_ReadPort agrees with GPIO_ReadPin pin by
        pin. */
    lemma ReadPortAgreesWithReadPin(port: GpioRegisters)
      ensures PinsRead(port, PinCount(port)) == ReadPort(port) & LowMask(PinCount(port))
    {
      ReadPortFromPins(port, PinCount(port));
      BitsMask(ReadPort(port), PinCount(port));
    }

    /** `GPIO_SetPin`, `GPIO_ClearPin`, `GPIO_TogglePin`: NOT_OK and no HAL
        call for an unavailable pin; otherwise the call `call` and OK. */
    method GuardedOutput(port: GpioRegisters?, pin: u32, call: HalCall) returns (result: Status)
      requires PinIsAvailable(pin, port) ==> port != null
      modifies port
      ensures result == E_OK <==> PinIsAvailable(pin, port)
      ensures port != null ==> port.pdir == old(port.pdir)
      ensures port != null ==> port.log == if result == E_OK then old(port.log) + [call] else old(port.log)
    {
      result := E_OK;
      if PinIsAvailable(pin, port) {
        port.log := port.log + [call];
      } else {
        result := E_NOT_OK;
      }
    }

    method SetOutputPin(port: GpioRegisters?, pin: u32) returns (result: Status)
      requires PinIsAvailable(pin, port) ==> port != null
      modifies port
      ensures result == E_OK <==> PinIsAvailable(pin, port)
      ensures port != null ==> port.pdir == old(port.pdir)
      ensures port != null ==>
                port.log == if result == E_OK then old(port.log) + [SetPin((pin % 0x100) as u8)] else old(port.log)
    {
      result := GuardedOutput(port, pin, SetPin((pin % 0x100) as u8));
    }

    method ClearOutputPin(port: GpioRegisters?, pin: u32) returns (result: Status)
      requires PinIsAvailable(pin, port) ==> port != null
      modifies port
      ensures result == E_OK <==> PinIsAvailable(pin, port)
      ensures port != null ==> port.pdir == old(port.pdir)
      ensures port != null ==>
                port.log == if result == E_OK then old(port.log) + [ClearPin((pin % 0x100) as u8)] else old(port.log)
    {
      result := GuardedOutput(port, pin, ClearPin((pin % 0x100) as u8));
    }

    method ToggleOutputPin(port: GpioRegisters?, pin: u32) returns (result: Status)
      requires PinIsAvailable(pin, port) ==> port != null
      modifies port
      ensures result == E_OK <==> PinIsAvailable(pin, port)
      ensures port != null ==> port.pdir == old(port.pdir)
      ensures port != null ==>
                port.log == if result == E_OK then old(port.log) + [TogglePin((pin % 0x100) as u8)] else old(port.log)
    {
      result := GuardedOutput(port, pin, TogglePin((pin % 0x100) as u8));
    }
  }
}
