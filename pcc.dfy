/** The PCC driver of PCC/Source/s32k144_pcc_driver.c: the status each
    operation returns and the HAL call it makes. The CGC (clock gate) bit of
    PCCn[peripheralIndex], which the driver reads, and the PR (present) bit,
    which the HAL reads, are parameters. */
module Pcc {
  import opened CTypes

  datatype Status = E_OK | E_NOT_OK

  // Encodings from PCC/Include/s32k144_pcc_hal.h
  const PCD_DIVIDE_BY_1: u32 := 0
  const PCD_DIVIDE_BY_8: u32 := 7
  const PCD_FRACTIONAL_VALUE_0: u32 := 0
  const PR_BIT_SET: u32 := 1
  const PR_BIT_CLEAR: u32 := 0

  /** One call into the PCC HAL, with its arguments. */
  datatype HalCall =
    | EnablePeripheralClock(index: u32)
    | CheckPr(index: u32)
    | ClockSourceSelect(index: u32, source: u32)
    | ClockDividerSelect(index: u32, divider: u32, fraction: u32)
    | DisablePeripheralClock(index: u32)

  /** The PCC register block; `log` holds the HAL calls made on it. */
  class PccModule {
    var log: seq<HalCall>

    constructor ()
      ensures log == []
    {
      log := [];
    }

    /** HAL_Enable_Peripheral_Clock, which always returns 0. */
    method HalEnable(index: u32) returns (code: u32)
      modifies this
      ensures code == 0 && log == old(log) + [EnablePeripheralClock(index)]
    {
      log := log + [EnablePeripheralClock(index)];
      code := 0;
    }

    /** HAL_Disable_Peripheral_Clock, which always returns 0. */
    method HalDisable(index: u32) returns (code: u32)
      modifies this
      ensures code == 0 && log == old(log) + [DisablePeripheralClock(index)]
    {
      log := log + [DisablePeripheralClock(index)];
      code := 0;
    }

    /** HAL_Check_PR: reports the PR bit as PR_BIT_SET or PR_BIT_CLEAR. */
    method HalCheckPr(index: u32, prSet: bool) returns (code: u32)
      modifies this
      ensures code == PR_BIT_SET <==> prSet
      ensures code == PR_BIT_SET || code == PR_BIT_CLEAR
      ensures log == old(log) + [CheckPr(index)]
    {
      log := log + [CheckPr(index)];
      code := if prSet then PR_BIT_SET else PR_BIT_CLEAR;
    }

    /** `PCC_Init`: always OK, since the HAL enable call returns 0. */
    method Init(peripheralIndex: u32) returns (status: Status)
      modifies this
      ensures status == E_OK
      ensures log == old(log) + [EnablePeripheralClock(peripheralIndex)]
    {
      status := E_OK;
      var code := HalEnable(peripheralIndex);
      if code != 0 {
        status := E_NOT_OK;
      }
    }

    /** `PCC_Check_PR` as written: NOT_OK iff the clock gate is on. The PR
        value the HAL reports is discarded, so the status says nothing about
        whether the peripheral is present. */
    method CheckPresent(peripheralIndex: u32, cgcSet: bool, prSet: bool) returns (status: Status)
      modifies this
      ensures status == E_NOT_OK <==> cgcSet
      ensures log == old(log) + [CheckPr(peripheralIndex)]
    {
      status := E_OK;
      if cgcSet {
        status := E_NOT_OK;
      }
      var _ := HalCheckPr(peripheralIndex, prSet);
    }

    /** `PCC_Check_PR` as evidently intended: OK iff the HAL reports the
        peripheral present. */
    method CheckPresentIntended(peripheralIndex: u32, prSet: bool) returns (status: Status)
      modifies this
      ensures status == E_OK <==> prSet
      ensures log == old(log) + [CheckPr(peripheralIndex)]
    {
      var code := HalCheckPr(peripheralIndex, prSet);
      status := if code == PR_BIT_SET then E_OK else E_NOT_OK;
    }

    /** `PCC_Clock_Source_Select`: NOT_OK when the clock gate is on, and the
        source is written in either case. */
    method ClockSourceSelect(peripheralIndex: u32, source: u32, cgcSet: bool) returns (status: Status)
      modifies this
      ensures status == E_NOT_OK <==> cgcSet
      ensures log == old(log) + [HalCall.ClockSourceSelect(peripheralIndex, source)]
    {
      status := E_OK;
      if cgcSet {
        status := E_NOT_OK;
      }
      log := log + [HalCall.ClockSourceSelect(peripheralIndex, source)];
    }

    /** `PCC_Clock_Divider_Select`: OK iff the divider is at most DIVIDE_BY_8,
        the clock gate is off, and a DIVIDE_BY_1 divider comes with a zero
        fraction. The divider and fraction are written in every case. */
    method ClockDividerSelect(peripheralIndex: u32, divider: u32, fraction: u32, cgcSet: bool)
      returns (status: Status)
      modifies this
      ensures status == E_OK <==>
                divider <= PCD_DIVIDE_BY_8 && !cgcSet &&
                (divider == PCD_DIVIDE_BY_1 ==> fraction == PCD_FRACTIONAL_VALUE_0)
      ensures log == old(log) + [HalCall.ClockDividerSelect(peripheralIndex, divider, fraction)]
    {
      status := E_OK;
      if divider > PCD_DIVIDE_BY_8 || cgcSet {
        status := E_NOT_OK;
      } else if divider == PCD_DIVIDE_BY_1 && fraction != PCD_FRACTIONAL_VALUE_0 {
        status := E_NOT_OK;
      }
      log := log + [HalCall.ClockDividerSelect(peripheralIndex, divider, fraction)];
    }

    /** `PCC_De_Init`: always OK, since the HAL disable call returns 0. */
    method DeInit(peripheralIndex: u32) returns (status: Status)
      modifies this
      ensures status == E_OK
      ensures log == old(log) + [DisablePeripheralClock(peripheralIndex)]
    {
      status := E_OK;
      var code := HalDisable(peripheralIndex);
      if code != 0 {
        status := E_NOT_OK;
      }
    }
  }

  /** A peripheral that is absent (PR clear) and not clock-gated passes the
      as-written check, while the intended check rejects it. */
  method AbsentPeripheralPassesCheck() returns (asWritten: Status, intended: Status)
    ensures asWritten == E_OK && intended == E_NOT_OK
  {
    var pcc := new PccModule();
    asWritten := pcc.CheckPresent(0, false, false);
    intended := pcc.CheckPresentIntended(0, false);
  }
}
