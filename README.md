# S32K144 ring buffer and peripheral driver guards, in Dafny

This project models the bare-metal S32K144 firmware in two parts.

- **The ring buffer** (module `RingBuffer`) is the bounded circular byte queue of
  `RingBuffer/RingBuffer.c`. `Queue` is a class whose fields are the C struct's
  `uint8_t` fields `front`, `tail`, `size` and `capacity`, plus the caller's byte
  array. A ghost function `Contents()` gives the logical FIFO contents: the
  `size` bytes from `front` onwards, wrapping around at `capacity`. `Push` and
  `Pop` are proved against `Contents()`: push appends, pop removes the head,
  across wrap-around too. Both keep the index invariant
  `tail == (front + size) mod capacity`.
- **The four peripheral drivers** are LPUART (`Lpuart`), PORT (`Port`), GPIO
  (`Gpio`) and PCC (`Pcc`). Their argument checks are modelled exactly,
  together with the status each function returns and which HAL call it makes
  with which value.
  - A register block is a class, and a C pointer comparison against a known
    base address (`LPUART0`, `PORTA`, `PTE`, …) is object identity against a
    `const` field. `null` stands for `NULL`.
  - For LPUART, GPIO and PCC, the HAL calls are recorded in order in a `log`
    sequence.
  - For PORT, the pin control register is modelled field by field (MUX, PE,
    PS, IRQC, ISF). This is because the driver's behaviour depends on
    read-modify-write effects on those fields.
  - The callback tables `LPUART_Callback[3]` and `PORT_callback_func_arr[5]`
    are arrays owned by a driver class.

`CTypes` holds the shared fixed-width integer types (`u8`, `u16`, `u32`), a
nullable function pointer and `Option`.

`queueInit`'s comment says it initialises the queue
(`RingBuffer/RingBuffer.c:25-33`), but it binds only the capacity and the
array; it leaves `front`, `tail` and `size` as they were
(`RingBuffer/RingBuffer.c:34-38`). `Queue.Init` therefore promises a valid,
empty queue only when the indices were already zero, as they are for a queue
object with static storage duration (`Queue.constructor`). A queue with a
NULL array and a zero capacity is valid: it is both full and empty, so a push
does nothing and a pop returns 0 without touching the array. A pop on any
empty queue returns 0.

## Model

| member | source | states |
|---|---|---|
| RingBuffer.Wrap | RingBuffer/RingBuffer.c:53-54 | each index step: for i < cap and n <= cap, the result equals (i + n) mod cap and is below cap |
| RingBuffer.Window | RingBuffer/RingBuffer.h:12-18 | the logical contents of a ring holding `size` bytes is exactly `size` long |
| RingBuffer.WindowAt | RingBuffer/RingBuffer.c:75-76 | the k-th queued byte is stored at slot (front + k) mod capacity |
| RingBuffer.WindowPush | RingBuffer/RingBuffer.c:52-54 | writing x at (front + size) mod capacity and growing the window by one appends x to the contents, also when that slot wraps to 0 |
| RingBuffer.WindowPop | RingBuffer/RingBuffer.c:75-77 | the head of a non-empty window is buf[front]; the rest is the window from (front + 1) mod capacity with one byte fewer |
| RingBuffer.Queue.Contents | RingBuffer/RingBuffer.h:12-18 | the FIFO contents of a valid queue hold exactly `size` bytes |
| RingBuffer.Queue.constructor | RingBuffer/RingBuffer.h:12-18 | a fresh queue object has every field zero and no array; it is already a valid, empty queue |
| RingBuffer.Queue.IsFull | RingBuffer/RingBuffer.c:19 | on a valid queue, QUEUE_IS_FULL holds iff the contents fill the whole capacity |
| RingBuffer.Queue.IsEmpty | RingBuffer/RingBuffer.c:20 | on a valid queue, QUEUE_IS_EMPTY holds iff the contents are empty |
| RingBuffer.Queue.Init | RingBuffer/RingBuffer.c:34-38 | only `capacity` and `queueArr` change; front, tail and size keep their values; the queue is valid iff the array holds `capacity` bytes (or is NULL with capacity 0) and the kept indices are consistent with the new capacity; from zeroed indices it is valid and empty |
| RingBuffer.Queue.Push | RingBuffer/RingBuffer.c:48-60 | when full, nothing changes. Otherwise `data` is stored at the old tail, tail becomes (tail + 1) mod capacity and size grows by 1, so the contents gain `data` at the end. Validity (size <= capacity, indices below capacity, tail == (front + size) mod capacity) is preserved |
| RingBuffer.Queue.Pop | RingBuffer/RingBuffer.c:69-85 | when empty, returns 0 and changes nothing. Otherwise returns queueArr[front], which is the oldest byte; front becomes (front + 1) mod capacity and size drops by 1, so the contents lose their head. The array is untouched and validity is preserved |
| Lpuart.DecodeEncode | UART/Include/s32k144_lpuart_driver.h:19-58 | every typed setting encodes to bytes that decode back to it |
| Lpuart.EncodeDecode | UART/Include/s32k144_lpuart_driver.h:75-91 | a byte configuration that decodes re-encodes to itself |
| Lpuart.FieldsInRange | UART/Source/s32k144_lpuart_driver.c:56-81 | the per-field checks of the validator, written against the header encodings (frame length 7..10, parity <= 2, each two-valued field one of its two values); its meaning is FieldsInRangeDecode |
| Lpuart.FieldsInRangeDecode | UART/Source/s32k144_lpuart_driver.c:57-81 | the validator's field checks accept exactly the byte configurations whose every field holds one of its defined encodings |
| Lpuart.QuarterBound | UART/Source/s32k144_lpuart_driver.c:19 | baudRate <= clock / 4 in unsigned division iff 4 * baudRate <= clock |
| Lpuart.TxFrames | UART/Source/s32k144_lpuart_driver.c:265-268 | the transmit calls for a buffer are one 7/8-bit frame per element, element i in position i |
| Lpuart.TxFrames16 | UART/Source/s32k144_lpuart_driver.c:311-314 | the same for 9/10-bit frames |
| Lpuart.RxFrames | UART/Source/s32k144_lpuart_driver.c:357-360 | n receive loop steps make exactly n receive calls |
| Lpuart.ConfigCalls | UART/Source/s32k144_lpuart_driver.c:111-137 | the fourteen settings LPUART_Init applies, in source order, each carrying its configured field |
| Lpuart.InitCalls | UART/Source/s32k144_lpuart_driver.c:108-140 | a successful init makes 18 HAL calls: first ClearTE, ClearRE, then exactly ConfigCalls, then SetTE, SetRE |
| Lpuart.InitConfiguresWhileDisabled | UART/Source/s32k144_lpuart_driver.c:108-137 | replaying the init sequence from any TE/RE state, both transmitter and receiver are off from the third call through the sixteenth, so every setting is applied with both disabled |
| Lpuart.InitEndsEnabled | UART/Source/s32k144_lpuart_driver.c:139-140 | from any TE/RE state, the full init sequence leaves both transmitter and receiver enabled |
| Lpuart.StateSettersLeaveEnables | UART/Source/s32k144_lpuart_driver.c:156-188 | the interrupt-setter call that LPUART_SetTxState / LPUART_SetRxState makes leaves TE and RE as they were, for every enable value |
| Lpuart.StateCallsSetEnables | UART/Source/s32k144_lpuart_hal.c:149-185 | SetTE/ClearTE (SetRE/ClearRE) for enable 1/0 leave TE (RE) equal to enable and the other flag unchanged |
| Lpuart.LpuartDriver.constructor | UART/Source/s32k144_lpuart_driver.c:26 | the callback table starts with three NULL slots; the three instances are fresh, distinct and have made no HAL call yet |
| Lpuart.LpuartDriver.IsInstance | UART/Source/s32k144_lpuart_driver.c:21 | INSTANCE_IS_AVAILABLE: true exactly for LPUART0, LPUART1 and LPUART2 |
| Lpuart.LpuartDriver.MaxBaudRate | UART/Source/s32k144_lpuart_driver.c:19 | MAX_BAUDRATE is the quarter of the clock rounded down: 4 * m <= clock < 4 * (m + 1) |
| Lpuart.LpuartDriver.SlotOf | UART/Source/s32k144_lpuart_driver.c:527-538 | each known instance has one of the slots 0..2 |
| Lpuart.LpuartDriver.CheckHandleValidation | UART/Source/s32k144_lpuart_driver.c:52-89 | OK iff the instance is LPUART0/1/2, the configuration decodes (frame length 7..10, parity <= 2, stop bits, bit order, interrupt and inversion flags each 0 or 1) and 0 < baudRate with 4 * baudRate <= clock |
| Lpuart.LpuartDriver.Init | UART/Source/s32k144_lpuart_driver.c:101-146 | the status is the validator's verdict. On NOT_OK no HAL call is made. On OK exactly InitCalls is appended to the log (the baud rate through BaudRateConfig), so the settings are applied while TX and RX are disabled and both end enabled |
| Lpuart.LpuartDriver.BaudRateConfig | UART/Source/s32k144_lpuart_driver.c:198-227 | OK iff the instance is known and 0 < baudRate <= clock / 4; exactly one baud-rate write then, none otherwise |
| Lpuart.LpuartDriver.GuardedSetter | UART/Source/s32k144_lpuart_driver.c:160-164 | the shared on/off guard: OK iff the instance is known and enable is 0 or 1; exactly the one HAL call then, none otherwise |
| Lpuart.LpuartDriver.SetTxState | UART/Source/s32k144_lpuart_driver.c:156-167 | as written: guarded as above; the call made is the TX interrupt setter, not a transmitter start or stop |
| Lpuart.LpuartDriver.SetTxStateIntended | UART/Source/s32k144_lpuart_driver.c:148-167 | corrected: guarded as above; the call made is SetTE for enable 1, ClearTE for enable 0 |
| Lpuart.LpuartDriver.SetRxState | UART/Source/s32k144_lpuart_driver.c:177-188 | as written: guarded as above; the call made is the RX interrupt setter, not a receiver start or stop |
| Lpuart.LpuartDriver.SetRxStateIntended | UART/Source/s32k144_lpuart_driver.c:169-188 | corrected: guarded as above; the call made is SetRE for enable 1, ClearRE for enable 0 |
| Lpuart.LpuartDriver.TxInterruptConfig | UART/Source/s32k144_lpuart_driver.c:374-385 | guarded; sets the TX interrupt enable to `enable` |
| Lpuart.LpuartDriver.TxCompleteInterruptConfig | UART/Source/s32k144_lpuart_driver.c:395-406 | guarded; sets the TX-complete interrupt enable |
| Lpuart.LpuartDriver.RxInterruptConfig | UART/Source/s32k144_lpuart_driver.c:416-427 | guarded; sets the RX interrupt enable |
| Lpuart.LpuartDriver.OverRunInterruptConfig | UART/Source/s32k144_lpuart_driver.c:437-448 | guarded; sets the overrun interrupt enable |
| Lpuart.LpuartDriver.NoiseErrorInterruptConfig | UART/Source/s32k144_lpuart_driver.c:458-469 | as written: guarded, but the call made is the OVERRUN setter, and no noise-error call is ever made |
| Lpuart.LpuartDriver.NoiseErrorInterruptConfigIntended | UART/Source/s32k144_lpuart_driver.c:458-469 | corrected: guarded; sets the noise-error interrupt enable |
| Lpuart.LpuartDriver.FrameErrorInterruptConfig | UART/Source/s32k144_lpuart_driver.c:479-490 | guarded; sets the frame-error interrupt enable |
| Lpuart.LpuartDriver.ParityErrorInterruptConfig | UART/Source/s32k144_lpuart_driver.c:500-511 | guarded; sets the parity-error interrupt enable |
| Lpuart.LpuartDriver.TxFrame7_8 | UART/Source/s32k144_lpuart_driver.c:237-248 | OK iff the instance is known; one 7/8-bit frame sent then |
| Lpuart.LpuartDriver.TxMultiFrame7_8 | UART/Source/s32k144_lpuart_driver.c:259-273 | NOT_OK with nothing sent for an unknown instance, len == 0 or a NULL buffer; otherwise buf[0..len) is sent in index order |
| Lpuart.LpuartDriver.TxFrame9_10 | UART/Source/s32k144_lpuart_driver.c:283-294 | OK iff the instance is known; one 9/10-bit frame sent then |
| Lpuart.LpuartDriver.TxMultiFrame9_10 | UART/Source/s32k144_lpuart_driver.c:305-319 | as TxMultiFrame7_8, for 16-bit frames |
| Lpuart.LpuartDriver.RxFrame | UART/Source/s32k144_lpuart_driver.c:329-340 | OK iff the instance is known and the buffer non-NULL; one receive call then, whose frame is truncated to its low byte and stored in rx[0]; nothing changes otherwise |
| Lpuart.LpuartDriver.RxMultiFrame | UART/Source/s32k144_lpuart_driver.c:351-364 | as written: always returns 0. When the instance is known, the first buffer element is nonzero and len != 0, it still stores len received frames in buf[0..len) and leaves the rest of the buffer alone; otherwise nothing changes |
| Lpuart.LpuartDriver.RxMultiFrameIntended | UART/Source/s32k144_lpuart_driver.c:351-364 | corrected: the buffer pointer is NULL-checked and the count of frames stored (len) is returned |
| Lpuart.LpuartDriver.CallbackRegister | UART/Source/s32k144_lpuart_driver.c:521-548 | OK iff the instance is known and the handler is non-NULL. Then exactly that instance's slot is overwritten; otherwise the table is unchanged |
| Lpuart.LpuartDriver.DeInit | UART/Source/s32k144_lpuart_driver.c:557-568 | OK iff the instance is known; one de-init call then, none otherwise |
| Port.PinIsAvailable | PORT/Include/s32k144_port_hal.h:27 | PIN_IS_AVAILABLE: a pin number below PORT_MAX_PINS (32) |
| Port.ClearMux | PORT/Source/s32k144_port_hal.c:32-52 | HAL_Port_ClearMux: MUX becomes 0; the read-modify-write clears a pending ISF; PE, PS, IRQC kept |
| Port.SetMux | PORT/Source/s32k144_port_hal.c:65-85 | HAL_Port_SetMux: the mode, masked to 3 bits, is ORed into MUX; ISF cleared; the rest kept |
| Port.EnablePull | PORT/Source/s32k144_port_hal.c:97-117 | HAL_Port_EnablePull: PE set; ISF cleared; the rest kept |
| Port.DisablePull | PORT/Source/s32k144_port_hal.c:129-149 | HAL_Port_DisablePull: PE cleared; ISF cleared; the rest kept |
| Port.SetPullUp | PORT/Source/s32k144_port_hal.c:162-182 | HAL_Port_SetPullUp: PS set; ISF cleared; the rest kept |
| Port.SetPullDown | PORT/Source/s32k144_port_hal.c:195-215 | HAL_Port_SetPullDown: PS cleared; ISF cleared; the rest kept |
| Port.ClearIrq | PORT/Source/s32k144_port_hal.c:227-247 | HAL_Port_ClearIrq: IRQC becomes 0; ISF cleared; the rest kept |
| Port.SetIrqMode | PORT/Source/s32k144_port_hal.c:261-281 | HAL_Port_SetIrqMode: the mode, masked to 4 bits, is ORed into IRQC; ISF cleared; the rest kept |
| Port.ClearIsf | PORT/Source/s32k144_port_driver.c:125 | the explicit write of 1 to ISF clears only the flag |
| Port.PullEnabledAfter | PORT/Source/s32k144_port_driver.c:54-82 | PE after PORT_Init: set for ENABLE, cleared for DISABLE, kept for any other value |
| Port.PullSelectAfter | PORT/Source/s32k144_port_driver.c:54-73 | PS after PORT_Init: set for ENABLE with PULLUP, cleared for ENABLE with PULLDOWN, kept otherwise |
| Port.Configured | PORT/Source/s32k144_port_driver.c:48-88 | the pin register after PORT_Init: configured MUX and IRQC, pull fields as above, ISF clear |
| Port.Init | PORT/Source/s32k144_port_driver.c:40-101 | NOT_OK with no pin change for a NULL port, a NULL configuration or pin >= 32. Otherwise only that pin's register changes, to Configured of its old value: MUX and IRQC hold the configured values (cleared, then set), the pull fields follow the configured enable and select, and a pending ISF is cleared by the read-modify-write HAL writes |
| Port.EnableInterrupt | PORT/Source/s32k144_port_driver.c:115-139 | as written: NOT_OK with no change for a NULL port or pin >= 32; otherwise clears ISF and ORs the mode into IRQC without clearing it |
| Port.EnableInterruptMergesModes | PORT/Source/s32k144_port_driver.c:125-126 | a pin in mode 0xA enabled with mode 0x9 ends in mode 0xB, not the requested 0x9 |
| Port.EnableInterruptIntended | PORT/Source/s32k144_port_driver.c:115-139 | corrected: IRQC holds exactly the requested mode afterwards |
| Port.DisableInterrupt | PORT/Source/s32k144_port_driver.c:151-172 | NOT_OK with no change for a NULL port or pin >= 32; otherwise only that pin's register changes: IRQC is cleared, and so is a pending ISF, by the read-modify-write |
| Port.PortDriver.constructor | PORT/Source/s32k144_port_driver.c:22 | the callback table starts with five NULL slots; PORTA..PORTE are five fresh, pairwise distinct register blocks of 32 PCRs each |
| Port.PortDriver.SlotOf | PORT/Source/s32k144_port_driver.c:191-214 | PORTA..PORTE map to slots 0..4; any other port has no slot |
| Port.PortDriver.SlotOfKnownPorts | PORT/Source/s32k144_port_driver.c:191-210 | on a valid driver PORTA..PORTE get the slots 0..4 in that order, and a port has a slot iff it is one of them |
| Port.PortDriver.RegisterInterruptHandler | PORT/Source/s32k144_port_driver.c:184-227 | NOT_OK with no change for a NULL port or a NULL function. Otherwise OK and the function is stored in the port's slot only; nothing is stored for a port that is none of PORTA..PORTE |
| Gpio.GpioDriver.PinIsAvailable | GPIO/Source/s32k144_gpio_driver.c:29 | PIN_IS_AVAILABLE: pins below 17 on PTE, below 18 on any other port |
| Gpio.GpioDriver.PinCount | GPIO/Source/s32k144_gpio_driver.c:29 | a pin is available on a port iff it is below that port's pin count |
| Gpio.GpioDriver.Init | GPIO/Source/s32k144_gpio_driver.c:40-54 | NOT_OK with no HAL call iff the pin is unavailable (pin >= 17 on PTE, pin >= 18 elsewhere); the direction is passed on unchecked; PDIR unchanged |
| Gpio.GpioDriver.SetPinDirection | GPIO/Source/s32k144_gpio_driver.c:64-79 | OK iff the pin is available and the direction is INPUT or OUTPUT; one direction write then, none otherwise |
| Gpio.GpioDriver.ReadPin | GPIO/Source/s32k144_gpio_driver.c:88-99 | the result is 0 or 1; it is 1 iff the pin is available and its PDIR bit is set, so an unavailable pin reads 0 |
| Gpio.GpioDriver.ReadPort | GPIO/Source/s32k144_gpio_driver.c:107-110 | GPIO_ReadPort returns the whole input register; its relation to ReadPin is ReadPortAgreesWithReadPin |
| Gpio.BitsMask | GPIO/Source/s32k144_gpio_driver.c:107-110 | gathering bits 0..n-1 of a word one at a time equals masking the word with its low n bits |
| Gpio.GpioDriver.ReadPinBit | GPIO/Source/s32k144_gpio_driver.c:88-99 | an available pin's read, placed back at its bit position, is that bit of PDIR |
| Gpio.GpioDriver.ReadPortFromPins | GPIO/Source/s32k144_gpio_driver.c:88-110 | reading pins 0..n-1 with GPIO_ReadPin and placing each result at its bit gathers the same bits as taking them from GPIO_ReadPort |
| Gpio.GpioDriver.ReadPortAgreesWithReadPin | GPIO/Source/s32k144_gpio_driver.c:88-110 | on every port, the available pins read one by one reassemble exactly GPIO_ReadPort masked to the available pins |
| Gpio.GpioDriver.GuardedOutput | GPIO/Source/s32k144_gpio_driver.c:125-133 | the shared output guard: OK iff the pin is available; one HAL call then, none otherwise |
| Gpio.GpioDriver.SetOutputPin | GPIO/Source/s32k144_gpio_driver.c:120-134 | guarded; a set-pin call for that pin |
| Gpio.GpioDriver.ClearOutputPin | GPIO/Source/s32k144_gpio_driver.c:144-158 | guarded; a clear-pin call for that pin |
| Gpio.GpioDriver.ToggleOutputPin | GPIO/Source/s32k144_gpio_driver.c:167-181 | guarded; a toggle-pin call for that pin |
| Pcc.PccModule.HalEnable | PCC/Source/s32k144_pcc_hal.c:111-116 | the enable call always returns 0 |
| Pcc.PccModule.HalDisable | PCC/Source/s32k144_pcc_hal.c:159-164 | the disable call always returns 0 |
| Pcc.PccModule.Init | PCC/Source/s32k144_pcc_driver.c:38-51 | always OK; one clock-enable call |
| Pcc.PccModule.HalCheckPr | PCC/Source/s32k144_pcc_hal.c:99-103 | reports PR_BIT_SET iff the PR bit is set, PR_BIT_CLEAR otherwise; one PR check call |
| Pcc.PccModule.CheckPresent | PCC/Source/s32k144_pcc_driver.c:59-70 | as written: NOT_OK iff the CGC bit is set, whatever the PR bit; the PR check call is made either way and its value discarded |
| Pcc.PccModule.CheckPresentIntended | PCC/Source/s32k144_pcc_driver.c:53-70 | corrected: OK iff the PR bit reports the peripheral present; the same single PR check call |
| Pcc.AbsentPeripheralPassesCheck | PCC/Source/s32k144_pcc_driver.c:61-68 | an absent peripheral (PR clear) whose clock gate is off gets OK from the as-written check and NOT_OK from the corrected one |
| Pcc.PccModule.ClockSourceSelect | PCC/Source/s32k144_pcc_driver.c:80-92 | NOT_OK iff the CGC bit is set; the source-select write happens in both cases |
| Pcc.PccModule.ClockDividerSelect | PCC/Source/s32k144_pcc_driver.c:103-120 | OK iff divider <= DIVIDE_BY_8, the CGC bit is clear, and DIVIDE_BY_1 comes with a zero fraction; the divider/fraction write happens regardless of the status |
| Pcc.PccModule.DeInit | PCC/Source/s32k144_pcc_driver.c:129-142 | always OK; one clock-disable call |

## Left out

- The HAL source files are not modelled as register bit operations. Their
  effect is a log entry naming the call and its arguments. The exceptions are
  the PORT field updates, which are written out on the PCR fields, and the
  PCC HAL return codes. The register layout masks come from `S32K144.h`,
  which is not part of this model.
- The LPUART baud-rate search (OSR/SBR choice by `float` percentage error) is
  not modelled. `SetBaudrate(baudRate)` stands for the one `HAL_LPUART_SetBaudrate`
  call with whatever pair the search picks; only the integer guard is modelled.
- The HAL frame-length switch expects 0..3 while the driver passes 7..10. The
  log records the value the driver passes; what the HAL then does with it is
  not modelled.
- `SCG_SystemClock_Config` is not modelled. Its HAL function has no return
  statement, so the status it forwards is undefined.
- The IRQ handlers that call the stored function pointers are left out. They
  only call foreign code.
- Busy-waits on hardware status flags inside the HAL are left out. The frames
  the receiver delivers are a parameter (`incoming`, `frame`).
- The PCC register `PCCn[index]` is not modelled as state. The CGC bit the
  driver reads from it is a parameter (`cgcSet`), and so is the PR bit that
  `HAL_Check_PR` reads (`prSet`).
- Concurrency between an interrupt handler and main-line code on the queue is
  left out. The queue has no atomicity, and the model is single-threaded.
- GPIO: PDIR is an input the hardware drives, so no operation changes it. The
  direction, set, clear and toggle writes (PDDR, PSOR, PCOR, PTOR) are log
  entries. `GPIO_ReadPort` is the plain function `ReadPort`, related to
  `ReadPin` by a lemma.
- Lpuart.LpuartDriver.RxMultiFrame: the model requires a non-NULL buffer with
  at least one element when the instance is known, because the C guard reads
  `*pRxBuffer` before any pointer check and a NULL buffer is undefined
  behaviour.
- Gpio.GpioDriver.Init: the model requires a non-NULL port when the pin is
  available; the C code dereferences the port without a NULL check there.
- RingBuffer.Queue.Push: the model requires a valid queue: an array of at
  least `capacity` bytes, or a NULL array with a zero capacity, and indices
  consistent with the capacity. The never-initialised queue and
  `queueInit(q, NULL, 0)` are covered. Excluded are a NULL array with a
  nonzero capacity and an array shorter than the capacity, where the C code
  accesses memory outside any array, and indices left inconsistent by a
  `queueInit` on a queue already in use.
- RingBuffer.Queue.Pop: the model requires a valid queue, as Push does; the
  same states are covered and the same are excluded.
- Gpio.GpioDriver.SetPinDirection: requires a non-NULL port when the pin is available; the C code has no NULL check there. A NULL port with an unavailable pin is modelled (NOT_OK, no access).
- Gpio.GpioDriver.ReadPin: requires a non-NULL port when the pin is available; the C code has no NULL check there. A NULL port with an unavailable pin is modelled (returns 0, no access).
- Gpio.GpioDriver.GuardedOutput: requires a non-NULL port when the pin is available; the C code has no NULL check there. A NULL port with an unavailable pin is modelled (NOT_OK, no access).
- Gpio.GpioDriver.SetOutputPin: requires a non-NULL port when the pin is available; the C code has no NULL check there. A NULL port with an unavailable pin is modelled (NOT_OK, no access).
- Gpio.GpioDriver.ClearOutputPin: requires a non-NULL port when the pin is available; the C code has no NULL check there. A NULL port with an unavailable pin is modelled (NOT_OK, no access).
- Gpio.GpioDriver.ToggleOutputPin: requires a non-NULL port when the pin is available; the C code has no NULL check there. A NULL port with an unavailable pin is modelled (NOT_OK, no access).
- Lpuart.LpuartDriver.TxMultiFrame7_8: requires a buffer of at least `len` elements when the loop runs; C cannot check the length, and running past the end is undefined behaviour.
- Lpuart.LpuartDriver.TxMultiFrame9_10: requires a buffer of at least `len` elements when the loop runs; C cannot check the length, and running past the end is undefined behaviour.
- Lpuart.LpuartDriver.RxMultiFrame: requires a buffer of at least `len` elements and at least `len` incoming frames when the loop runs; C cannot check the length, and running past the end is undefined behaviour.
- Lpuart.LpuartDriver.RxMultiFrameIntended: requires a buffer of at least `len` elements and at least `len` incoming frames when the loop runs; C cannot check the length, and running past the end is undefined behaviour.
- Lpuart.LpuartDriver.RxFrame: requires a receive buffer of at least one
  element when the instance is known and the buffer is non-NULL.
- Lpuart.LpuartDriver.MaxBaudRate: `clock` is a `const` fixed when the driver is built, while in C it is the mutable global `uint32_t clock`, initially 48000000 (`PCC/Source/s32k144_pcc_hal.c:19`); a clock change between calls is not modelled.
- Lpuart.LpuartDriver.CheckHandleValidation: `clock` is a `const` fixed when the driver is built, while in C it is the mutable global `uint32_t clock`, initially 48000000 (`PCC/Source/s32k144_pcc_hal.c:19`); a clock change between calls is not modelled.
- Lpuart.LpuartDriver.BaudRateConfig: `clock` is a `const` fixed when the driver is built, while in C it is the mutable global `uint32_t clock`, initially 48000000 (`PCC/Source/s32k144_pcc_hal.c:19`); a clock change between calls is not modelled.

## Findings

| source | as written | input that shows it | evidently intended | confidence | as-written member | corrected member |
|---|---|---|---|---|---|---|
| UART/Source/s32k144_lpuart_driver.c:353-363 | the `for` loop declares its own `nOfDataRx`, shadowing the result variable, so the function returns 0 | LPUART0, a buffer whose first element is 1, len = 3: three frames are stored, 0 is returned | return the number of frames received | high, not executed | Lpuart.LpuartDriver.RxMultiFrame | Lpuart.LpuartDriver.RxMultiFrameIntended |
| UART/Source/s32k144_lpuart_driver.c:355 | the guard tests `*pRxBuffer` (the first element) instead of the pointer | LPUART0, a buffer whose first element is 0, len = 3: nothing is received; a NULL buffer is dereferenced | test `0 != pRxBuffer` | high, not executed | Lpuart.LpuartDriver.RxMultiFrame | Lpuart.LpuartDriver.RxMultiFrameIntended |
| UART/Source/s32k144_lpuart_driver.c:464 | `LPUART_NoiseErrorInterruptConfig` calls the overrun-interrupt HAL setter | LPUART0, enable = 1: the overrun interrupt is enabled and the noise-error interrupt is unchanged | call `HAL_LPUART_NoiseErrorInterruptConfig` | high, not executed | Lpuart.LpuartDriver.NoiseErrorInterruptConfig | Lpuart.LpuartDriver.NoiseErrorInterruptConfigIntended |
| PORT/Source/s32k144_port_driver.c:125-126 | `PORT_EnableInterrupt` ORs the mode into IRQC without clearing IRQC, unlike `PORT_Init` | a pin in IRQC mode 0xA enabled with mode 0x9 ends in 0xB (Port.EnableInterruptMergesModes) | clear IRQC before setting the mode | medium, not executed | Port.EnableInterrupt | Port.EnableInterruptIntended |
| PCC/Source/s32k144_pcc_driver.c:61-68 | `PCC_Check_PR`, documented as reporting whether the peripheral is present (PR bit), tests the CGC clock-gate bit instead and discards the PR value `HAL_Check_PR` returns | a peripheral with PR clear and CGC clear: OK is returned although it is not present (Pcc.AbsentPeripheralPassesCheck) | return OK iff `HAL_Check_PR` reports PR_BIT_SET | medium, not executed | Pcc.PccModule.CheckPresent | Pcc.PccModule.CheckPresentIntended |
| UART/Source/s32k144_lpuart_driver.c:162 | `LPUART_SetTxState`, documented as starting and stopping the transmitter (c:149), calls the TX interrupt-enable setter instead | LPUART0 with the transmitter running, enable = 0: OK is returned and the transmitter keeps running (Lpuart.StateSettersLeaveEnables) | call HAL_LPUART_SetTE / HAL_LPUART_ClearTE | medium, not executed | Lpuart.LpuartDriver.SetTxState | Lpuart.LpuartDriver.SetTxStateIntended |
| UART/Source/s32k144_lpuart_driver.c:183 | `LPUART_SetRxState`, documented as starting and stopping the receiver (c:170), calls the RX interrupt-enable setter instead | LPUART0 with the receiver running, enable = 0: OK is returned and the receiver keeps running (Lpuart.StateSettersLeaveEnables) | call HAL_LPUART_SetRE / HAL_LPUART_ClearRE | medium, not executed | Lpuart.LpuartDriver.SetRxState | Lpuart.LpuartDriver.SetRxStateIntended |
