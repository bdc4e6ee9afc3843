# nRF51 system tick and SPI loop-back test, modelled in Dafny

This project models two small sequential parts of an Apache Mynewt tree.

**The system tick of the nRF51 Arduino 101 board** (`hw/bsp/nrf51-arduino_101/src/os_bsp.c`):

- `os_bsp_systick_init` starts the 32.768 kHz low-frequency crystal and busy-waits until the CLOCK peripheral reports that it runs from the crystal.
- It then computes the RTC prescaler for the requested tick rate.
- With interrupts disabled, it stops, resets and reprograms RTC0, installs `rtc0_timer_handler` in the RTC0 interrupt slot, arms only the TICK interrupt and starts RTC0. At the end it restores the interrupt state it saved.
- `rtc0_timer_handler` acknowledges each TICK event and then calls the kernel's `timer_handler`.

The register block is the class `SysTick.Nrf51`. Its fields are the CLOCK and RTC0 registers, the RTC0 slot of the interrupt controller (NVIC), PRIMASK and a count of `timer_handler` calls. A ghost `trace` records every register write and NVIC call in order, and whether interrupts were disabled at that moment.

The busy-wait reads its status from an oracle: `hw[i]` is the pair (EVENTS_LFCLKSTARTED, LFCLKSTAT) that the i-th poll sees. The pure function `BringUpTrace` gives the exact sequence of accesses. The ordering lemmas are proved about that sequence.

**The SPI loop-back test** (`apps/spitest/src/main.c`). It is built either as an SPI master or as an SPI slave. The two builds are modelled as the classes `SpiTest.SpiMaster` and `SpiTest.SpiSlave`, and both use `SpiTest.CbArg` (`struct sblinky_spi_cb_arg`). The 32-byte global buffers are `array<byte>` fields that the methods update in place.

- The master sends buffers of 1 to 32 bytes. Each buffer's bytes count up from byte `g_last_tx_len − 1` of the previous buffer. That is the last byte sent, except on the first pass after the start-up exchange. The start-up exchange sends 4 bytes but sets the length to 32, so the first ramp starts at `tx[31]`, which was never sent.
- The slave answers the start-up bytes with 0x77, and the master checks for 0x77 (main.c:240).
- The slave answers the first loop transfer with 0x88, and the master's first callback checks for 0x88 (main.c:131-137).
- From then on the slave answers each transfer with what it received in the previous one, padded with 0xaa. The master's validator `spitest_validate_last` checks each answer against what it sent last.
- A failing C `assert` is modelled as the method returning `false`. The state is then what the code had written up to that assertion.

The main result is `SpiTest.EchoPassesValidation`: the slave's echo buffer always satisfies the master's validation predicate `EchoesLast`. `ValidateLast` is proved to return `true` exactly when `g_spi_null_rx` is non-zero or `EchoesLast` holds.

Values: `uint8_t` is the newtype `Machine.byte`. `uint32_t` counters are `int`s kept in `[0, 2^32)` and incremented with an explicit wrap (`Machine.Wrap32`). Registers that the code combines with bitwise operators are `bv32`.

The CLOCK and RTC constants come from the nRF51 bitfield header, which is not part of this model. Their nRF51 values are XTALFREQ_16MHz = 0xFF, LFCLKSRC_Xtal = 1, LFCLKSTAT_STATE_Msk = 1 << 16, LFCLKSTAT_SRC_Xtal = 1 and RTC_INTENSET_TICK_Msk = 1.

Two facts about the code that shape the model:

- **Extent of the critical section.** Interrupts stay disabled from os_bsp.c:167 to os_bsp.c:183. The NVIC setup, INTENSET and TASKS_START are therefore inside the critical section, together with the stop/clear/prescaler steps.
- **No check of the tick rate.** The code does not check the tick rate. A rate of 0 divides by zero, so the model requires a positive rate. Above 32768 the `uint32_t` prescaler wraps to 0xFFFFFFFF, and `Prescaler` models that wrap explicitly.

The contracts rest on three specification functions:

- `SysTick.BringUpTrace` (os_bsp.c:146-183) is the sequence of CLOCK writes, the end of the wait, the interrupt save, the RTC0 and NVIC accesses and the interrupt restore, in code order.
- `SysTick.TickRun` (os_bsp.c:130-137) runs the handler over a sequence of entries. Before each entry the RTC may raise EVENTS_TICK.
- `SpiTest.EchoesLast` (main.c:92-111) is the condition that `spitest_validate_last` checks. The first min(len, g_last_tx_len) received bytes equal the last bytes sent, and the received bytes from g_last_tx_len up to len are 0xaa.

## Model

| member | source | states |
|---|---|---|
| `SysTick.Prescaler` | hw/bsp/nrf51-arduino_101/src/os_bsp.c:163-164 | For 1 ≤ t ≤ 32768 the prescaler p satisfies (p+1)·t ≤ 32768 < (p+2)·t, so the tick period is the largest whole number of LFCLK cycles per 1/t s. Above 32768 the uint32 subtraction wraps to 0xFFFFFFFF. The result is always a uint32. |
| `SysTick.PrescalerExamples` | hw/bsp/nrf51-arduino_101/src/os_bsp.c:164 | 100 ticks/s gives 326 and 1 tick/s gives 32767. |
| `SysTick.PrescalerUnique` | hw/bsp/nrf51-arduino_101/src/os_bsp.c:163-164 | For 1 ≤ t ≤ 32768 the computed prescaler is the only p with (p+1)·t ≤ 32768 < (p+2)·t. |
| `SysTick.FirstReady` | hw/bsp/nrf51-arduino_101/src/os_bsp.c:153-161 | The index of the first status sample at which EVENTS_LFCLKSTARTED ≠ 0 and (LFCLKSTAT & (STATE_Msk\|SRC_Xtal)) == mask; no earlier sample satisfies that. |
| `SysTick.Nrf51.WaitLfclkStarted` | hw/bsp/nrf51-arduino_101/src/os_bsp.c:153-161 | The busy-wait stops exactly at the first ready sample (number of polls = FirstReady + 1). The registers then hold that sample. The wait writes nothing. |
| `SysTick.Nrf51.StartLfclk` | hw/bsp/nrf51-arduino_101/src/os_bsp.c:146-151 | XTALFREQ is set to 16 MHz, LFSTOP is triggered, EVENTS_LFCLKSTARTED is cleared, the crystal is selected as LFCLK source, then LFSTART is triggered, in that order. |
| `SysTick.ClockConfiguredBeforeStart` | hw/bsp/nrf51-arduino_101/src/os_bsp.c:147-161 | In the bring-up trace every LFCLKSRC write (which selects the crystal) and every clear of EVENTS_LFCLKSTARTED comes before every TASKS_LFCLKSTART. Every TASKS_LFCLKSTART comes before the wait sees the clock running. |
| `SysTick.NothingProgrammedBeforeClockRuns` | hw/bsp/nrf51-arduino_101/src/os_bsp.c:155-169 | Every RTC0 write and NVIC call in the bring-up trace comes after the wait loop has seen the crystal running. |
| `SysTick.RtcProgrammingOrder` | hw/bsp/nrf51-arduino_101/src/os_bsp.c:169-181 | The accesses happen in this order: STOP, EVENTS_TICK := 0, PRESCALER, INTENCLR of all ones, CLEAR, then NVIC priority, vector and enable, then INTENSET of TICK, then START. Every access of each register or NVIC function comes before every access of the next one. So RTC0 is stopped first, and nothing is programmed after it starts. |
| `SysTick.PrescalerWrittenOnce` | hw/bsp/nrf51-arduino_101/src/os_bsp.c:171-181 | PRESCALER is written exactly once in the bring-up, with the computed value, before TASKS_START. |
| `SysTick.AccessesOnce` | hw/bsp/nrf51-arduino_101/src/os_bsp.c:146-183 | No register is written twice and no NVIC function is called twice in the bring-up. |
| `SysTick.CriticalSection` | hw/bsp/nrf51-arduino_101/src/os_bsp.c:166-183 | Interrupts are disabled exactly once, right after the wait, and restored exactly once, as the last step, with the saved PRIMASK. Every RTC0/NVIC access lies strictly between the two, with interrupts disabled. |
| `SysTick.Nrf51.ResetRtc0` | hw/bsp/nrf51-arduino_101/src/os_bsp.c:169-173 | Afterwards RTC0 is stopped, EVENTS_TICK is 0, PRESCALER holds the given value, the interrupt-enable mask is empty and the counter is 0. The five writes happen in code order. |
| `SysTick.Nrf51.InstallRtc0Vector` | hw/bsp/nrf51-arduino_101/src/os_bsp.c:175-178 | The RTC0 slot gets priority `prio` and the vector `rtc0_timer_handler`, and the IRQ is enabled, in that order. |
| `SysTick.Nrf51.ArmAndStartRtc0` | hw/bsp/nrf51-arduino_101/src/os_bsp.c:180-181 | The TICK bit is added to the interrupt-enable mask, then RTC0 is started. |
| `SysTick.Nrf51.ProgramRtc0` | hw/bsp/nrf51-arduino_101/src/os_bsp.c:166-183 | The whole interrupt-disabled region. On exit: mask == TICK bit exactly, whatever it was before. PRESCALER holds the given value, counter = 0, EVENTS_TICK = 0, RTC0 runs, the vector slot is set and enabled, and PRIMASK is back to its value on entry. |
| `SysTick.Nrf51.SysTickInit` | hw/bsp/nrf51-arduino_101/src/os_bsp.c:139-184 | `os_bsp_systick_init`: its access trace is exactly `BringUpTrace` with the computed prescaler. Final state: PRESCALER = Prescaler(t), the RTC0 interrupt mask is exactly TICK, RTC0 runs from a cleared counter, the slot holds `rtc0_timer_handler` at `prio` and is enabled, PRIMASK is restored, and no `timer_handler` call was made. |
| `SysTick.IsrStep` | hw/bsp/nrf51-arduino_101/src/os_bsp.c:133-136 | After one handler entry EVENTS_TICK is always 0. The call count grows by one when the flag was set and is unchanged otherwise, and with the flag clear nothing changes. |
| `SysTick.Nrf51.Rtc0TimerHandler` | hw/bsp/nrf51-arduino_101/src/os_bsp.c:130-137 | `rtc0_timer_handler` has the effect of `IsrStep`. When the flag was set, the trace shows EVENTS_TICK cleared before the call of `timer_handler`, which sees the flag at 0. |
| `SysTick.TickRunCountsTicks` | hw/bsp/nrf51-arduino_101/src/os_bsp.c:130-137 | Over any run of handler entries that starts with EVENTS_TICK clear (as `SysTickInit` leaves it), `timer_handler` is called exactly once for each entry that finds EVENTS_TICK set. Entries that find it clear call nothing. |
| `SpiTest.SpiMaster.constructor` | apps/spitest/src/main.c:76-81 | The master's globals start zero-initialised: buffers all 0, `spi_cb_arg` null, `g_spi_xfr_num`, `g_spi_null_rx` and `g_last_tx_len` 0, and the callback record all 0. After `Start` the counter is therefore 1, and the first callback takes the 0x88 branch. |
| `SpiTest.SpiMaster.ValidateLast` | apps/spitest/src/main.c:83-113 | `spitest_validate_last(len)` passes iff g_spi_null_rx ≠ 0, or both of these hold: rx[i] == last_tx[i] for i < min(len, g_last_tx_len), and rx[i] == 0xaa for g_last_tx_len ≤ i < len. |
| `SpiTest.EchoBuffer` | apps/spitest/src/main.c:381-382 | The slave's echo has 32 bytes: the first txlen are the received bytes and the rest are 0xaa. |
| `SpiTest.EchoPassesValidation` | apps/spitest/src/main.c:84-113 | Suppose the slave received intact the bytes the master last sent, and the master receives the slave's echo. Then the master's validation predicate holds, for every length up to 32. |
| `SpiTest.SpiSlave.Iteration` | apps/spitest/src/main.c:372-387 | First wake-up (counter 0): the transmit buffer becomes all 0x88. Later wake-ups: prev_buf gets the old transmit buffer, and the transmit buffer becomes EchoBuffer(received bytes, txlen). The counter always grows by one modulo 2^32. |
| `SpiTest.SpiSlave.constructor` | apps/spitest/src/main.c:164-166 | The slave's globals start zero-initialised: buffers all 0, `spi_cb_arg` null, `g_spi_xfr_num` 0 (so the first wake-up takes the 0x88 branch), and the callback record all 0. |
| `SpiTest.SpiSlave.Start` | apps/spitest/src/main.c:353-366 | The callback argument is installed and the transmit buffer is filled with 0x77. |
| `SpiTest.SpiSlave.IrqsHandler` | apps/spitest/src/main.c:175-190 | Fails iff the argument is not the installed one. With a non-null argument it increments transfers, adds len to the uint32 tx_rx_bytes with wrap-around and sets txlen = len. Otherwise the record is unchanged. |
| `SpiTest.NextLength` | apps/spitest/src/main.c:264 | `(rand() & 0x1F) + 1` is always between 1 and 32, whatever rand() returned. |
| `SpiTest.Ramp` | apps/spitest/src/main.c:266-269 | Byte i of the new buffer is (last_val + i) mod 256. |
| `SpiTest.RampCountsUp` | apps/spitest/src/main.c:266-269 | A ramp begins at its start byte, which `PrepareNext` takes from byte `g_last_tx_len − 1` of the previous buffer. Each byte is one more than the previous one, modulo 256. |
| `SpiTest.SpiMaster.PrepareNext` | apps/spitest/src/main.c:262-269 | g_last_tx_len becomes the previous length, and the previous bytes go to last_tx with the rest of last_tx unchanged. The new length is NextLength(rand). The first new-length bytes ramp up from `last_tx[g_last_tx_len − 1]`, and the rest of tx is unchanged. That byte is the last one sent, except on the first pass after `Start`, where it is `tx[31]`. The length stays within 1..32, so every index stays within the 32-byte buffers. |
| `SpiTest.SpiMaster.FillRamp` | apps/spitest/src/main.c:267-269 | The fill loop leaves `Ramp(start, n)` in the first n transmit bytes and the rest of tx unchanged. |
| `SpiTest.SpiMaster.Transfer` | apps/spitest/src/main.c:271-335 | Odd counter: a non-blocking transfer with g_spi_null_rx = 0, and the counter is left to the callback. Even counter: a blocking transfer fills rx[..txlen] with the answer, then validates. The counter is incremented only when validation passes. |
| `SpiTest.SpiMaster.Start` | apps/spitest/src/main.c:233-253 | 0xdeadbeef goes into tx[0..4]. The call succeeds iff all four answers are 0x77, which are then stored in rx. On success the counter is incremented, the callback argument installed and txlen = 32. |
| `SpiTest.SpiMaster.IrqmHandler` | apps/spitest/src/main.c:115-146 | `sblinky_spi_irqm_handler` succeeds iff all of these hold: the argument is the installed one; len == txlen when the argument is non-null; and the data check passes. The data check is all len bytes 0x88 when the counter is 1, and the validator otherwise. transfers is incremented once the length check passes. On the first callback last_tx[..len] = tx[..len]. The counter grows by one only on success. |

## Left out

- `hal_bsp_init` (os_bsp.c:90-127): it only creates devices and initialises HAL timers, SPI and cputime. Those bodies are outside this model.
- The real firing of interrupts and any interleaving of `rtc0_timer_handler` with the bring-up or with a task. The handler is a method called explicitly, and `TickRun` models the hardware raising EVENTS_TICK between handler entries. EVENTS_TICK is a single flag, and the model raises it at most once before each entry. Several RTC ticks that arrive while the flag is still set therefore count as one event and give one call of `timer_handler`. The model does not count RTC ticks separately from the entries that see them.
- The hardware effects of the CLOCK tasks (LFCLKSTOP, LFCLKSTART): the status the wait loop reads is an input sequence, not a model of the oscillator.
- The width of the RTC PRESCALER field (12 bits on the nRF51) and the NVIC priority encoding done by `NVIC_SetPriority`. The CMSIS/NVIC code is not part of this model. The model stores the 32-bit value written and the priority as passed.
- `SysTick.Nrf51.SysTickInit`: requires that some status sample is ready. The code then polls forever without a timeout, and that non-terminating run is not modelled.
- `SysTick.Nrf51.WaitLfclkStarted`: the same requirement as `SysTickInit`, for the same reason.
- `SysTick.Prescaler`: requires a positive tick rate, because the code divides by it (division by zero for 0).
- All HAL SPI and GPIO calls (`hal_spi_*`, `hal_gpio_*`), `console_printf`, and the checks on their return codes (`assert(!rc)`, `assert(rc == 0)`). The slave-select pin level and its `assert(hal_gpio_read(SPI_SS_PIN) == 1)` are left out too. A blocking transfer's answer is an input of `SpiMaster.Transfer`. The data of a non-blocking transfer is whatever the receive buffer holds when the callback runs.
- `rand()`: its result is the arbitrary input `r` of `SpiMaster.PrepareNext`.
- OS tasks, semaphores and the event queue (`os_sem_*`, `os_time_delay`, `os_task_init`, `task2_handler`, `init_tasks`, `main`), and the timing between the task loops and the callbacks. The loop bodies are methods called one pass at a time.
- `sblinky_spi_cfg`: it only configures the HAL.
- The code under `#if 0` in main.c, which sets `g_spi_null_rx` to 1. The compiled code only ever sets it to 0. The model keeps it as a field, so the validator's "checks nothing" case is still covered.
- Signed overflow of `cb->transfers` (an `int` in C, where overflow is undefined): it is an unbounded integer here.
- `prev_len` (main.c:341): it is declared but never used.
- The counters `spi_nb_cntr` and `spi_b_cntr` (main.c:252-253, 273, 303): the compiled code increments them, but only code under `#if 0` reads them.
- `SpiTest.SpiMaster.Start`: when one of the four answers is not 0x77, the contract does not say which receive bytes were already written before the assertion stopped the program.
- sys/log/full/src/log_stdout.c, sys/log/modlog/include/modlog/modlog.h, hw/bsp/arduino_primo_nrf52/src/hal_bsp.c and net/ip/lwip_contrib/apps/ping/include/ping/ping.h. These are output code, declarations, constant stubs and prototypes, and they have no logic that belongs to these two cores.
