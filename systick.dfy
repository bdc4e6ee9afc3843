/**
 * The nRF51 Arduino 101 system tick: the low-frequency crystal is started,
 * RTC0 is programmed to tick `os_ticks_per_sec` times a second, and the RTC0
 * interrupt handler forwards each TICK event to the operating system's
 * `timer_handler`.
 */
module SysTick {
  import opened Machine

  /** Frequency of the low-frequency clock (LFCLK) that drives RTC0, in Hz. */
  const LFCLK_HZ: int := 32768

  // Register values of the nRF51 CLOCK and RTC peripherals.
  const CLOCK_XTALFREQ_16MHZ: bv32 := 0xFF
  const CLOCK_LFCLKSRC_XTAL: bv32 := 1
  const CLOCK_LFCLKSTAT_STATE_MSK: bv32 := 0x1_0000
  const CLOCK_LFCLKSTAT_SRC_XTAL: bv32 := 1
  /** LFCLKSTAT bits that say "running, from the crystal". */
  const LFCLK_RUNNING_MASK: bv32 := CLOCK_LFCLKSTAT_STATE_MSK | CLOCK_LFCLKSTAT_SRC_XTAL
  const RTC_INTENSET_TICK_MSK: bv32 := 1
  const ALL_ONES: bv32 := 0xFFFF_FFFF

  // ---------------------------------------------------------------------
  // Prescaler
  // ---------------------------------------------------------------------

  /** Floor division brackets its dividend between two consecutive multiples of the divisor. */
  lemma DivisionBounds(n: int, d: int)
    requires 0 <= n && 0 < d
    ensures (n / d) * d <= n < (n / d) * d + d
    ensures d <= n ==> 1 <= n / d
  {
    var q, r := n / d, n % d;
    assert n == q * d + r && 0 <= r < d;
    if q <= 0 {
      assert q * d <= 0;
    }
  }

  /**
   * The RTC prescaler for a tick rate, computed in `uint32_t` as
   * `32768 / ticksPerSec - 1`. For a rate up to 32768 Hz the tick period is
   * the largest whole number of LFCLK cycles that fits in 1/ticksPerSec
   * seconds; above 32768 Hz the subtraction wraps around.
   */
  function Prescaler(ticksPerSec: int): (p: int)
    requires 0 < ticksPerSec < UINT32_MOD
    ensures 0 <= p < UINT32_MOD
    ensures ticksPerSec <= LFCLK_HZ ==>
              (p + 1) * ticksPerSec <= LFCLK_HZ < (p + 2) * ticksPerSec
    ensures LFCLK_HZ < ticksPerSec ==> p == UINT32_MOD - 1
  {
    var q := LFCLK_HZ / ticksPerSec;
    DivisionBounds(LFCLK_HZ, ticksPerSec);
    if ticksPerSec <= LFCLK_HZ then
      assert 1 <= q;
      assert q * ticksPerSec <= LFCLK_HZ;
      assert q <= LFCLK_HZ;
      assert Wrap32(q - 1) == q - 1;
      assert (q - 1 + 1) * ticksPerSec == q * ticksPerSec;
      assert (q - 1 + 2) * ticksPerSec == q * ticksPerSec + ticksPerSec;
      Wrap32(q - 1)
    else
      assert q == 0;
      Wrap32(q - 1)
  }

  /** Two example rates: 100 Hz and 1 Hz. */
  lemma PrescalerExamples()
    ensures Prescaler(100) == 326
    ensures Prescaler(1) == 32767
  {
  }

  /**
   * For an attainable rate the computed prescaler is the only one whose
   * period of p + 1 LFCLK cycles fits in 1/ticksPerSec s while p + 2 cycles
   * do not.
   */
  lemma PrescalerUnique(ticksPerSec: int, p: int)
    requires 0 < ticksPerSec <= LFCLK_HZ
    requires (p + 1) * ticksPerSec <= LFCLK_HZ < (p + 2) * ticksPerSec
    ensures p == Prescaler(ticksPerSec)
  {
    var q := Prescaler(ticksPerSec);
    MulCancel(p + 1, q + 2, ticksPerSec);
    MulCancel(q + 1, p + 2, ticksPerSec);
  }

  lemma MulCancel(a: int, b: int, c: int)
    requires 0 < c && a * c < b * c
    ensures a < b
  {
  }

  // ---------------------------------------------------------------------
  // Waiting for the low-frequency clock
  // ---------------------------------------------------------------------

  /** What one poll of the CLOCK peripheral reads: EVENTS_LFCLKSTARTED and LFCLKSTAT. */
  datatype LfclkSample = LfclkSample(eventsStarted: bv32, stat: bv32)

  /** The condition on which the wait loop leaves. */
  predicate LfclkReady(s: LfclkSample)
  {
    s.eventsStarted != 0 && s.stat & LFCLK_RUNNING_MASK == LFCLK_RUNNING_MASK
  }

  /** Index of the first sample, at `from` or later, on which the wait loop leaves. */
  function FirstReady(hw: seq<LfclkSample>, from: nat): (k: nat)
    requires from <= |hw|
    requires exists j :: from <= j < |hw| && LfclkReady(hw[j])
    ensures from <= k < |hw| && LfclkReady(hw[k])
    ensures forall j :: from <= j < k ==> !LfclkReady(hw[j])
    decreases |hw| - from
  {
    if LfclkReady(hw[from]) then from else FirstReady(hw, from + 1)
  }

  // ---------------------------------------------------------------------
  // Register accesses
  // ---------------------------------------------------------------------

  /** The registers the bring-up writes. */
  datatype Reg =
    | ClockXtalFreq | ClockLfclkStop | ClockLfclkStartedEvent | ClockLfclkSrc | ClockLfclkStart
    | RtcStop | RtcTickEvent | RtcPrescaler | RtcIntenClr | RtcClear | RtcIntenSet | RtcStart

  predicate IsRtcReg(r: Reg)
  {
    r in {RtcStop, RtcTickEvent, RtcPrescaler, RtcIntenClr, RtcClear, RtcIntenSet, RtcStart}
  }

  /** What the RTC0 interrupt vector slot holds. */
  datatype Vector = DefaultVector | Rtc0Vector

  /** The interrupt-controller calls made for RTC0_IRQn. */
  datatype NvicCall = SetPriority(prio: int) | SetVector(vector: Vector) | EnableIrq

  /**
   * One observable step. `masked` records whether interrupts were disabled
   * (PRIMASK set) when the step happened.
   */
  datatype Step =
    | Write(reg: Reg, value: bv32, masked: bool)
    | Nvic(call: NvicCall, masked: bool)
    | LfclkRunning                      // the wait loop saw the crystal running
    | DisableIrq(saved: bool)           // __HAL_DISABLE_INTERRUPTS, saving PRIMASK
    | RestoreIrq(ctx: bool)             // __HAL_ENABLE_INTERRUPTS with the saved value
    | TimerHandlerCall(eventsTick: bv32) // timer_handler entered, with EVENTS_TICK as it then is

  /** A step that programs RTC0 or its interrupt line. */
  predicate ProgramsRtc(s: Step)
  {
    (s.Write? && IsRtcReg(s.reg)) || s.Nvic?
  }

  /** A step that is a register write or interrupt-controller call done with interrupts disabled. */
  predicate MaskedAccess(s: Step)
  {
    (s.Write? && s.masked) || (s.Nvic? && s.masked)
  }

  /** The clock start sequence, done with the caller's interrupt state `ctx`. */
  function LfclkStartSteps(ctx: bool): seq<Step>
  {
    [ Write(ClockXtalFreq, CLOCK_XTALFREQ_16MHZ, ctx),
      Write(ClockLfclkStop, 1, ctx),
      Write(ClockLfclkStartedEvent, 0, ctx),
      Write(ClockLfclkSrc, CLOCK_LFCLKSRC_XTAL, ctx),
      Write(ClockLfclkStart, 1, ctx) ]
  }

  /** Stopping and resetting RTC0, done with interrupt state `masked`. */
  function Rtc0ResetSteps(prescaler: bv32, masked: bool): seq<Step>
  {
    [ Write(RtcStop, 1, masked),
      Write(RtcTickEvent, 0, masked),
      Write(RtcPrescaler, prescaler, masked),
      Write(RtcIntenClr, ALL_ONES, masked),
      Write(RtcClear, 1, masked) ]
  }

  /** Installing the RTC0 interrupt in the NVIC. */
  function Rtc0VectorSteps(prio: int, masked: bool): seq<Step>
  {
    [ Nvic(SetPriority(prio), masked),
      Nvic(SetVector(Rtc0Vector), masked),
      Nvic(EnableIrq, masked) ]
  }

  /** Arming TICK and starting RTC0. */
  function Rtc0StartSteps(masked: bool): seq<Step>
  {
    [ Write(RtcIntenSet, RTC_INTENSET_TICK_MSK, masked),
      Write(RtcStart, 1, masked) ]
  }

  /** The RTC0 and NVIC programming, inside the interrupt-disabled region. */
  function RtcProgramSteps(ctx: bool, prescaler: bv32, prio: int): seq<Step>
  {
    [DisableIrq(ctx)] + Rtc0ResetSteps(prescaler, true) + Rtc0VectorSteps(prio, true)
      + Rtc0StartSteps(true) + [RestoreIrq(ctx)]
  }

  /** Everything `os_bsp_systick_init` does, in order. */
  function BringUpTrace(ctx: bool, prescaler: bv32, prio: int): seq<Step>
  {
    LfclkStartSteps(ctx) + [LfclkRunning] + RtcProgramSteps(ctx, prescaler, prio)
  }

  /**
   * `s` accesses the same thing as `a`: the same register, the same
   * interrupt-controller function, or both are the end of the wait loop.
   */
  predicate SameAccess(s: Step, a: Step)
  {
    || (s.Write? && a.Write? && s.reg == a.reg)
    || (s.Nvic? && a.Nvic? && SameCall(s.call, a.call))
    || (s.LfclkRunning? && a.LfclkRunning?)
  }

  /** `s` is a write of register `r`. */
  predicate WritesTo(s: Step, r: Reg)
  {
    s.Write? && s.reg == r
  }

  /** `c` and `d` are calls of the same interrupt-controller function. */
  predicate SameCall(c: NvicCall, d: NvicCall)
  {
    || (c.SetPriority? && d.SetPriority?)
    || (c.SetVector? && d.SetVector?)
    || (c.EnableIrq? && d.EnableIrq?)
  }

  /**
   * `a` and `b` both occur in `t`, and every access like `a` comes before
   * every access like `b`.
   */
  predicate Before(t: seq<Step>, a: Step, b: Step)
  {
    && (exists i :: 0 <= i < |t| && t[i] == a)
    && (exists j :: 0 <= j < |t| && t[j] == b)
    && forall i, j :: 0 <= i < |t| && 0 <= j < |t| && SameAccess(t[i], a) && SameAccess(t[j], b) ==> i < j
  }

  /** The position of each access in `BringUpTrace`; -1 for the steps that are not accesses. */
  function Slot(s: Step): int
  {
    match s
    case Write(reg, _, _) => RegSlot(reg)
    case Nvic(call, _) =>
      (match call
       case SetPriority(_) => 12
       case SetVector(_) => 13
       case EnableIrq => 14)
    case LfclkRunning => 5
    case _ => -1
  }

  function RegSlot(r: Reg): nat
  {
    match r
    case ClockXtalFreq => 0
    case ClockLfclkStop => 1
    case ClockLfclkStartedEvent => 2
    case ClockLfclkSrc => 3
    case ClockLfclkStart => 4
    case RtcStop => 7
    case RtcTickEvent => 8
    case RtcPrescaler => 9
    case RtcIntenClr => 10
    case RtcClear => 11
    case RtcIntenSet => 15
    case RtcStart => 16
  }

  /** Every access of the bring-up sits at its slot. */
  lemma BringUpSlots(ctx: bool, prescaler: bv32, prio: int)
    ensures var t := BringUpTrace(ctx, prescaler, prio);
      |t| == 18 && forall i :: 0 <= i < |t| && Slot(t[i]) >= 0 ==> Slot(t[i]) == i
  {
  }

  lemma BeforeBySlot(t: seq<Step>, a: Step, b: Step)
    requires forall i :: 0 <= i < |t| && Slot(t[i]) >= 0 ==> Slot(t[i]) == i
    requires 0 <= Slot(a) < Slot(b) < |t| && t[Slot(a)] == a && t[Slot(b)] == b
    ensures Before(t, a, b)
  {
    forall i, j | 0 <= i < |t| && 0 <= j < |t| && SameAccess(t[i], a) && SameAccess(t[j], b)
      ensures i < j
    {
      assert Slot(t[i]) == Slot(a) && Slot(t[j]) == Slot(b);
    }
  }

  /** Each step of `order` comes, in the sense of `Before`, before the next one. */
  predicate InOrder(t: seq<Step>, order: seq<Step>)
  {
    forall k :: 0 <= k < |order| - 1 ==> Before(t, order[k], order[k + 1])
  }

  lemma InOrderBySlot(t: seq<Step>, order: seq<Step>)
    requires forall i :: 0 <= i < |t| && Slot(t[i]) >= 0 ==> Slot(t[i]) == i
    requires forall k :: 0 <= k < |order| ==> 0 <= Slot(order[k]) < |t| && t[Slot(order[k])] == order[k]
    requires forall k :: 0 <= k < |order| - 1 ==> Slot(order[k]) < Slot(order[k + 1])
    ensures InOrder(t, order)
  {
    forall k | 0 <= k < |order| - 1
      ensures Before(t, order[k], order[k + 1])
    {
      BeforeBySlot(t, order[k], order[k + 1]);
    }
  }

  /** No register is written twice and no interrupt-controller function is called twice. */
  lemma AccessesOnce(ctx: bool, prescaler: bv32, prio: int)
    ensures var t := BringUpTrace(ctx, prescaler, prio);
      forall i, j :: 0 <= i < |t| && 0 <= j < |t| && SameAccess(t[i], t[j]) ==> i == j
  {
    var t := BringUpTrace(ctx, prescaler, prio);
    BringUpSlots(ctx, prescaler, prio);
    forall i, j | 0 <= i < |t| && 0 <= j < |t| && SameAccess(t[i], t[j])
      ensures i == j
    {
      assert Slot(t[i]) == Slot(t[j]) >= 0;
    }
  }

  /** The crystal is selected and the started event cleared before the clock is started. */
  lemma ClockConfiguredBeforeStart(ctx: bool, prescaler: bv32, prio: int)
    ensures var t := BringUpTrace(ctx, prescaler, prio);
      && Before(t, Write(ClockLfclkSrc, CLOCK_LFCLKSRC_XTAL, ctx), Write(ClockLfclkStart, 1, ctx))
      && Before(t, Write(ClockLfclkStartedEvent, 0, ctx), Write(ClockLfclkStart, 1, ctx))
      && Before(t, Write(ClockLfclkStart, 1, ctx), LfclkRunning)
  {
    var t := BringUpTrace(ctx, prescaler, prio);
    BringUpSlots(ctx, prescaler, prio);
    BeforeBySlot(t, Write(ClockLfclkSrc, CLOCK_LFCLKSRC_XTAL, ctx), Write(ClockLfclkStart, 1, ctx));
    BeforeBySlot(t, Write(ClockLfclkStartedEvent, 0, ctx), Write(ClockLfclkStart, 1, ctx));
    BeforeBySlot(t, Write(ClockLfclkStart, 1, ctx), LfclkRunning);
  }

  /** Nothing in RTC0 or its interrupt line is touched until the wait loop has seen the crystal running. */
  lemma NothingProgrammedBeforeClockRuns(ctx: bool, prescaler: bv32, prio: int)
    ensures var t := BringUpTrace(ctx, prescaler, prio);
      && t[|LfclkStartSteps(ctx)|] == LfclkRunning
      && forall i :: 0 <= i < |t| && ProgramsRtc(t[i]) ==> |LfclkStartSteps(ctx)| < i
  {
  }

  /**
   * RTC0 is stopped, then TICK cleared, then PRESCALER written, then all
   * interrupt enables cleared, then the counter cleared; then the priority,
   * the vector and the enable of the interrupt line are set, then TICK is
   * armed, and only then is RTC0 started. Each ordering holds between every
   * access of one register (or NVIC function) and every access of the next.
   */
  lemma RtcProgrammingOrder(ctx: bool, prescaler: bv32, prio: int)
    ensures InOrder(BringUpTrace(ctx, prescaler, prio), [
      Write(RtcStop, 1, true), Write(RtcTickEvent, 0, true), Write(RtcPrescaler, prescaler, true),
      Write(RtcIntenClr, ALL_ONES, true), Write(RtcClear, 1, true),
      Nvic(SetPriority(prio), true), Nvic(SetVector(Rtc0Vector), true), Nvic(EnableIrq, true),
      Write(RtcIntenSet, RTC_INTENSET_TICK_MSK, true), Write(RtcStart, 1, true)])
  {
    BringUpSlots(ctx, prescaler, prio);
    InOrderBySlot(BringUpTrace(ctx, prescaler, prio), [
      Write(RtcStop, 1, true), Write(RtcTickEvent, 0, true), Write(RtcPrescaler, prescaler, true),
      Write(RtcIntenClr, ALL_ONES, true), Write(RtcClear, 1, true),
      Nvic(SetPriority(prio), true), Nvic(SetVector(Rtc0Vector), true), Nvic(EnableIrq, true),
      Write(RtcIntenSet, RTC_INTENSET_TICK_MSK, true), Write(RtcStart, 1, true)]);
  }

  /** PRESCALER is written exactly once, with the computed value, before TASKS_START. */
  lemma PrescalerWrittenOnce(ctx: bool, prescaler: bv32, prio: int)
    ensures var t := BringUpTrace(ctx, prescaler, prio);
      && (forall i, j ::
            0 <= i < |t| && 0 <= j < |t| && WritesTo(t[i], RtcPrescaler) && WritesTo(t[j], RtcPrescaler) ==> i == j)
      && (forall i :: 0 <= i < |t| && WritesTo(t[i], RtcPrescaler) ==> t[i].value == prescaler)
      && Before(t, Write(RtcPrescaler, prescaler, true), Write(RtcStart, 1, true))
  {
    var t := BringUpTrace(ctx, prescaler, prio);
    BringUpSlots(ctx, prescaler, prio);
    assert t[9] == Write(RtcPrescaler, prescaler, true);
    BeforeBySlot(t, Write(RtcPrescaler, prescaler, true), Write(RtcStart, 1, true));
  }

  /**
   * Interrupts are disabled exactly once, right after the wait, and restored
   * with the saved value as the last step; every RTC0 and NVIC access lies
   * strictly between the two and is done with interrupts disabled.
   */
  lemma CriticalSection(ctx: bool, prescaler: bv32, prio: int)
    ensures var t := BringUpTrace(ctx, prescaler, prio);
      var d := |LfclkStartSteps(ctx)| + 1;
      && t[d] == DisableIrq(ctx)
      && t[|t| - 1] == RestoreIrq(ctx)
      && (forall i :: 0 <= i < |t| && t[i].DisableIrq? ==> i == d)
      && (forall i :: 0 <= i < |t| && t[i].RestoreIrq? ==> i == |t| - 1)
      && (forall i :: d < i < |t| - 1 ==> MaskedAccess(t[i]))
      && (forall i :: 0 <= i < |t| && ProgramsRtc(t[i]) ==> d < i < |t| - 1)
  {
  }

  // ---------------------------------------------------------------------
  // The tick interrupt
  // ---------------------------------------------------------------------

  /** Effect of one entry into `rtc0_timer_handler` on (EVENTS_TICK, number of timer_handler calls). */
  function IsrStep(eventsTick: bv32, calls: nat): (r: (bv32, nat))
    ensures r.0 == 0
    ensures eventsTick != 0 ==> r.1 == calls + 1
    ensures eventsTick == 0 ==> r == (eventsTick, calls)
  {
    if eventsTick != 0 then (0, calls + 1) else (eventsTick, calls)
  }

  /**
   * A run of handler entries: before entry i the RTC raises a TICK event
   * (EVENTS_TICK := 1) exactly when `raised[i]`; the result is the final
   * EVENTS_TICK and call count.
   */
  function TickRun(raised: seq<bool>, eventsTick: bv32, calls: nat): (bv32, nat)
    decreases |raised|
  {
    if raised == [] then (eventsTick, calls)
    else
      var s := IsrStep(if raised[0] then 1 else eventsTick, calls);
      TickRun(raised[1..], s.0, s.1)
  }

  /** Number of entries before which the RTC raises EVENTS_TICK. */
  function CountRaised(raised: seq<bool>): nat
    decreases |raised|
  {
    if raised == [] then 0 else (if raised[0] then 1 else 0) + CountRaised(raised[1..])
  }

  /**
   * Starting from a clear EVENTS_TICK (as the bring-up leaves it),
   * timer_handler is called once for each entry that finds EVENTS_TICK set
   * (a raised flag), and entries that find it clear call nothing.
   */
  lemma {:induction false} TickRunCountsTicks(raised: seq<bool>, calls: nat)
    ensures TickRun(raised, 0, calls) == (0, calls + CountRaised(raised))
    decreases |raised|
  {
    if raised != [] {
      var s := IsrStep(if raised[0] then 1 else 0, calls);
      TickRunCountsTicks(raised[1..], s.1);
    }
  }

  // ---------------------------------------------------------------------
  // The register block
  // ---------------------------------------------------------------------

  /** The CLOCK and RTC0 registers, the RTC0 interrupt slot and PRIMASK, with a trace of accesses. */
  class Nrf51 {
    // CLOCK
    var xtalFreq: bv32
    var lfclkSrc: bv32
    var eventsLfclkStarted: bv32
    var lfclkStat: bv32
    // RTC0
    var rtcRunning: bool
    var counter: int
    var prescaler: bv32
    var intenMask: bv32
    var eventsTick: bv32
    // NVIC slot of RTC0_IRQn
    var irqPriority: int
    var irqVector: Vector
    var irqEnabled: bool
    /** PRIMASK: true while interrupts are disabled. */
    var primask: bool
    /** Number of calls into `timer_handler`. */
    var timerCalls: nat
    /** Every access made so far, oldest first. */
    ghost var trace: seq<Step>

    /** Reset state: everything zero, RTC0 stopped, interrupts enabled. */
    constructor ()
      ensures xtalFreq == 0 && lfclkSrc == 0 && eventsLfclkStarted == 0 && lfclkStat == 0
      ensures !rtcRunning && counter == 0 && prescaler == 0 && intenMask == 0 && eventsTick == 0
      ensures irqPriority == 0 && irqVector == DefaultVector && !irqEnabled && !primask
      ensures timerCalls == 0 && trace == []
    {
      xtalFreq, lfclkSrc, eventsLfclkStarted, lfclkStat := 0, 0, 0, 0;
      rtcRunning, counter, prescaler, intenMask, eventsTick := false, 0, 0, 0, 0;
      irqPriority, irqVector, irqEnabled := 0, DefaultVector, false;
      primask, timerCalls := false, 0;
      trace := [];
    }

    /**
     * `os_bsp_systick_init`. `hw[i]` is what the i-th poll of the CLOCK
     * status reads; the code polls until a ready sample, so some sample
     * must be ready. `polls` is the number of polls made.
     */
    method SysTickInit(osTicksPerSec: int, prio: int, hw: seq<LfclkSample>) returns (polls: nat)
      requires 0 < osTicksPerSec < UINT32_MOD
      requires exists j :: 0 <= j < |hw| && LfclkReady(hw[j])
      modifies this
      ensures polls == FirstReady(hw, 0) + 1
      ensures trace == old(trace) + BringUpTrace(old(primask), Prescaler(osTicksPerSec) as bv32, prio)
      ensures xtalFreq == CLOCK_XTALFREQ_16MHZ && lfclkSrc == CLOCK_LFCLKSRC_XTAL
      ensures eventsLfclkStarted == hw[polls - 1].eventsStarted && lfclkStat == hw[polls - 1].stat
      ensures prescaler == Prescaler(osTicksPerSec) as bv32
      ensures rtcRunning && counter == 0 && eventsTick == 0
      ensures intenMask == RTC_INTENSET_TICK_MSK
      ensures irqPriority == prio && irqVector == Rtc0Vector && irqEnabled
      ensures primask == old(primask)
      ensures timerCalls == old(timerCalls)
    {
      StartLfclk();
      polls := WaitLfclkStarted(hw);
      ghost var clockRunning := trace;
      assert clockRunning == old(trace) + LfclkStartSteps(old(primask)) + [LfclkRunning];
      var preScaler := Prescaler(osTicksPerSec) as bv32;
      ProgramRtc0(preScaler, prio);
      assert trace == clockRunning + RtcProgramSteps(old(primask), preScaler, prio);
    }

    /** Select the 16 MHz crystal and the LFCLK crystal source, then start the LFCLK. */
    method StartLfclk()
      modifies this`xtalFreq, this`eventsLfclkStarted, this`lfclkSrc, this`trace
      ensures xtalFreq == CLOCK_XTALFREQ_16MHZ && lfclkSrc == CLOCK_LFCLKSRC_XTAL
      ensures eventsLfclkStarted == 0
      ensures trace == old(trace) + LfclkStartSteps(primask)
    {
      xtalFreq := CLOCK_XTALFREQ_16MHZ;
      trace := trace + [Write(ClockXtalFreq, CLOCK_XTALFREQ_16MHZ, primask)];
      trace := trace + [Write(ClockLfclkStop, 1, primask)];
      eventsLfclkStarted := 0;
      trace := trace + [Write(ClockLfclkStartedEvent, 0, primask)];
      lfclkSrc := CLOCK_LFCLKSRC_XTAL;
      trace := trace + [Write(ClockLfclkSrc, CLOCK_LFCLKSRC_XTAL, primask)];
      trace := trace + [Write(ClockLfclkStart, 1, primask)];
    }

    /**
     * The busy-wait: poll EVENTS_LFCLKSTARTED and LFCLKSTAT, the i-th poll
     * reading `hw[i]`, until the started event is set and LFCLKSTAT says
     * "running from the crystal". Returns the number of polls.
     */
    method WaitLfclkStarted(hw: seq<LfclkSample>) returns (polls: nat)
      requires exists j :: 0 <= j < |hw| && LfclkReady(hw[j])
      modifies this`eventsLfclkStarted, this`lfclkStat, this`trace
      ensures polls == FirstReady(hw, 0) + 1
      ensures eventsLfclkStarted == hw[polls - 1].eventsStarted && lfclkStat == hw[polls - 1].stat
      ensures trace == old(trace) + [LfclkRunning]
    {
      var i := 0;
      while true
        invariant 0 <= i <= FirstReady(hw, 0)
        invariant forall j :: 0 <= j < i ==> !LfclkReady(hw[j])
        invariant trace == old(trace)
        decreases FirstReady(hw, 0) - i
      {
        eventsLfclkStarted, lfclkStat := hw[i].eventsStarted, hw[i].stat;
        if eventsLfclkStarted != 0 {
          if lfclkStat & LFCLK_RUNNING_MASK == LFCLK_RUNNING_MASK {
            break;
          }
        }
        i := i + 1;
      }
      polls := i + 1;
      trace := trace + [LfclkRunning];
    }

    /**
     * The interrupt-disabled region: save and set PRIMASK, program RTC0 and
     * its interrupt line, then restore the saved PRIMASK.
     */
    method ProgramRtc0(preScaler: bv32, prio: int)
      modifies this`primask, this`rtcRunning, this`eventsTick, this`prescaler, this`intenMask,
        this`counter, this`irqPriority, this`irqVector, this`irqEnabled, this`trace
      ensures trace == old(trace) + RtcProgramSteps(old(primask), preScaler, prio)
      ensures prescaler == preScaler
      ensures rtcRunning && counter == 0 && eventsTick == 0
      ensures intenMask == RTC_INTENSET_TICK_MSK
      ensures irqPriority == prio && irqVector == Rtc0Vector && irqEnabled
      ensures primask == old(primask)
    {
      var ctx := primask;
      primask := true;
      trace := trace + [DisableIrq(ctx)];
      ResetRtc0(preScaler);
      ghost var afterReset := trace;
      InstallRtc0Vector(prio);
      ghost var afterVector := trace;
      ArmAndStartRtc0();
      assert trace == afterVector + Rtc0StartSteps(true);
      assert afterVector == afterReset + Rtc0VectorSteps(prio, true);
      assert afterReset == old(trace) + [DisableIrq(ctx)] + Rtc0ResetSteps(preScaler, true);
      primask := ctx;
      trace := trace + [RestoreIrq(ctx)];
    }

    /** Stop RTC0, clear TICK, write PRESCALER, disable all RTC0 interrupts, clear the counter. */
    method ResetRtc0(preScaler: bv32)
      modifies this`rtcRunning, this`eventsTick, this`prescaler, this`intenMask, this`counter, this`trace
      ensures !rtcRunning && eventsTick == 0 && prescaler == preScaler && intenMask == 0 && counter == 0
      ensures trace == old(trace) + Rtc0ResetSteps(preScaler, primask)
    {
      rtcRunning := false;
      trace := trace + [Write(RtcStop, 1, primask)];
      eventsTick := 0;
      trace := trace + [Write(RtcTickEvent, 0, primask)];
      prescaler := preScaler;
      trace := trace + [Write(RtcPrescaler, preScaler, primask)];
      intenMask := intenMask & !ALL_ONES;
      trace := trace + [Write(RtcIntenClr, ALL_ONES, primask)];
      counter := 0;
      trace := trace + [Write(RtcClear, 1, primask)];
    }

    /** NVIC_SetPriority, NVIC_SetVector with `rtc0_timer_handler`, NVIC_EnableIRQ for RTC0_IRQn. */
    method InstallRtc0Vector(prio: int)
      modifies this`irqPriority, this`irqVector, this`irqEnabled, this`trace
      ensures irqPriority == prio && irqVector == Rtc0Vector && irqEnabled
      ensures trace == old(trace) + Rtc0VectorSteps(prio, primask)
    {
      irqPriority := prio;
      trace := trace + [Nvic(SetPriority(prio), primask)];
      irqVector := Rtc0Vector;
      trace := trace + [Nvic(SetVector(Rtc0Vector), primask)];
      irqEnabled := true;
      trace := trace + [Nvic(EnableIrq, primask)];
    }

    /** Enable the TICK interrupt and start RTC0. */
    method ArmAndStartRtc0()
      modifies this`intenMask, this`rtcRunning, this`trace
      ensures intenMask == old(intenMask) | RTC_INTENSET_TICK_MSK && rtcRunning
      ensures trace == old(trace) + Rtc0StartSteps(primask)
    {
      intenMask := intenMask | RTC_INTENSET_TICK_MSK;
      trace := trace + [Write(RtcIntenSet, RTC_INTENSET_TICK_MSK, primask)];
      rtcRunning := true;
      trace := trace + [Write(RtcStart, 1, primask)];
    }

    /**
     * `rtc0_timer_handler`: if EVENTS_TICK is set, clear it and then call
     * `timer_handler`; otherwise do nothing.
     */
    method Rtc0TimerHandler()
      modifies this`eventsTick, this`timerCalls, this`trace
      ensures (eventsTick, timerCalls) == IsrStep(old(eventsTick), old(timerCalls))
      ensures trace == old(trace) +
        (if old(eventsTick) != 0 then [Write(RtcTickEvent, 0, primask), TimerHandlerCall(0)] else [])
    {
      if eventsTick != 0 {
        eventsTick := 0;
        trace := trace + [Write(RtcTickEvent, 0, primask)];
        trace := trace + [TimerHandlerCall(eventsTick)];
        timerCalls := timerCalls + 1;
      }
    }
  }
}
