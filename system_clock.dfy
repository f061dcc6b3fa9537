/** The clock bring-up sequencer: the HSE path (PLL fed by the 25 MHz
    crystal), the HSI path (PLL fed by the 16 MHz internal oscillator), and
    SetSysClock, which tries them in that order and fails fatally when no
    compiled-in path succeeds. The HAL is the object of module Hal; the
    build-time flags are parameters. */
module SystemClock {
  import opened ClockTree
  import opened Hal
  import Registers

  /** The CLOCK_SOURCE bits that compile each path in. */
  const USE_PLL_HSE_XTAL: bv32 := 0x4
  const USE_PLL_HSI: bv32 := 0x2

  const FLASH_LATENCY_3: nat := 3
  const RCC_HSICALIBRATION_DEFAULT: nat := 0x10
  const SET_SYS_CLOCK_FAILED: string := "SetSysClock failed\n"

  /** The build: the CLOCK_SOURCE bitmask, and whether CLOCK_SOURCE_USB is
      non-zero. */
  datatype Build = Build(clockSource: bv32, clockSourceUsb: bool)

  predicate HseCompiledIn(b: Build) {
    b.clockSource & USE_PLL_HSE_XTAL != 0
  }

  predicate HsiCompiledIn(b: Build) {
    b.clockSource & USE_PLL_HSI != 0
  }

  /** How SetSysClock ends: configured by one of the paths, or the fatal
      error() with its message, which does not return. */
  datatype Outcome = Configured(path: Path) | Fatal(message: string)

  /** The bus record both paths fill: SYSCLK from the PLL, AHB = SYSCLK,
      APB1 = HCLK / 2, APB2 = HCLK. */
  const PllBusConfig: ClkInit :=
    ClkInit({ClockSysclk, ClockHclk, ClockPclk1, ClockPclk2}, SysclkPll, 1, 2, 1)

  /** The oscillator request of the HSE path, made from the record
      HAL_RCC_GetOscConfig returned: only the HSE is named, it is switched on,
      and the PLL is switched on from it with factors that give the table's
      SYSCLK exactly, and 48 MHz for USB in a USB build. */
  function HseOscRequest(current: OscInit, usb: bool): (r: OscInit)
    ensures r.oscillatorType == {OscHse} && r.hseState == HseOn
    ensures r.hsiState == current.hsiState && r.hsiCalibration == current.hsiCalibration
    ensures r.pll.state == PllOn && r.pll.source == PllSrcHse
    ensures ExactPll(r.pll.Factors())
    ensures PllClockHz(r.pll.Factors()) == HeaderTable(PathHse, usb).sysclk
    ensures Pll48ClockHz(r.pll.Factors()) == if usb then USB_CLOCK_HZ else 40_000_000
  {
    current.(
      oscillatorType := {OscHse},
      hseState := HseOn,
      pll := if usb then PllInit(PllOn, PllSrcHse, 15, 144, 4, 5)
             else PllInit(PllOn, PllSrcHse, 12, 96, 2, 5))
  }

  /** The oscillator request of the HSI path: HSI on with its default trim,
      HSE explicitly off, and the PLL on from HSI with factors that give the
      table's SYSCLK exactly, and 48 MHz for USB in a USB build. */
  function HsiOscRequest(usb: bool): (r: OscInit)
    ensures r.oscillatorType == {OscHsi, OscHse}
    ensures r.hsiState == HsiOn && r.hseState == HseOff && r.hsiCalibration == RCC_HSICALIBRATION_DEFAULT
    ensures r.pll.state == PllOn && r.pll.source == PllSrcHsi
    ensures ExactPll(r.pll.Factors())
    ensures PllClockHz(r.pll.Factors()) == HeaderTable(PathHsi, usb).sysclk
    ensures Pll48ClockHz(r.pll.Factors()) == if usb then USB_CLOCK_HZ else 50_000_000
  {
    OscInit({OscHsi, OscHse}, HseOff, HsiOn, RCC_HSICALIBRATION_DEFAULT,
      PllInit(PllOn, PllSrcHsi, 8, if usb then 192 else 200, 4, 8))
  }

  /** The HAL calls the HSE path makes from tree t: the query, then the
      oscillator request unless the PLL is already running. */
  function HseCalls(t: ClockTree, usb: bool): seq<HalCall> {
    [GetOscConfigCall] +
    if t.pllOn then [] else [OscConfigCall(HseOscRequest(ReadOscConfig(t), usb))]
  }

  /** The HSE path returns 1 exactly when the PLL was already running or the
      HAL accepted its oscillator request. */
  predicate HseSucceeds(t: ClockTree, answers: HalAnswers, usb: bool) {
    t.pllOn || answers.oscConfig(t, HseOscRequest(ReadOscConfig(t), usb)) == HalOk
  }

  /** The HAL calls the HSI path makes from tree t: the oscillator request,
      then the bus record with latency 3 only if that request was accepted. */
  function HsiCalls(t: ClockTree, answers: HalAnswers, usb: bool): seq<HalCall> {
    [OscConfigCall(HsiOscRequest(usb))] +
    if answers.oscConfig(t, HsiOscRequest(usb)) == HalOk then [ClockConfigCall(PllBusConfig, FLASH_LATENCY_3)] else []
  }

  /** The HSI path returns 1 exactly when the HAL accepts both calls. */
  predicate HsiSucceeds(t: ClockTree, answers: HalAnswers, usb: bool) {
    answers.oscConfig(t, HsiOscRequest(usb)) == HalOk &&
    answers.clockConfig(ApplyOscConfig(t, HsiOscRequest(usb)), PllBusConfig, FLASH_LATENCY_3) == HalOk
  }

  /** SetSysClock_PLL_HSE as written. When the PLL already runs (set up by a
      bootloader) it returns 1 and configures nothing. Otherwise it asks for
      the HSE and the PLL and returns 0 exactly when the HAL refuses. It fills
      the bus record but never applies it: the system clock source, the bus
      dividers and the flash latency stay as they were. */
  method SetSysClockPllHse(hal: Rcc, usb: bool) returns (ok: bool)
    requires hal.Valid()
    modifies hal
    ensures hal.Valid()
    ensures hal.log == old(hal.log) + HseCalls(old(hal.tree), usb)
    ensures ok == HseSucceeds(old(hal.tree), hal.answers, usb)
    ensures SameBusSettings(old(hal.tree), hal.tree)
    ensures !ok || old(hal.tree).pllOn ==> hal.tree == old(hal.tree)
    ensures ok && !old(hal.tree).pllOn ==>
      hal.tree.pllOn && hal.tree.hse == HseOn && PllClockHz(hal.tree.pll) == HeaderTable(PathHse, usb).sysclk &&
      Pll48ClockHz(hal.tree.pll) == if usb then USB_CLOCK_HZ else 40_000_000
  {
    var osc := hal.GetOscConfig();
    if osc.pll.state != PllOn {
      osc := osc.(oscillatorType := {OscHse});
      osc := osc.(hseState := HseOn);
      osc := osc.(pll := osc.pll.(state := PllOn));
      osc := osc.(pll := osc.pll.(source := PllSrcHse));
      if usb {
        osc := osc.(pll := osc.pll.(m := 15, n := 144, p := 4, q := 5));
      } else {
        osc := osc.(pll := osc.pll.(m := 12, n := 96, p := 2, q := 5));
      }
      var status := hal.OscConfig(osc);
      if status != HalOk {
        return false;
      }
    }
    // Both builds choose the same dividers; the record goes no further.
    var clk := PllBusConfig;
    return true;
  }

  /** SetSysClock_PLL_HSI. It asks for HSI on, HSE off and the PLL on from
      HSI, returns 0 if the HAL refuses (without trying the bus record),
      then applies the bus record with flash latency 3 and returns 0 if that
      is refused, 1 otherwise. On success the buses run at the table's
      frequencies. */
  method SetSysClockPllHsi(hal: Rcc, usb: bool) returns (ok: bool)
    requires hal.Valid()
    modifies hal
    ensures hal.Valid()
    ensures hal.log == old(hal.log) + HsiCalls(old(hal.tree), hal.answers, usb)
    ensures ok == HsiSucceeds(old(hal.tree), hal.answers, usb)
    ensures hal.answers.oscConfig(old(hal.tree), HsiOscRequest(usb)) != HalOk ==> hal.tree == old(hal.tree)
    ensures ok ==> hal.tree.sysclkSource == SysclkPll && hal.tree.flashLatency == FLASH_LATENCY_3
    ensures ok ==> BusFrequencies(hal.tree) == HeaderTable(PathHsi, usb)
    ensures ok && usb ==> Pll48ClockHz(hal.tree.pll) == USB_CLOCK_HZ
  {
    var osc := OscInit(
      oscillatorType := {OscHsi, OscHse},
      hsiState := HsiOn,
      hseState := HseOff,
      hsiCalibration := RCC_HSICALIBRATION_DEFAULT,
      pll := PllInit(state := PllOn, source := PllSrcHsi, m := 8, n := 0, p := 4, q := 8));
    if usb {
      osc := osc.(pll := osc.pll.(n := 192));
    } else {
      osc := osc.(pll := osc.pll.(n := 200));
    }
    var status := hal.OscConfig(osc);
    if status != HalOk {
      return false;
    }
    ghost var t1 := hal.tree;
    status := hal.ClockConfig(PllBusConfig, FLASH_LATENCY_3);
    if status != HalOk {
      return false;
    }
    PllBusConfigFrequencies(t1, FLASH_LATENCY_3, PathHsi, usb);
    return true;
  }

  /** SetSysClock. The HSE path runs first when compiled in; the HSI path
      runs only when the HSE path is not compiled in or returned 0; the
      fatal error ends the sequence exactly when no compiled-in path
      succeeded, which includes a build with no path at all. */
  method SetSysClock(hal: Rcc, build: Build) returns (outcome: Outcome)
    requires hal.Valid()
    modifies hal
    ensures hal.Valid()
    ensures var t, usb := old(hal.tree), build.clockSourceUsb;
      var hseOk := HseCompiledIn(build) && HseSucceeds(t, hal.answers, usb);
      hal.log == old(hal.log)
        + (if HseCompiledIn(build) then HseCalls(t, usb) else [])
        + (if !hseOk && HsiCompiledIn(build) then HsiCalls(t, hal.answers, usb) else [])
    ensures var t, usb := old(hal.tree), build.clockSourceUsb;
      outcome == Configured(PathHse) <==> HseCompiledIn(build) && HseSucceeds(t, hal.answers, usb)
    ensures var t, usb := old(hal.tree), build.clockSourceUsb;
      outcome == Configured(PathHsi) <==>
        !(HseCompiledIn(build) && HseSucceeds(t, hal.answers, usb)) &&
        HsiCompiledIn(build) && HsiSucceeds(t, hal.answers, usb)
    ensures var t, usb := old(hal.tree), build.clockSourceUsb;
      outcome.Fatal? <==>
        !(HseCompiledIn(build) && HseSucceeds(t, hal.answers, usb)) &&
        !(HsiCompiledIn(build) && HsiSucceeds(t, hal.answers, usb))
    ensures outcome.Fatal? ==> outcome.message == SET_SYS_CLOCK_FAILED
    ensures outcome == Configured(PathHse) ==> SameBusSettings(old(hal.tree), hal.tree)
    ensures outcome == Configured(PathHsi) ==>
      BusFrequencies(hal.tree) == HeaderTable(PathHsi, build.clockSourceUsb) &&
      hal.tree.flashLatency == FLASH_LATENCY_3
  {
    if HseCompiledIn(build) {
      var ok := SetSysClockPllHse(hal, build.clockSourceUsb);
      if ok {
        return Configured(PathHse);
      }
    }
    if HsiCompiledIn(build) {
      var ok := SetSysClockPllHsi(hal, build.clockSourceUsb);
      if ok {
        return Configured(PathHsi);
      }
    }
    return Fatal(SET_SYS_CLOCK_FAILED);
  }

  /** As written, the HSE path run on the clock tree SystemInit leaves
      behind cannot reach the header table: even when the HAL accepts the
      crystal and the PLL runs at the table's SYSCLK, the system clock stays
      on HSI at 16 MHz. */
  lemma HseAsWrittenMissesHeaderTable(
    r: Registers.RegisterFile, fpuUsed: bool, flashLatency: nat, answers: HalAnswers, usb: bool)
    ensures Registers.ValidRegisters(Registers.AfterSystemInit(r, fpuUsed))
    ensures var t := Registers.TreeOf(Registers.AfterSystemInit(r, fpuUsed), flashLatency);
      var u := Replay(t, HseCalls(t, usb), answers);
      HseSucceeds(t, answers, usb) ==>
        u.pllOn && PllClockHz(u.pll) == HeaderTable(PathHse, usb).sysclk &&
        BusFrequencies(u).sysclk == HSI_VALUE != HeaderTable(PathHse, usb).sysclk
  {
    Registers.SystemInitClockTree(r, fpuUsed, flashLatency);
    var t := Registers.TreeOf(Registers.AfterSystemInit(r, fpuUsed), flashLatency);
    var req := HseOscRequest(ReadOscConfig(t), usb);
    assert HseCalls(t, usb) == [GetOscConfigCall, OscConfigCall(req)];
    assert Replay(t, HseCalls(t, usb), answers) == Replay(t, [OscConfigCall(req)], answers);
    assert Replay(t, [OscConfigCall(req)], answers) == Step(t, OscConfigCall(req), answers);
  }

  /** The bus record turns a PLL running at a column's SYSCLK into that
      column's AHB, APB1 and APB2 frequencies. */
  lemma PllBusConfigFrequencies(t: ClockTree, latency: nat, path: Path, usb: bool)
    requires PllClockHz(t.pll) == HeaderTable(path, usb).sysclk
    ensures var u := ApplyClockConfig(t, PllBusConfig, latency);
      u.sysclkSource == SysclkPll && u.flashLatency == latency && BusFrequencies(u) == HeaderTable(path, usb)
  {
    HeaderTableShape(path, usb);
  }

  /** The HSE path as written, then the one call it lacks: the bus record
      applied with flash latency 3, as the HSI path does. It returns 0 when
      either step is refused, and on success from a stopped PLL the buses run
      at the table's frequencies. */
  method SetSysClockPllHseCorrected(hal: Rcc, usb: bool) returns (ok: bool)
    requires hal.Valid()
    modifies hal
    ensures hal.Valid()
    ensures var t := old(hal.tree);
      hal.log == old(hal.log) + HseCalls(t, usb) +
        if HseSucceeds(t, hal.answers, usb) then [ClockConfigCall(PllBusConfig, FLASH_LATENCY_3)] else []
    ensures var t := old(hal.tree);
      ok <==> (HseSucceeds(t, hal.answers, usb) &&
               hal.answers.clockConfig(Replay(t, HseCalls(t, usb), hal.answers), PllBusConfig, FLASH_LATENCY_3) == HalOk)
    ensures ok ==> hal.tree.sysclkSource == SysclkPll && hal.tree.flashLatency == FLASH_LATENCY_3
    ensures ok && !old(hal.tree).pllOn ==> BusFrequencies(hal.tree) == HeaderTable(PathHse, usb)
    ensures ok && !old(hal.tree).pllOn && usb ==> Pll48ClockHz(hal.tree.pll) == USB_CLOCK_HZ
  {
    ghost var t0, log0 := hal.tree, hal.log;
    ok := SetSysClockPllHse(hal, usb);
    if !ok {
      return false;
    }
    ReplayAppend(hal.initial, log0, HseCalls(t0, usb), hal.answers);
    ghost var t1 := hal.tree;
    assert t1 == Replay(t0, HseCalls(t0, usb), hal.answers);
    var status := hal.ClockConfig(PllBusConfig, FLASH_LATENCY_3);
    if status != HalOk {
      return false;
    }
    if !t0.pllOn {
      PllBusConfigFrequencies(t1, FLASH_LATENCY_3, PathHse, usb);
    }
    return true;
  }
}
