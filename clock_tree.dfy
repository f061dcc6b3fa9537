/** The STM32F4 clock tree as the clock bring-up code sees it: the two
    configuration records it hands to the vendor HAL, the state of the
    oscillators, PLL and bus prescalers those records act on, and the
    frequencies (in exact integer Hz) that state produces. */
module ClockTree {

  /** Frequency of the 25 MHz crystal fitted to the board (X3). */
  const HSE_VALUE: nat := 25_000_000
  /** Frequency of the internal RC oscillator. */
  const HSI_VALUE: nat := 16_000_000
  /** The only clock frequency a USB full-speed peripheral can run on. */
  const USB_CLOCK_HZ: nat := 48_000_000

  datatype OscType = OscHse | OscHsi | OscLse | OscLsi
  datatype HseState = HseOff | HseOn | HseBypass
  datatype HsiState = HsiOff | HsiOn
  /** PllNone asks the HAL to leave the PLL as it is. */
  datatype PllState = PllNone | PllOff | PllOn
  datatype PllSource = PllSrcHsi | PllSrcHse

  /** The PLL part of the oscillator record: input divider M, multiplier N,
      main output divider P and 48 MHz-domain output divider Q. */
  datatype PllInit = PllInit(state: PllState, source: PllSource, m: nat, n: nat, p: nat, q: nat)
  {
    function Factors(): PllFactors {
      PllFactors(source, m, n, p, q)
    }
  }

  /** The oscillator configuration record (RCC_OscInitTypeDef); the LSE and
      LSI fields are not modelled, no path of the bring-up selects them. */
  datatype OscInit = OscInit(
    oscillatorType: set<OscType>,
    hseState: HseState,
    hsiState: HsiState,
    hsiCalibration: nat,
    pll: PllInit)

  datatype SysclkSource = SysclkHsi | SysclkHse | SysclkPll
  datatype ClockType = ClockSysclk | ClockHclk | ClockPclk1 | ClockPclk2

  /** A bus prescaler, as the division factor it applies. */
  type Divider = d: nat | 1 <= d witness 1

  /** The bus configuration record (RCC_ClkInitTypeDef). */
  datatype ClkInit = ClkInit(
    clockType: set<ClockType>,
    sysclkSource: SysclkSource,
    ahbDivider: Divider,
    apb1Divider: Divider,
    apb2Divider: Divider)

  datatype PllFactors = PllFactors(source: PllSource, m: nat, n: nat, p: nat, q: nat)

  /** What the RCC and flash interface currently run with. */
  datatype ClockTree = ClockTree(
    hse: HseState,
    hsi: HsiState,
    hsiCalibration: nat,
    pllOn: bool,
    pll: PllFactors,
    sysclkSource: SysclkSource,
    ahbDivider: Divider,
    apb1Divider: Divider,
    apb2Divider: Divider,
    flashLatency: nat)

  function PllInputHz(source: PllSource): nat {
    match source
    case PllSrcHsi => HSI_VALUE
    case PllSrcHse => HSE_VALUE
  }

  /** PLLCLK = f_in * N / (M * P); a zero divider yields no clock. */
  function PllClockHz(pll: PllFactors): nat {
    if pll.m * pll.p == 0 then 0 else PllInputHz(pll.source) * pll.n / (pll.m * pll.p)
  }

  /** The 48 MHz-domain output (USB, SDIO): f_in * N / (M * Q). */
  function Pll48ClockHz(pll: PllFactors): nat {
    if pll.m * pll.q == 0 then 0 else PllInputHz(pll.source) * pll.n / (pll.m * pll.q)
  }

  /** True when PLLCLK and the 48 MHz-domain clock are whole numbers of Hz,
      so that the integer division above loses nothing. */
  predicate ExactPll(pll: PllFactors) {
    pll.m * pll.p != 0 && pll.m * pll.q != 0 &&
    PllClockHz(pll) * (pll.m * pll.p) == PllInputHz(pll.source) * pll.n &&
    Pll48ClockHz(pll) * (pll.m * pll.q) == PllInputHz(pll.source) * pll.n
  }

  function SysclkHz(t: ClockTree): nat {
    match t.sysclkSource
    case SysclkHsi => HSI_VALUE
    case SysclkHse => HSE_VALUE
    case SysclkPll => PllClockHz(t.pll)
  }

  datatype Frequencies = Frequencies(sysclk: nat, ahb: nat, apb1: nat, apb2: nat)

  /** SYSCLK, then AHB = SYSCLK / HPRE, APB1 = AHB / PPRE1, APB2 = AHB / PPRE2. */
  function BusFrequencies(t: ClockTree): Frequencies {
    var ahb := SysclkHz(t) / t.ahbDivider;
    Frequencies(SysclkHz(t), ahb, ahb / t.apb1Divider, ahb / t.apb2Divider)
  }

  /** The two clock paths of the bring-up. */
  datatype Path = PathHse | PathHsi

  /** The frequency table the bring-up code promises in its header comment,
      per path and per USB build, in Hz. */
  function HeaderTable(path: Path, usb: bool): Frequencies {
    match path
    case PathHse =>
      if usb then Frequencies(60_000_000, 60_000_000, 30_000_000, 60_000_000)
      else Frequencies(100_000_000, 100_000_000, 50_000_000, 100_000_000)
    case PathHsi =>
      if usb then Frequencies(96_000_000, 96_000_000, 48_000_000, 96_000_000)
      else Frequencies(100_000_000, 100_000_000, 50_000_000, 100_000_000)
  }

  /** Every column of the table has AHB = APB2 = SYSCLK and APB1 = SYSCLK / 2,
      and no clock above 100 MHz. */
  lemma HeaderTableShape(path: Path, usb: bool)
    ensures var f := HeaderTable(path, usb);
      f.ahb == f.sysclk && f.apb2 == f.sysclk && f.apb1 * 2 == f.sysclk && f.sysclk <= 100_000_000
  {
  }
}
