/** The 32-bit registers SystemInit resets (SCB->CPACR and RCC->CR, CFGR,
    PLLCFGR, CIR), the reset itself, and how the reset registers read as a
    clock tree. Bit positions are those of the STM32F4 reference manual. */
module Registers {
  import opened ClockTree

  /** RCC_CR bits. */
  const HSION: bv32 := 0x0000_0001   // bit 0
  const HSEON: bv32 := 0x0001_0000   // bit 16
  const HSEBYP: bv32 := 0x0004_0000  // bit 18
  const CSSON: bv32 := 0x0008_0000   // bit 19
  const PLLON: bv32 := 0x0100_0000   // bit 24

  /** SCB_CPACR: full access (0b11) for coprocessors CP10 and CP11, the FPU. */
  const CP10_FULL_ACCESS: bv32 := 0x0030_0000  // bits 20-21
  const CP11_FULL_ACCESS: bv32 := 0x00C0_0000  // bits 22-23

  /** The documented reset value of RCC_PLLCFGR. */
  const PLLCFGR_RESET: bv32 := 0x2400_3010

  /** Bit i of a 32-bit register; a bv5 names each of the 32 positions. */
  predicate Bit(x: bv32, i: bv5) {
    (x >> i) & 1 == 1
  }

  datatype RegisterFile = RegisterFile(cpacr: bv32, cr: bv32, cfgr: bv32, pllcfgr: bv32, cir: bv32)

  /** The register file SystemInit leaves behind, given the one it found:
      the FPU opened when it is present and used, HSI on, HSE, its bypass,
      the clock security system and the PLL off, CFGR and CIR cleared and
      PLLCFGR at its reset value. */
  function AfterSystemInit(r: RegisterFile, fpuUsed: bool): (s: RegisterFile)
    ensures s.cfgr == 0 && s.cir == 0 && s.pllcfgr == PLLCFGR_RESET
    ensures Bit(s.cr, 0) && !Bit(s.cr, 16) && !Bit(s.cr, 18) && !Bit(s.cr, 19) && !Bit(s.cr, 24)
    ensures !fpuUsed ==> s.cpacr == r.cpacr
  {
    RegisterFile(
      cpacr := if fpuUsed then r.cpacr | (CP10_FULL_ACCESS | CP11_FULL_ACCESS) else r.cpacr,
      cr := (r.cr | HSION) & !(HSEON | HSEBYP | CSSON | PLLON),
      cfgr := 0,
      pllcfgr := PLLCFGR_RESET,
      cir := 0)
  }

  /** Bit by bit, SystemInit sets HSION, clears HSEON, HSEBYP, CSSON and
      PLLON, and leaves every other bit of CR as it was. */
  lemma SystemInitCrBit(r: RegisterFile, fpuUsed: bool, i: bv5)
    ensures Bit(AfterSystemInit(r, fpuUsed).cr, i) ==
      (i == 0 || (i != 16 && i != 18 && i != 19 && i != 24 && Bit(r.cr, i)))
  {
  }

  /** Bit by bit, SystemInit grants full access to CP10 and CP11 (bits 20 to
      23) when the FPU is used, and leaves every other bit of CPACR as it
      was. */
  lemma SystemInitCpacrBit(r: RegisterFile, fpuUsed: bool, i: bv5)
    ensures Bit(AfterSystemInit(r, fpuUsed).cpacr, i) == ((fpuUsed && 20 <= i < 24) || Bit(r.cpacr, i))
  {
  }

  /** Running the reset twice leaves what running it once leaves. */
  lemma SystemInitIdempotent(r: RegisterFile, fpuUsed: bool)
    ensures AfterSystemInit(AfterSystemInit(r, fpuUsed), fpuUsed) == AfterSystemInit(r, fpuUsed)
  {
  }

  /** CFGR, PLLCFGR and CIR after the reset do not depend on what they held;
      CR and CPACR after the reset depend only on what CR and CPACR held. */
  lemma SystemInitForgetsPriorContents(r: RegisterFile, r': RegisterFile, fpuUsed: bool)
    ensures var s, s' := AfterSystemInit(r, fpuUsed), AfterSystemInit(r', fpuUsed);
      s.cfgr == s'.cfgr && s.pllcfgr == s'.pllcfgr && s.cir == s'.cir &&
      (r.cr == r'.cr ==> s.cr == s'.cr) && (r.cpacr == r'.cpacr ==> s.cpacr == s'.cpacr)
  {
  }

  /** The registers SystemInit writes, updated in place. */
  class CoreRegisters {
    var cpacr: bv32
    var cr: bv32
    var cfgr: bv32
    var pllcfgr: bv32
    var cir: bv32

    function State(): RegisterFile
      reads this
    {
      RegisterFile(cpacr, cr, cfgr, pllcfgr, cir)
    }

    constructor (r: RegisterFile)
      ensures State() == r
    {
      cpacr, cr, cfgr, pllcfgr, cir := r.cpacr, r.cr, r.cfgr, r.pllcfgr, r.cir;
    }

    /** The read-modify-write sequence of SystemInit, with the source's own
        masks. fpuUsed stands for the build having an FPU and using it. */
    method SystemInit(fpuUsed: bool)
      modifies this
      ensures State() == AfterSystemInit(old(State()), fpuUsed)
    {
      if fpuUsed {
        cpacr := cpacr | ((3 << 10 * 2) | (3 << 11 * 2));
      }
      cr := cr | 0x0000_0001;
      cfgr := 0x0000_0000;
      cr := cr & 0xFEF6_FFFF;
      pllcfgr := 0x2400_3010;
      cr := cr & 0xFFFB_FFFF;
      cir := 0x0000_0000;
    }
  }

  /** The PLL factors RCC_PLLCFGR encodes: PLLM in bits 0-5, PLLN in bits
      6-14, PLLP in bits 16-17 (0b00 = /2 ... 0b11 = /8), PLLSRC in bit 22 and
      PLLQ in bits 24-27. */
  function PllcfgrFactors(v: bv32): (pll: PllFactors)
    ensures pll.m < 64 && pll.n < 512 && pll.q < 16
    ensures pll.p == 2 || pll.p == 4 || pll.p == 6 || pll.p == 8
    ensures pll.source == (if Bit(v, 22) then PllSrcHse else PllSrcHsi)
  {
    PllFactors(
      if v & (1 << 22) != 0 then PllSrcHse else PllSrcHsi,
      (v & 0x3F) as nat,
      ((v >> 6) & 0x1FF) as nat,
      (((v >> 16) & 0x3) as nat + 1) * 2,
      ((v >> 24) & 0xF) as nat)
  }

  /** The AHB prescaler HPRE (CFGR bits 4-7): 0xxx = /1, 1000 = /2 ... 1111 = /512. */
  function AhbDivider(hpre: bv32): Divider
    requires hpre < 16
  {
    if hpre < 8 then 1 else [2, 4, 8, 16, 64, 128, 256, 512][(hpre - 8) as nat]
  }

  /** An APB prescaler PPRE1 or PPRE2 (CFGR bits 10-12, 13-15): 0xx = /1,
      100 = /2 ... 111 = /16. */
  function ApbDivider(ppre: bv32): Divider
    requires ppre < 8
  {
    if ppre < 4 then 1 else [2, 4, 8, 16][(ppre - 4) as nat]
  }

  /** The system clock switch SW (CFGR bits 0-1) never holds 0b11, which the
      reference manual does not allow. */
  predicate ValidRegisters(r: RegisterFile) {
    r.cfgr & 0x3 != 0x3
  }

  /** The clock tree a register file stands for; the flash latency lives in
      another peripheral and is given. */
  function TreeOf(r: RegisterFile, flashLatency: nat): ClockTree
    requires ValidRegisters(r)
  {
    ClockTree(
      hse := if Bit(r.cr, 18) then HseBypass else if Bit(r.cr, 16) then HseOn else HseOff,
      hsi := if Bit(r.cr, 0) then HsiOn else HsiOff,
      hsiCalibration := ((r.cr >> 3) & 0x1F) as nat,
      pllOn := Bit(r.cr, 24),
      pll := PllcfgrFactors(r.pllcfgr),
      sysclkSource := if r.cfgr & 0x3 == 0 then SysclkHsi else if r.cfgr & 0x3 == 1 then SysclkHse else SysclkPll,
      ahbDivider := AhbDivider((r.cfgr >> 4) & 0xF),
      apb1Divider := ApbDivider((r.cfgr >> 10) & 0x7),
      apb2Divider := ApbDivider((r.cfgr >> 13) & 0x7),
      flashLatency := flashLatency)
  }

  /** PLLCFGR's reset value encodes PLL source HSI, M = 16, N = 192, P = 2,
      Q = 4. */
  lemma PllcfgrResetFactors()
    ensures PllcfgrFactors(PLLCFGR_RESET) == PllFactors(PllSrcHsi, 16, 192, 2, 4)
  {
  }

  /** Whatever the registers held, SystemInit leaves the clock tree running
      from HSI at 16 MHz on every bus, HSE and the PLL off, and the PLL
      factors at their reset values. */
  lemma SystemInitClockTree(r: RegisterFile, fpuUsed: bool, flashLatency: nat)
    ensures ValidRegisters(AfterSystemInit(r, fpuUsed))
    ensures var t := TreeOf(AfterSystemInit(r, fpuUsed), flashLatency);
      t.hsi == HsiOn && t.hse == HseOff && !t.pllOn && t.sysclkSource == SysclkHsi &&
      t.pll == PllFactors(PllSrcHsi, 16, 192, 2, 4) &&
      BusFrequencies(t) == Frequencies(HSI_VALUE, HSI_VALUE, HSI_VALUE, HSI_VALUE)
  {
    PllcfgrResetFactors();
  }
}
