/** The vendor HAL as the bring-up code uses it: three calls
    (HAL_RCC_GetOscConfig, HAL_RCC_OscConfig, HAL_RCC_ClockConfig) on the
    clock tree. Whether a configuring call succeeds is decided by the
    hardware and the HAL's own checks, which are not modelled: it is an
    oracle answer, a function of the current clock tree and the request.
    What a successful call does to the tree is the HAL's documented effect;
    a call that fails leaves the tree as it was. */
module Hal {
  import opened ClockTree

  datatype HalStatus = HalOk | HalError | HalBusy | HalTimeout

  datatype HalCall =
    | GetOscConfigCall
    | OscConfigCall(request: OscInit)
    | ClockConfigCall(config: ClkInit, latency: nat)

  /** The HAL's answer to each configuring call. */
  datatype HalAnswers = HalAnswers(
    oscConfig: (ClockTree, OscInit) -> HalStatus,
    clockConfig: (ClockTree, ClkInit, nat) -> HalStatus)

  /** The record HAL_RCC_GetOscConfig fills from the current tree: every
      oscillator type, the HSE and HSI states, and the PLL on or off with
      its current factors. */
  function ReadOscConfig(t: ClockTree): OscInit {
    OscInit({OscHse, OscHsi, OscLse, OscLsi}, t.hse, t.hsi, t.hsiCalibration,
      PllInit(if t.pllOn then PllOn else PllOff, t.pll.source, t.pll.m, t.pll.n, t.pll.p, t.pll.q))
  }

  /** A successful HAL_RCC_OscConfig: each oscillator named in the request
      takes its requested state, and the PLL is switched off, or on with the
      requested source and factors, unless the request says PllNone. */
  function ApplyOscConfig(t: ClockTree, r: OscInit): ClockTree {
    var t1 := if OscHse in r.oscillatorType then t.(hse := r.hseState) else t;
    var t2 := if OscHsi in r.oscillatorType then
                t1.(hsi := r.hsiState,
                    hsiCalibration := if r.hsiState == HsiOn then r.hsiCalibration else t1.hsiCalibration)
              else t1;
    match r.pll.state
    case PllNone => t2
    case PllOff => t2.(pllOn := false)
    case PllOn => t2.(pllOn := true, pll := r.pll.Factors())
  }

  /** A successful HAL_RCC_ClockConfig: the flash latency becomes the one
      given, and each clock named in the record takes its source or divider. */
  function ApplyClockConfig(t: ClockTree, c: ClkInit, latency: nat): ClockTree {
    var t1 := t.(flashLatency := latency);
    var t2 := if ClockHclk in c.clockType then t1.(ahbDivider := c.ahbDivider) else t1;
    var t3 := if ClockSysclk in c.clockType then t2.(sysclkSource := c.sysclkSource) else t2;
    var t4 := if ClockPclk1 in c.clockType then t3.(apb1Divider := c.apb1Divider) else t3;
    if ClockPclk2 in c.clockType then t4.(apb2Divider := c.apb2Divider) else t4
  }

  /** The effect of one HAL call on the tree. */
  function Step(t: ClockTree, call: HalCall, answers: HalAnswers): ClockTree {
    match call
    case GetOscConfigCall => t
    case OscConfigCall(r) =>
      if answers.oscConfig(t, r) == HalOk then ApplyOscConfig(t, r) else t
    case ClockConfigCall(c, latency) =>
      if answers.clockConfig(t, c, latency) == HalOk then ApplyClockConfig(t, c, latency) else t
  }

  predicate NoClockConfig(calls: seq<HalCall>) {
    forall i | 0 <= i < |calls| :: !calls[i].ClockConfigCall?
  }

  /** The settings only HAL_RCC_ClockConfig changes. */
  predicate SameBusSettings(t: ClockTree, u: ClockTree) {
    u.sysclkSource == t.sysclkSource && u.ahbDivider == t.ahbDivider &&
    u.apb1Divider == t.apb1Divider && u.apb2Divider == t.apb2Divider &&
    u.flashLatency == t.flashLatency
  }

  /** The tree after a sequence of HAL calls. A sequence without
      HAL_RCC_ClockConfig leaves the system clock source, the bus dividers
      and the flash latency as they were. */
  function Replay(t: ClockTree, calls: seq<HalCall>, answers: HalAnswers): (u: ClockTree)
    ensures NoClockConfig(calls) ==> SameBusSettings(t, u)
    decreases |calls|
  {
    if calls == [] then t
    else
      assert NoClockConfig(calls) ==> NoClockConfig(calls[1..]) by {
        forall i | 0 <= i < |calls| - 1 ensures calls[1..][i] == calls[i + 1] { }
      }
      Replay(Step(t, calls[0], answers), calls[1..], answers)
  }

  /** Replaying two logs one after the other is replaying their
      concatenation. */
  lemma {:induction false} ReplayAppend(t: ClockTree, a: seq<HalCall>, b: seq<HalCall>, answers: HalAnswers)
    ensures Replay(t, a + b, answers) == Replay(Replay(t, a, answers), b, answers)
    decreases |a|
  {
    if a == [] {
      assert a + b == b;
    } else {
      assert (a + b)[0] == a[0];
      assert (a + b)[1..] == a[1..] + b;
      ReplayAppend(Step(t, a[0], answers), a[1..], b, answers);
    }
  }

  /** The HAL as an object: the clock tree it drives and the log of calls
      made on it. Valid() says the tree is what the logged calls made of the
      tree the HAL started with. */
  class Rcc {
    var tree: ClockTree
    var log: seq<HalCall>
    ghost const initial: ClockTree
    const answers: HalAnswers

    ghost predicate Valid()
      reads this
    {
      tree == Replay(initial, log, answers)
    }

    constructor (t: ClockTree, answers: HalAnswers)
      ensures Valid() && tree == t && log == [] && this.answers == answers
    {
      tree := t;
      log := [];
      initial := t;
      this.answers := answers;
    }

    /** HAL_RCC_GetOscConfig: reports the current oscillator configuration
        and changes nothing. */
    method GetOscConfig() returns (r: OscInit)
      requires Valid()
      modifies this`log
      ensures Valid()
      ensures r == ReadOscConfig(tree) && r.pll.state == (if tree.pllOn then PllOn else PllOff)
      ensures log == old(log) + [GetOscConfigCall] && tree == old(tree)
    {
      r := ReadOscConfig(tree);
      ReplayAppend(initial, log, [GetOscConfigCall], answers);
      log := log + [GetOscConfigCall];
    }

    /** HAL_RCC_OscConfig: applies the request exactly when the HAL answers
        HalOk. */
    method OscConfig(r: OscInit) returns (status: HalStatus)
      requires Valid()
      modifies this
      ensures Valid()
      ensures status == answers.oscConfig(old(tree), r)
      ensures tree == if status == HalOk then ApplyOscConfig(old(tree), r) else old(tree)
      ensures log == old(log) + [OscConfigCall(r)]
    {
      status := answers.oscConfig(tree, r);
      ReplayAppend(initial, log, [OscConfigCall(r)], answers);
      if status == HalOk {
        tree := ApplyOscConfig(tree, r);
      }
      log := log + [OscConfigCall(r)];
    }

    /** HAL_RCC_ClockConfig: applies the bus record and the flash latency
        exactly when the HAL answers HalOk. */
    method ClockConfig(c: ClkInit, latency: nat) returns (status: HalStatus)
      requires Valid()
      modifies this
      ensures Valid()
      ensures status == answers.clockConfig(old(tree), c, latency)
      ensures tree == if status == HalOk then ApplyClockConfig(old(tree), c, latency) else old(tree)
      ensures log == old(log) + [ClockConfigCall(c, latency)]
    {
      status := answers.clockConfig(tree, c, latency);
      ReplayAppend(initial, log, [ClockConfigCall(c, latency)], answers);
      if status == HalOk {
        tree := ApplyClockConfig(tree, c, latency);
      }
      log := log + [ClockConfigCall(c, latency)];
    }
  }
}
