/** The ritual stage motor (hooks/useRitualMotor.ts): idle or running, a cyclic index into the
    stage table, and at most one pending timer. The timer is a pending-delay slot; `Fire` is the
    timeout callback running once that delay has elapsed. */
module RitualMotor {
  import opened Wrappers
  import opened Types
  import opened Constants

  /** The stage shown at the `k`-th activation since a start (counting from 0). */
  function StageAt(k: nat): RitualStage
  {
    RitualStages[k % |RitualStages|]
  }

  /** Milliseconds from a start to the `k`-th activation: the durations of the stages shown before it. */
  function ActivationTime(k: nat): nat
  {
    if k == 0 then 0 else ActivationTime(k - 1) + StageAt(k - 1).duration * 1000
  }

  /** Activations are strictly later one after the other, since every duration is positive. */
  lemma ActivationsIncrease(k: nat)
    ensures ActivationTime(k) < ActivationTime(k + 1)
  {
    RitualStageTable();
  }

  /** From a start, the stages activate in table order at 0, 23, 60, 121 and 163 seconds, and the
      first stage returns at 173 seconds. */
  lemma ActivationSchedule()
    ensures [StageAt(0), StageAt(1), StageAt(2), StageAt(3), StageAt(4), StageAt(5)]
         == RitualStages + [RitualStages[0]]
    ensures [ActivationTime(0), ActivationTime(1), ActivationTime(2), ActivationTime(3), ActivationTime(4), ActivationTime(5)]
         == [0, 23000, 60000, 121000, 163000, 173000]
  {
    RitualStageTable();
  }

  /** The schedule repeats every cycle: five activations later is one full cycle (173 s) later. */
  lemma {:induction false} ActivationPeriodic(k: nat)
    ensures StageAt(k + |RitualStages|) == StageAt(k)
    ensures ActivationTime(k + |RitualStages|) == ActivationTime(k) + 173000
  {
    RitualStageTable();
    assert (k + 5) % 5 == k % 5;
    if k == 0 {
      ActivationSchedule();
    } else {
      ActivationPeriodic(k - 1);
      assert (k - 1 + 5) % 5 == (k - 1) % 5;
    }
  }

  /** Advancing the stage index modulo the table size agrees with counting activations. */
  lemma NextIndex(a: nat)
    ensures (a % |RitualStages| + 1) % |RitualStages| == (a + 1) % |RitualStages|
  {
    assert |RitualStages| == 5;
    Mod5Step(a);
  }

  /** A running motor after activation `a - 1`: the index points at activation `a`, the shown
      stage is the one scheduled for `a - 1`, the clock is that activation's time, and a pending
      timer waits for exactly the shown stage's duration. */
  ghost predicate Running(a: nat, index: nat, shown: Option<RitualStage>, clock: nat, delay: Option<nat>)
  {
    a > 0
    && index == a % |RitualStages|
    && shown == Some(StageAt(a - 1))
    && clock == ActivationTime(a - 1)
    && (delay.Some? ==> delay.value == StageAt(a - 1).duration * 1000)
  }

  /** Firing the pending timer of a running motor shows the indexed stage, advances the index,
      and moves the clock by the delay: the motor is then running after activation `a`. */
  lemma RunningStep(a: nat, index: nat, shown: Option<RitualStage>, clock: nat, delay: nat)
    requires Running(a, index, shown, clock, Some(delay))
    ensures index < |RitualStages|
    ensures Running(a + 1, (index + 1) % |RitualStages|, Some(RitualStages[index]), clock + delay,
                    Some(RitualStages[index].duration * 1000))
  {
    NextIndex(a);
  }

  /** The modular step `NextIndex` relies on, over the table's literal size of five stages. */
  lemma Mod5Step(a: nat)
    ensures (a % 5 + 1) % 5 == (a + 1) % 5
  {
  }

  class StageMotor {
    var isRunning: bool
    var currentStage: Option<RitualStage>
    /** The index of the stage the next activation shows (`stageIndexRef`). */
    var stageIndex: nat
    /** The delay of the one pending timer in milliseconds, if a timer is pending (`timerIdRef`). */
    var pendingDelay: Option<nat>
    /** Activations since the last start. */
    ghost var activations: nat
    /** Milliseconds from the last start to the latest activation. */
    ghost var clock: nat

    /** Idle: no stage and no timer. Running: the latest activation showed stage
        `activations - 1` of the cycle at its scheduled time, the index points at the next stage,
        and the pending timer, if any, waits for exactly the shown stage's duration. */
    ghost predicate Valid()
      reads this
    {
      stageIndex < |RitualStages|
      && (!isRunning ==> currentStage.None? && pendingDelay.None?)
      && (isRunning ==> Running(activations, stageIndex, currentStage, clock, pendingDelay))
    }

    /** The hook's initial state: idle, index 0. */
    constructor ()
      ensures Valid() && !isRunning && stageIndex == 0
    {
      isRunning := false;
      currentStage := None;
      stageIndex := 0;
      pendingDelay := None;
      activations := 0;
      clock := 0;
    }

    /** `nextStage`: show the indexed stage, advance the index cyclically, and replace any pending
        timer with one for the shown stage's duration. */
    method NextStage()
      requires stageIndex < |RitualStages|
      modifies this
      ensures currentStage == Some(RitualStages[old(stageIndex)])
      ensures stageIndex == (old(stageIndex) + 1) % |RitualStages|
      ensures pendingDelay == Some(RitualStages[old(stageIndex)].duration * 1000)
      ensures isRunning == old(isRunning) && activations == old(activations) && clock == old(clock)
    {
      var stage := RitualStages[stageIndex];
      currentStage := Some(stage);
      stageIndex := (stageIndex + 1) % |RitualStages|;
      pendingDelay := Some(stage.duration * 1000);
    }

    /** `startRitual`: ignored while running; otherwise running from stage 0 with its timer pending. */
    method StartRitual()
      requires Valid()
      modifies this
      ensures Valid()
      ensures old(isRunning) ==>
                isRunning && currentStage == old(currentStage) && stageIndex == old(stageIndex)
                && pendingDelay == old(pendingDelay)
      ensures !old(isRunning) ==>
                isRunning && currentStage == Some(RitualStages[0]) && stageIndex == 1
                && pendingDelay == Some(RitualStages[0].duration * 1000) && activations == 1 && clock == 0
    {
      if isRunning {
        return;
      }
      RitualStageTable();
      isRunning := true;
      stageIndex := 0;
      activations := 0;
      clock := 0;
      NextStage();
      activations := 1;
    }

    /** The pending timer elapses and its callback runs `nextStage`. */
    method Fire()
      requires Valid() && pendingDelay.Some?
      modifies this
      ensures Valid() && isRunning && pendingDelay.Some?
      ensures currentStage == Some(RitualStages[old(stageIndex)])
      ensures stageIndex == (old(stageIndex) + 1) % |RitualStages|
      ensures pendingDelay == Some(RitualStages[old(stageIndex)].duration * 1000)
      ensures activations == old(activations) + 1 && clock == old(clock) + old(pendingDelay.value)
    {
      RunningStep(activations, stageIndex, currentStage, clock, pendingDelay.value);
      clock := clock + pendingDelay.value;
      NextStage();
      activations := activations + 1;
    }

    /** `stopRitual`: ignored while idle; otherwise cancels the timer and clears the stage. */
    method StopRitual()
      requires Valid()
      modifies this
      ensures Valid() && !isRunning && currentStage.None? && pendingDelay.None?
      ensures stageIndex == old(stageIndex)
    {
      if !isRunning {
        return;
      }
      pendingDelay := None;
      isRunning := false;
      currentStage := None;
    }

    /** The unmount cleanup: cancels the pending timer, if any, and changes nothing else. */
    method Teardown()
      requires Valid()
      modifies this
      ensures Valid() && pendingDelay.None?
      ensures isRunning == old(isRunning) && currentStage == old(currentStage) && stageIndex == old(stageIndex)
    {
      pendingDelay := None;
    }
  }

  /** Starting a motor and letting its timer fire five times shows the stages in table order at
      their scheduled times and comes back to the first stage after one full cycle. */
  method FirstCycle() returns (shown: seq<RitualStage>, times: seq<nat>)
    ensures shown == RitualStages + [RitualStages[0]]
    ensures times == [0, 23000, 60000, 121000, 163000, 173000]
  {
    var motor := new StageMotor();
    motor.StartRitual();
    var elapsed := 0;
    shown := [motor.currentStage.value];
    times := [elapsed];
    var k := 1;
    while k < 6
      invariant 1 <= k <= 6
      invariant motor.Valid() && motor.isRunning && motor.pendingDelay.Some? && motor.activations == k
      invariant elapsed == motor.clock
      invariant shown == seq(k, i requires 0 <= i < k => StageAt(i))
      invariant times == seq(k, i requires 0 <= i < k => ActivationTime(i))
    {
      elapsed := elapsed + motor.pendingDelay.value;
      motor.Fire();
      shown := shown + [motor.currentStage.value];
      times := times + [elapsed];
      k := k + 1;
    }
    ActivationSchedule();
  }
}
