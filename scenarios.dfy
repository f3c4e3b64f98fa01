/**
  Whole test-harness sessions against the memory manager: a fresh process,
  a manager set up on it, a policy installed, calls intercepted, the
  manager frozen, thawed and reset. Each method starts from newly created
  objects, so what it returns depends only on its parameters.
 */
module Scenarios {
  import opened Interception
  import opened MemMgr

  /** A scheduled-failure policy with `fail_after` = 2: three unfrozen
      mallocs forward, forward and fail; a malloc while frozen forwards; after
      the thaw the next malloc fails, since the counter only grew. */
  method ScheduledFailureSession() returns (outcomes: seq<Outcome>)
    ensures outcomes == [Forwarded, Forwarded, Null, Forwarded, Null]
  {
    var g := new Process();
    var mgr := new Manager();
    var _ := mgr.Init(g.zone);
    var policy := new SchedFailPolicy();
    var _ := policy.Init(2);
    var _ := g.SetPolicy(mgr, policy.base, true);
    var a := policy.Malloc(g);
    var b := policy.Malloc(g);
    var c := policy.Malloc(g);
    var _ := mgr.Freeze();
    var d := policy.Malloc(g);
    var _ := mgr.Thaw();
    var e := policy.Malloc(g);
    outcomes := [a, b, c, d, e];
  }

  /** A counter policy over fresh storage: two mallocs and a free, then
      while frozen a malloc and a realloc, then after the thaw one realloc.
      Only the unfrozen calls are tallied, and every call is forwarded. */
  method CounterSession() returns (counts: Counts, outcomes: seq<Outcome>)
    ensures counts == Counts(2, 1, 1)
    ensures outcomes == [Forwarded, Forwarded, Forwarded, Forwarded, Forwarded, Forwarded]
  {
    var g := new Process();
    var mgr := new Manager();
    var _ := mgr.Init(g.zone);
    var policy := new CounterPolicy();
    var _ := policy.Init();
    var _ := g.SetPolicy(mgr, policy.base, true);
    var a := policy.Malloc(g);
    var b := policy.Malloc(g);
    var c := policy.Free(g);
    var _ := mgr.Freeze();
    var d := policy.Malloc(g);
    var e := policy.Realloc(g);
    var _ := mgr.Thaw();
    var f := policy.Realloc(g);
    counts := Counts(policy.nMalloc, policy.nRealloc, policy.nFree);
    outcomes := [a, b, c, d, e, f];
  }

  /** A random policy at `rate`: while frozen neither malloc nor realloc is
      refused whatever the generator says, and free never is; unfrozen, a
      rate of 1.0 or more refuses every malloc. */
  method RandomSession(rate: real, random: int) returns (frozenMalloc: Outcome, frozenRealloc: Outcome, release: Outcome, thawedMalloc: Outcome)
    ensures frozenMalloc == Forwarded && frozenRealloc == Forwarded && release == Forwarded
    ensures rate >= 1.0 ==> thawedMalloc == Null
    ensures rate < 0.0 ==> thawedMalloc == Forwarded
  {
    var g := new Process();
    var mgr := new Manager();
    var _ := mgr.Init(g.zone);
    var policy := new RandomPolicy();
    var _ := policy.Init(rate);
    var _ := g.SetPolicy(mgr, policy.base, true);
    var _ := mgr.Freeze();
    frozenMalloc := policy.Malloc(g, random);
    frozenRealloc := policy.Realloc(g, random);
    release := policy.Free(g);
    var _ := mgr.Thaw();
    thawedMalloc := policy.Malloc(g, random);
  }

  /** Install a counter policy, then reset: the zone holds the counter
      interceptors exactly when the install could make the zone writable,
      and after a reset that can, the slots captured at init are back. A
      failed install or reset leaves the zone as it was. */
  method InstallThenReset(installOk: bool, resetOk: bool)
    returns (captured: Slots, installed: Slots, restored: Slots, installRet: Ret, resetRet: Ret)
    ensures captured == Slots(Platform, Platform, Platform)
    ensures installRet == (if installOk then Ok else Error)
    ensures installed == (if installOk then Slots(CounterHandler, CounterHandler, CounterHandler) else captured)
    ensures resetRet == (if resetOk then Ok else Error)
    ensures restored == (if resetOk then captured else installed)
  {
    var g := new Process();
    var mgr := new Manager();
    var _ := mgr.Init(g.zone);
    captured := mgr.system.Handlers();
    var policy := new CounterPolicy();
    var _ := policy.Init();
    installRet := g.SetPolicy(mgr, policy.base, installOk);
    installed := g.zone.Current();
    resetRet := g.Reset(mgr, resetOk);
    restored := g.zone.Current();
  }

  /** Freeze and thaw touch nothing but the flag: the installed slots, the
      active pair and the policy's counter stay as they were. */
  method FreezeThawSession(failAfter: uint32) returns (frozen: bool, thawed: bool, slotsKept: bool, pairKept: bool, counter: nat)
    ensures frozen && !thawed
    ensures slotsKept && pairKept
    ensures counter == 0
  {
    var g := new Process();
    var mgr := new Manager();
    var _ := mgr.Init(g.zone);
    var policy := new SchedFailPolicy();
    var _ := policy.Init(failAfter);
    var _ := g.SetPolicy(mgr, policy.base, true);
    var slots := g.zone.Current();
    var _ := mgr.Freeze();
    frozen := mgr.frozen;
    var _ := mgr.Thaw();
    thawed := mgr.frozen;
    slotsKept := g.zone.Current() == slots;
    pairKept := g.currentManager == mgr && g.currentPolicy == policy.base;
    counter := policy.counter;
  }
}
