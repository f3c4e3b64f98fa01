/**
  libchula-qa's memory manager as objects that change in place: the
  platform's default malloc zone with its three dispatch slots, the
  process-wide active pair (`current_manager`, `current_policy`), the
  manager with its `frozen` flag and its copy of the system slots, and the
  three policies with their interceptors. The platform calls become
  parameters: whether `mprotect` succeeded, and what `chula_random()`
  returned. An interceptor's call into the original allocator is the
  outcome `Forwarded`.
 */
module MemMgr {
  import opened Interception

  /** The library's `ret_t`, as far as this file uses it. */
  datatype Ret = Ok | Error

  /** What a dispatch slot holds: nothing (NULL), the platform's own
      implementation, or the interceptor of one policy kind for that slot. */
  datatype Handler = NoHandler | Platform | RandomHandler | CounterHandler | AfterHandler

  /** The malloc, realloc and free slots of a zone or a policy. */
  datatype Slots = Slots(malloc: Handler, realloc: Handler, free: Handler)

  /** The platform's default malloc zone; only its three slots are modelled. */
  class Zone {
    var malloc: Handler
    var realloc: Handler
    var free: Handler

    function Current(): Slots
      reads this
    {
      Slots(malloc, realloc, free)
    }

    /** A zone as the process starts: every slot holds the platform's code. */
    constructor ()
      ensures Current() == Slots(Platform, Platform, Platform)
    {
      malloc, realloc, free := Platform, Platform, Platform;
    }
  }

  /** `chula_mem_policy_t`: the three slots a policy installs. */
  class Policy {
    var malloc: Handler
    var realloc: Handler
    var free: Handler

    function Handlers(): Slots
      reads this
    {
      Slots(malloc, realloc, free)
    }

    /** Zero-filled storage for a policy. */
    constructor ()
      ensures Handlers() == Slots(NoHandler, NoHandler, NoHandler)
    {
      malloc, realloc, free := NoHandler, NoHandler, NoHandler;
    }

    /** `chula_mem_policy_init`: clears the three slots. */
    method Init() returns (r: Ret)
      modifies this
      ensures r == Ok
      ensures Handlers() == Slots(NoHandler, NoHandler, NoHandler)
    {
      malloc, realloc, free := NoHandler, NoHandler, NoHandler;
      r := Ok;
    }
  }

  /** `chula_mem_mgr_t`: the frozen flag and the captured system slots. */
  class Manager {
    var frozen: bool
    const system: Policy

    /** Zero-filled storage for a manager. */
    constructor ()
      ensures fresh(system) && !frozen
      ensures system.Handlers() == Slots(NoHandler, NoHandler, NoHandler)
    {
      frozen := false;
      system := new Policy();
    }

    /** `chula_mem_mgr_init`: thaws the manager and captures the zone's
        current slots as the system slots. The zone is only read. */
    method Init(zone: Zone) returns (r: Ret)
      modifies this, system
      ensures r == Ok && !frozen
      ensures system.Handlers() == zone.Current()
    {
      frozen := false;
      system.malloc := zone.malloc;
      system.realloc := zone.realloc;
      system.free := zone.free;
      r := Ok;
    }

    /** `chula_mem_mgr_freeze`: only the flag changes. */
    method Freeze() returns (r: Ret)
      modifies this`frozen
      ensures r == Ok && frozen
    {
      frozen := true;
      r := Ok;
    }

    /** `chula_mem_mgr_thaw`: only the flag changes. */
    method Thaw() returns (r: Ret)
      modifies this`frozen
      ensures r == Ok && !frozen
    {
      frozen := false;
      r := Ok;
    }
  }

  /** The process-wide state: the default zone and the active pair. */
  class Process {
    const zone: Zone
    var currentManager: Manager?
    var currentPolicy: Policy?

    /** A process before any manager is set up: the zone holds the
        platform's code and there is no active pair. */
    constructor ()
      ensures fresh(zone) && zone.Current() == Slots(Platform, Platform, Platform)
      ensures currentManager == null && currentPolicy == null
    {
      zone := new Zone();
      currentManager, currentPolicy := null, null;
    }

    /** `chula_mem_mgr_set_policy`: when making the zone writable succeeds
        (`protectOk`), the zone's slots become the policy's and the active
        pair becomes (mgr, policy); otherwise nothing changes and the result
        is an error. The policy itself is only read. */
    method SetPolicy(mgr: Manager, policy: Policy, protectOk: bool) returns (r: Ret)
      modifies this, zone
      ensures r == (if protectOk then Ok else Error)
      ensures protectOk ==> zone.Current() == policy.Handlers()
                            && currentManager == mgr && currentPolicy == policy
      ensures !protectOk ==> unchanged(this, zone)
    {
      if !protectOk {
        return Error;
      }
      zone.malloc := policy.malloc;
      zone.realloc := policy.realloc;
      zone.free := policy.free;
      currentManager := mgr;
      currentPolicy := policy;
      r := Ok;
    }

    /** `chula_mem_mgr_reset`: installs the manager's own system slots as
        the policy. */
    method Reset(mgr: Manager, protectOk: bool) returns (r: Ret)
      modifies this, zone
      ensures r == (if protectOk then Ok else Error)
      ensures protectOk ==> zone.Current() == mgr.system.Handlers()
                            && currentManager == mgr && currentPolicy == mgr.system
      ensures !protectOk ==> unchanged(this, zone)
    {
      r := SetPolicy(mgr, mgr.system, protectOk);
    }
  }

  /** `chula_mem_policy_random_t`: fails allocations at random. */
  class RandomPolicy {
    const base: Policy
    var failureRate: real

    function State(): PolicyState
      reads this
    {
      RandomState(failureRate)
    }

    /** Zero-filled storage for a random policy. */
    constructor ()
      ensures fresh(base) && failureRate == 0.0
    {
      base := new Policy();
      failureRate := 0.0;
    }

    /** `chula_mem_policy_random_init`: the random interceptors in the
        slots, `rate` as the failure rate. */
    method Init(rate: real) returns (r: Ret)
      modifies this, base
      ensures r == Ok && failureRate == rate
      ensures base.Handlers() == Slots(RandomHandler, RandomHandler, RandomHandler)
    {
      r := base.Init();
      base.malloc := RandomHandler;
      base.realloc := RandomHandler;
      base.free := RandomHandler;
      failureRate := rate;
      r := Ok;
    }

    /** `_random_malloc`: unless the active manager is frozen, fails when
        the low byte of `random` is at most 0xff times the rate. */
    method Malloc(g: Process, random: int) returns (o: Outcome)
      requires g.currentManager != null && g.currentPolicy == base
      ensures o == Null <==> !g.currentManager.frozen && (random % 256) as real <= 255.0 * failureRate
      ensures Step(State(), Event(Call.Malloc, g.currentManager.frozen), random) == Reply(State(), o)
    {
      o := Forwarded;
      if !g.currentManager.frozen {
        if (random % 256) as real <= 255.0 * failureRate {
          o := Null;
        }
      }
    }

    /** `_random_realloc`: the same decision as `_random_malloc`. */
    method Realloc(g: Process, random: int) returns (o: Outcome)
      requires g.currentManager != null && g.currentPolicy == base
      ensures o == Null <==> !g.currentManager.frozen && (random % 256) as real <= 255.0 * failureRate
      ensures Step(State(), Event(Call.Realloc, g.currentManager.frozen), random) == Reply(State(), o)
    {
      o := Forwarded;
      if !g.currentManager.frozen {
        if (random % 256) as real <= 255.0 * failureRate {
          o := Null;
        }
      }
    }

    /** `_random_free`: always forwards; the generator is not consulted. */
    method Free(g: Process) returns (o: Outcome)
      requires g.currentManager != null && g.currentPolicy == base
      ensures o == Forwarded
      ensures forall random :: Step(State(), Event(Call.Free, g.currentManager.frozen), random) == Reply(State(), o)
    {
      o := Forwarded;
    }
  }

  /** `chula_mem_policy_counter_t`: counts calls, never fails one. */
  class CounterPolicy {
    const base: Policy
    var nMalloc: nat
    var nRealloc: nat
    var nFree: nat

    function State(): PolicyState
      reads this
    {
      CounterState(Counts(nMalloc, nRealloc, nFree))
    }

    /** Zero-filled storage for a counter policy. */
    constructor ()
      ensures fresh(base) && State() == CounterState(Counts(0, 0, 0))
    {
      base := new Policy();
      nMalloc, nRealloc, nFree := 0, 0, 0;
    }

    /** `chula_mem_policy_counter_init`: the counter interceptors in the
        slots. The tallies are left as they were. */
    method Init() returns (r: Ret)
      modifies base
      ensures r == Ok
      ensures base.Handlers() == Slots(CounterHandler, CounterHandler, CounterHandler)
    {
      r := base.Init();
      base.malloc := CounterHandler;
      base.realloc := CounterHandler;
      base.free := CounterHandler;
      r := Ok;
    }

    /** `_counter_malloc`: raises `n_malloc` unless frozen; forwards. */
    method Malloc(g: Process) returns (o: Outcome)
      requires g.currentManager != null && g.currentPolicy == base
      modifies this
      ensures o == Forwarded
      ensures nMalloc == old(nMalloc) + (if g.currentManager.frozen then 0 else 1)
      ensures nRealloc == old(nRealloc) && nFree == old(nFree)
      ensures Step(old(State()), Event(Call.Malloc, g.currentManager.frozen), 0) == Reply(State(), o)
    {
      if !g.currentManager.frozen {
        nMalloc := nMalloc + 1;
      }
      o := Forwarded;
    }

    /** `_counter_realloc`: raises `n_realloc` unless frozen; forwards. */
    method Realloc(g: Process) returns (o: Outcome)
      requires g.currentManager != null && g.currentPolicy == base
      modifies this
      ensures o == Forwarded
      ensures nRealloc == old(nRealloc) + (if g.currentManager.frozen then 0 else 1)
      ensures nMalloc == old(nMalloc) && nFree == old(nFree)
      ensures Step(old(State()), Event(Call.Realloc, g.currentManager.frozen), 0) == Reply(State(), o)
    {
      if !g.currentManager.frozen {
        nRealloc := nRealloc + 1;
      }
      o := Forwarded;
    }

    /** `_counter_free`: raises `n_free` unless frozen; forwards. */
    method Free(g: Process) returns (o: Outcome)
      requires g.currentManager != null && g.currentPolicy == base
      modifies this
      ensures o == Forwarded
      ensures nFree == old(nFree) + (if g.currentManager.frozen then 0 else 1)
      ensures nMalloc == old(nMalloc) && nRealloc == old(nRealloc)
      ensures Step(old(State()), Event(Call.Free, g.currentManager.frozen), 0) == Reply(State(), o)
    {
      if !g.currentManager.frozen {
        nFree := nFree + 1;
      }
      o := Forwarded;
    }
  }

  /** The range of C's `uint32_t`. */
  type uint32 = x: int | 0 <= x < 0x1_0000_0000

  /** `chula_mem_policy_sched_fail_t`: fails allocations once more than
      `fail_after` calls have been counted. */
  class SchedFailPolicy {
    const base: Policy
    var counter: nat
    var failAfter: uint32

    function State(): PolicyState
      reads this
    {
      SchedState(counter, failAfter)
    }

    /** Zero-filled storage for a scheduled-failure policy. */
    constructor ()
      ensures fresh(base) && State() == SchedState(0, 0)
    {
      base := new Policy();
      counter, failAfter := 0, 0;
    }

    /** `chula_mem_policy_sched_fail_init`: the scheduled-failure
        interceptors in the slots, the counter at 0, the threshold stored. */
    method Init(failAfter: uint32) returns (r: Ret)
      modifies this, base
      ensures r == Ok
      ensures State() == SchedState(0, failAfter)
      ensures base.Handlers() == Slots(AfterHandler, AfterHandler, AfterHandler)
    {
      r := base.Init();
      counter := 0;
      this.failAfter := failAfter;
      base.malloc := AfterHandler;
      base.realloc := AfterHandler;
      base.free := AfterHandler;
      r := Ok;
    }

    /** `_after_malloc`: counts the call even when frozen; fails it when not
        frozen and the new count exceeds `fail_after`. */
    method Malloc(g: Process) returns (o: Outcome)
      requires g.currentManager != null && g.currentPolicy == base
      modifies this
      ensures counter == old(counter) + 1 && failAfter == old(failAfter)
      ensures o == Null <==> !g.currentManager.frozen && counter > failAfter
      ensures Step(old(State()), Event(Call.Malloc, g.currentManager.frozen), 0) == Reply(State(), o)
    {
      counter := counter + 1;
      if !g.currentManager.frozen && counter > failAfter {
        return Null;
      }
      o := Forwarded;
    }

    /** `_after_realloc`: shares the counter and the rule of `_after_malloc`. */
    method Realloc(g: Process) returns (o: Outcome)
      requires g.currentManager != null && g.currentPolicy == base
      modifies this
      ensures counter == old(counter) + 1 && failAfter == old(failAfter)
      ensures o == Null <==> !g.currentManager.frozen && counter > failAfter
      ensures Step(old(State()), Event(Call.Realloc, g.currentManager.frozen), 0) == Reply(State(), o)
    {
      counter := counter + 1;
      if !g.currentManager.frozen && counter > failAfter {
        return Null;
      }
      o := Forwarded;
    }

    /** `_after_free`: counts the call only when not frozen; forwards. */
    method Free(g: Process) returns (o: Outcome)
      requires g.currentManager != null && g.currentPolicy == base
      modifies this
      ensures o == Forwarded
      ensures counter == old(counter) + (if g.currentManager.frozen then 0 else 1)
      ensures failAfter == old(failAfter)
      ensures Step(old(State()), Event(Call.Free, g.currentManager.frozen), 0) == Reply(State(), o)
    {
      if !g.currentManager.frozen {
        counter := counter + 1;
      }
      o := Forwarded;
    }
  }
}
