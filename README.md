# libchula-qa memory manager, modelled in Dafny

libchula-qa's memory manager injects allocation faults for tests. It swaps
the three dispatch slots (malloc, realloc, free) of the platform's default
malloc zone for the interceptors of a *policy*. It records the active
manager and policy in two process-wide pointers. A manager can be frozen so
that the harness can allocate without tripping its own faults. Three
policies exist:

- **random** fails an allocation when a random byte is at most `0xff * failure_rate`;
- **counter** tallies calls and never fails one;
- **scheduled failure** counts calls and fails allocations once the count exceeds `fail_after`.

The project has three modules:

- `interception.dfy`, module `Interception`: the policies as values.
  `Step` is one intercepted call and `Run` is a series of calls.
  Its lemmas state what the policies promise over any series.
- `mem_mgr.dfy`, module `MemMgr`: the C structures as classes whose methods
  change their fields in place. These are the zone, the process-wide state
  (`Process`), `Manager`, `Policy` and the three policy classes. Each
  interceptor is a method. Its contract gives its counter change and its
  outcome outright, and ties both to `Step`.
- `scenarios.dfy`, module `Scenarios`: whole harness sessions built from
  fresh objects, with the outcomes and counters they must produce.

Platform calls are parameters. `mprotect` succeeding is `protectOk`. The
value `chula_random()` returned is `random`. Its `& 0xff` is `% 256`, since
Dafny's `%` is Euclidean and so matches two's-complement masking. A call
into the original allocator is the outcome `Forwarded`. An injected failure
is `Null`. In C, an interceptor casts `current_policy` to its own policy
type. The model makes that assumption a precondition: the policy passed in
is the one whose base `current_policy` points to.

Where the module's design description and the code disagree, the model follows the code:

- At failure rate 0.0 the random policy still fails an allocation whose random byte is 0, because the test is `<=` (`RandomZeroRate`).
- The scheduled-failure counter advances on allocations made while frozen; only a frozen free is not counted (`SchedTally`).
- Unfrozen frees advance the same scheduled-failure counter, so "the first `fail_after` allocations succeed" holds only when no unfrozen free comes between them (`SchedThreshold`, `SchedFirstCallsSucceed`).
- `chula_mem_policy_counter_init` does not zero the three tallies (`CounterPolicy.Init` modifies only the base slots).

## Model

| member | source | states |
|---|---|---|
| `Interception.Run` | libchula-qa/mem_mgr.c:145-312 | a series of intercepted calls gives one outcome per call; a policy keeps its kind and configuration, the random policy does not change, the scheduled-failure counter never decreases |
| `Interception.FrozenCallsForward` | libchula-qa/mem_mgr.c:145-312 | under every policy, a call made while the manager is frozen is forwarded |
| `Interception.FreeCallsForward` | libchula-qa/mem_mgr.c:175-312 | under every policy, a free is forwarded, frozen or not |
| `Interception.CounterForwardsAll` | libchula-qa/mem_mgr.c:206-243 | the counter policy forwards every call |
| `Interception.CounterTally` | libchula-qa/mem_mgr.c:206-243 | after any series, each tally has grown by exactly the number of unfrozen calls of its kind |
| `Interception.SchedTally` | libchula-qa/mem_mgr.c:267-312 | after any series, the counter has grown by the number of calls minus the frees made while frozen; `fail_after` is unchanged |
| `Interception.SchedThreshold` | libchula-qa/mem_mgr.c:267-299 | the i-th call fails iff it is an unfrozen malloc/realloc and the counter after counting it exceeds `fail_after` |
| `Interception.SchedFirstCallsSucceed` | libchula-qa/mem_mgr.c:267-299 | from counter 0, with only unfrozen allocations, the i-th call is forwarded iff i < `fail_after` |
| `Interception.SchedStaysFailed` | libchula-qa/mem_mgr.c:267-312 | once an unfrozen allocation has failed, every later unfrozen allocation fails |
| `Interception.RandomFullRateFails` | libchula-qa/mem_mgr.c:145-173 | at rate >= 1.0 every unfrozen malloc/realloc fails |
| `Interception.RandomZeroRate` | libchula-qa/mem_mgr.c:145-173 | at rate 0.0 a call fails iff it is an unfrozen malloc/realloc whose random byte is 0 |
| `Interception.RandomNegativeRateForwards` | libchula-qa/mem_mgr.c:145-173 | at a negative rate no call fails |
| `MemMgr.Process.constructor` | libchula-qa/mem_mgr.c:50-51 | at start the active pair is (NULL, NULL) and the zone holds the platform's functions |
| `MemMgr.Manager.Init` | libchula-qa/mem_mgr.c:53-69 | clears `frozen` and captures the zone's three slots as the system slots; returns ok |
| `MemMgr.Process.SetPolicy` | libchula-qa/mem_mgr.c:78-99 | if the protect step fails: error, and zone and active pair unchanged; otherwise ok, the zone's slots are the policy's and the active pair is (mgr, policy) |
| `MemMgr.Process.Reset` | libchula-qa/mem_mgr.c:101-105 | set_policy with the manager's own system slots: on success the zone holds the captured slots |
| `MemMgr.Manager.Freeze` | libchula-qa/mem_mgr.c:107-112 | sets `frozen`; changes no other field of any object |
| `MemMgr.Manager.Thaw` | libchula-qa/mem_mgr.c:114-119 | clears `frozen`; changes no other field of any object |
| `MemMgr.Policy.Init` | libchula-qa/mem_mgr.c:125-132 | the three slots become NULL; returns ok |
| `MemMgr.RandomPolicy.Init` | libchula-qa/mem_mgr.c:182-194 | installs the random interceptors in the base slots and stores the rate |
| `MemMgr.RandomPolicy.Malloc` | libchula-qa/mem_mgr.c:145-158 | NULL iff not frozen and the random byte is at most `0xff * rate`; changes nothing; agrees with `Step` |
| `MemMgr.RandomPolicy.Realloc` | libchula-qa/mem_mgr.c:160-173 | the same decision as malloc; changes nothing; agrees with `Step` |
| `MemMgr.RandomPolicy.Free` | libchula-qa/mem_mgr.c:175-180 | always forwarded, for every random value; agrees with `Step` |
| `MemMgr.CounterPolicy.Init` | libchula-qa/mem_mgr.c:245-255 | installs the counter interceptors; leaves the tallies untouched |
| `MemMgr.CounterPolicy.Malloc` | libchula-qa/mem_mgr.c:206-217 | forwarded; `n_malloc` up by one unless frozen, the other tallies unchanged; agrees with `Step` |
| `MemMgr.CounterPolicy.Realloc` | libchula-qa/mem_mgr.c:219-230 | forwarded; `n_realloc` up by one unless frozen, the other tallies unchanged; agrees with `Step` |
| `MemMgr.CounterPolicy.Free` | libchula-qa/mem_mgr.c:232-243 | forwarded; `n_free` up by one unless frozen, the other tallies unchanged; agrees with `Step` |
| `MemMgr.SchedFailPolicy.Init` | libchula-qa/mem_mgr.c:315-328 | counter 0, `fail_after` stored, scheduled-failure interceptors installed |
| `MemMgr.SchedFailPolicy.Malloc` | libchula-qa/mem_mgr.c:267-282 | counter up by one even when frozen; NULL iff not frozen and the new counter exceeds `fail_after`; agrees with `Step` |
| `MemMgr.SchedFailPolicy.Realloc` | libchula-qa/mem_mgr.c:284-299 | the same as malloc, on the shared counter |
| `MemMgr.SchedFailPolicy.Free` | libchula-qa/mem_mgr.c:301-312 | forwarded; counter up by one only when not frozen |
| `Scenarios.ScheduledFailureSession` | libchula-qa/mem_mgr.c:267-328 | `fail_after` = 2: three mallocs give forwarded, forwarded, NULL; frozen, forwarded; thawed, NULL |
| `Scenarios.CounterSession` | libchula-qa/mem_mgr.c:206-255 | only unfrozen calls are tallied (2 mallocs, 1 realloc, 1 free) and all six calls are forwarded |
| `Scenarios.RandomSession` | libchula-qa/mem_mgr.c:145-194 | while frozen, malloc and realloc are forwarded whatever the random value; free always is; thawed at rate >= 1.0 malloc fails, at a negative rate it does not |
| `Scenarios.InstallThenReset` | libchula-qa/mem_mgr.c:53-105 | a successful install puts the counter interceptors in the zone; a successful reset brings back exactly the slots captured at init; a failed step leaves the zone as it was |
| `Scenarios.FreezeThawSession` | libchula-qa/mem_mgr.c:78-119 | freeze then thaw leaves the installed slots, the active pair and the policy counter unchanged |

## Left out

- The build without `HAVE_MALLOC_DEFAULT_ZONE` is not modelled. In that build every manager operation returns ok and changes nothing.
- `malloc_default_zone`, `getpagesize` and `mprotect` are platform calls. The zone is one `Zone` object, and `mprotect`'s result is the `protectOk` parameter.
- The real allocator is not modelled. Calling it is the outcome `Forwarded`; its own result (a pointer, or a real NULL) is not modelled.
- The platform's jump from a zone slot into the installed interceptor is not modelled. A caller invokes the interceptor method directly. The precondition `g.currentPolicy == base` stands for the C cast of `current_policy`.
- `chula_random()` is not modelled; the value it returns is a parameter.
- `MemMgr.RandomPolicy.Malloc`: `failure_rate` is a C `float`, and `0xff * failure_rate` is float arithmetic. The model uses exact reals, so float rounding is not modelled.
- `MemMgr.SchedFailPolicy.Malloc`: `counter` is a `uint32_t`, modelled as an unbounded `nat`, so wrap-around after 2^32 calls is not modelled. The same holds for the three counter-policy tallies.
- The `mrproper` functions (lines 71-76, 134-139, 196-200, 257-261, 330-334) are no-ops that return ok and are not modelled.
- The C structures live in storage the caller provides. The constructors model that storage as zero-filled. The `Init` methods model the library's own `*_init` functions.
- `CI/headers-check.py` is a CI script that scans header files. It is not part of this model.
