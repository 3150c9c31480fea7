# Composite component runtime: upcall dispatch and initial state

This project models the user-level runtime that every Composite component links
in (`src/components/lib/cos_component.c`). It covers two things:

- the **upcall dispatcher** `cos_upcall_fn`, the one entry point through which
  the kernel transfers control into a component;
- the **statically initialised globals** the loader and the kernel find in the
  program image: the identity fields `cos_this_spd_id` and `cos_heap_ptr`, the
  scheduler notification area `cos_sched_notifications`, and the component
  information descriptor `cos_comp_info` with its table of five restartable
  atomic sequences (RAS).

The dispatcher is a closed three-way rule over the upcall tag.
`COS_UPCALL_BRAND_EXEC` calls `cos_upcall_exec(arg1)`. `COS_UPCALL_BOOTSTRAP`
calls `cos_argreg_init()` and then `cos_init(arg1)`. Any other tag faults by
writing through NULL. The handlers `cos_init` and `cos_upcall_exec`, and
`main`, are weak no-op defaults that a component may replace at link time.

Modules:

- `ComponentState` (`component_state.dfy`): addresses (`Addr`: NULL, a
  link-time symbol, or an address the model does not name), the notification
  area, the descriptor and the initial values of all globals. It also holds a
  lemma about RAS placement, stated under an explicit assumption about where
  the linker puts the regions.
- `Upcall` (`upcall.dfy`): hooks and `Dispatch`, a function from the hooks,
  tag, three arguments and globals to an `Outcome`. The outcome is either
  `Returned(calls, state)`, with the calls the dispatcher made in order, or
  `Trap`. A hook is `Default` or `Supplied(effect)`. This stands for weak and
  strong symbol binding: a supplied hook is modelled by its effect on the
  globals.
- `UpcallRuns` (`upcall_runs.dfy`): the kernel delivers upcalls to a
  component one at a time. `Deliver` folds `Dispatch` over a sequence of
  upcalls and stops at the first trap. Its lemmas carry the one-call
  guarantees over any number of upcalls.

## Model

| member | source | states |
|---|---|---|
| `ComponentState.InitialSchedArea` | src/components/lib/cos_component.c:25-29 | The notification area starts at the zero baseline: no next-thread hint, no lock owner, no queued thread, no pending event. |
| `ComponentState.InitialRasTable` | src/components/lib/cos_component.c:91-95 | The RAS table has exactly five entries, in the order cmpxchg, user1, user2, user3, user4. Each entry pairs a region's start with that same region's end. |
| `ComponentState.RasOrderCoversRegion` | src/components/lib/cos_component.c:91-95 | Every atomic region (cmpxchg, user1 to user4) has an entry in the table. |
| `ComponentState.RasOrderHasNoDuplicates` | src/components/lib/cos_component.c:91-95 | No region appears twice in the table. |
| `ComponentState.InitialInfo` | src/components/lib/cos_component.c:84-97 | The descriptor starts with spd id 0 and heap pointer 0, and every freelist slot (slot 0 included) has a NULL freelist and thread 0. `cos_poly` is all zero. The upcall entry, scheduler area and user-caps fields point at their symbols. The RAS table is the five well-paired regions in order. |
| `ComponentState.InitialGlobals` | src/components/lib/cos_component.c:22-29 | `cos_this_spd_id` is 0 and `cos_heap_ptr` is NULL. The notification area is at its zero baseline, and the descriptor is the initial one. |
| `ComponentState.InitialDescriptorPublishesSchedArea` | src/components/lib/cos_component.c:84-97 | In the initial image, the descriptor leads to the component's notification area, and that area is at the zero baseline. |
| `ComponentState.RasTableWellFormed` | src/components/lib/cos_component.c:73-95 | If the linker gives each region a non-empty range and keeps regions apart, then every published RAS range is non-empty and no two overlap. |
| `Upcall.RunHook` | src/components/lib/cos_component.c:31-41 | The default `cos_init` and `cos_upcall_exec` leave every global unchanged. |
| `Upcall.RunMain` | src/components/lib/cos_component.c:65-69 | The default `main` returns 0 and changes nothing. |
| `Upcall.Dispatch` | src/components/lib/cos_component.c:44-63 | The dispatcher traps exactly on unrecognised tags. Bootstrap makes exactly the calls `[ArgregInit, Init(arg1)]`, with argument registers before the initializer, and leaves the state `cos_init` leaves. Branded execution makes exactly `[Exec(arg1)]` and leaves the state `cos_upcall_exec` leaves. |
| `Upcall.ExactlyOneRoute` | src/components/lib/cos_component.c:46-61 | Every upcall takes exactly one of three routes: trap, branded execution or bootstrap. |
| `Upcall.OnlyFirstArgumentMatters` | src/components/lib/cos_component.c:44-62 | The outcome does not depend on the second or third argument. |
| `Upcall.DefaultDispatchKeepsGlobals` | src/components/lib/cos_component.c:31-63 | With the default handlers, an upcall that returns leaves every global of this file as it was. What `cos_argreg_init` does to the argument region is not modelled. |
| `UpcallRuns.Deliver` | src/components/lib/cos_component.c:58-60 | A run of upcalls traps if and only if one of its upcalls carries an unrecognised tag. |
| `UpcallRuns.BootstrapOrderOverRuns` | src/components/lib/cos_component.c:52-56 | Over any run, each call of the user initializer comes immediately after an argument-register init, and each such init is followed immediately by an initializer call. |
| `UpcallRuns.DefaultHooksKeepGlobalsOverRuns` | src/components/lib/cos_component.c:31-41 | With the default handlers, any number of upcalls leaves every global of this file as it was. |
| `UpcallRuns.HandlerArgumentsOverRuns` | src/components/lib/cos_component.c:47-56 | Every `Init(a)` made over a run comes from a bootstrap upcall whose first argument is `a`. Every `Exec(a)` comes from a branded-execution upcall whose first argument is `a`. |
| `UpcallRuns.InitRunsOncePerBootstrap` | src/components/lib/cos_component.c:52-56 | A run that does not trap calls the user initializer exactly once per bootstrap upcall. |
| `UpcallRuns.DeliverMakesExpectedCalls` | src/components/lib/cos_component.c:44-63 | A run makes exactly the calls of the upcalls before the first unrecognised tag, in delivery order. Each bootstrap contributes `[ArgregInit, Init(arg1)]` with its own `arg1`, and each branded execution contributes `[Exec(arg1)]`. The run traps exactly when such a tag is present. |
| `UpcallRuns.TwoBootstrapsInOrder` | src/components/lib/cos_component.c:52-56 | Two bootstrap upcalls with arguments `a` then `b` give the log `[ArgregInit, Init(a), ArgregInit, Init(b)]`. |

## Left out

- `stkmgr_stack_space` and `cos_stack_free_list` (lines 11-14): bare storage. This file has no operations on them, and the source marks them for removal.
- `cos_argreg_init`: its body is in a header that is not part of this model. It appears only as the `ArgregInit` event, and its effect on memory is not modelled.
- Concrete addresses of the linker symbols (`cos_atomic_*`, `cos_upcall_entry`, `ST_user_caps`): fixed at link time and never checked by this code. The model keeps them symbolic. `RasTableWellFormed` takes non-empty, disjoint region placement as an explicit assumption (`RegionsWellPlaced`), because nothing here guarantees it. Nothing here promises that the RAS ranges stay clear of the dispatcher's own code either, so the model does not state it.
- The numeric values of `COS_UPCALL_BRAND_EXEC` and `COS_UPCALL_BOOTSTRAP`, and the lengths of `freelists` and `cos_poly`: they come from headers that are not part of this model. `UpcallType.Other` carries any other tag. The two array lengths are a parameter (`HeaderSizes`) of at least one element each, since the initialisers write index 0.
- The weak binding of `cos_upcall_fn` itself: only the runtime's own dispatcher is modelled, not a component's replacement for it.
- Weak and strong symbol resolution as a linker mechanism: it is represented only as "hook supplied or default". A supplied hook is a total function on the globals, so a handler that never returns or that faults is not modelled.
- The fault mechanics: the write through NULL is the abstract outcome `Trap`. The kernel's handling of the fault is not modelled.
- The kernel's restart-on-preemption policy for RAS ranges, and concurrent writes by kernel and component to the notification area: both are owned by the kernel.
- The layout of the event buffer `cos_events`: the scheduler owns its schema. The model keeps only the posted entries, and there are none initially.
- Binary layout, field order, field widths and padding of the C structs: an ABI concern. Thread ids and flags are unbounded naturals.
- The kernel's promise that bootstrap precedes any branded execution, and that bootstrap runs once: the dispatcher does not check either, so `Deliver` accepts upcalls in any order.
- The loader's patching of the identity fields: the loader is not part of this file. `DefaultDispatchKeepsGlobals` shows that whatever identity the loader wrote reads back unchanged after default-hook upcalls.
