/**
 * The upcall dispatcher (cos_upcall_fn) and the overridable default hooks
 * cos_init, cos_upcall_exec and main.
 *
 * A hook is either the runtime's weak default or one the component supplies
 * in its place at link time; a supplied hook is modelled by its effect on the
 * component's globals. The dispatcher's observable behaviour is the sequence
 * of calls it makes and the state those calls leave, or a trap.
 */
module Upcall {
  import opened ComponentState

  /** The upcall kinds the dispatcher distinguishes; Other carries any other tag. */
  datatype UpcallType = BrandExec | Bootstrap | Other(code: int)

  /** A call the dispatcher makes, with its argument. */
  datatype Call = ArgregInit | Init(arg: Addr) | Exec(arg: Addr)

  /** How an upcall ends: it returns after making calls, or it faults. */
  datatype Outcome = Returned(calls: seq<Call>, state: Globals) | Trap

  /** A cos_init or cos_upcall_exec implementation. */
  datatype Hook = Default | Supplied(effect: (Addr, Globals) -> Globals)

  /** The two upcall handlers the component links in. */
  datatype Hooks = Hooks(init: Hook, exec: Hook)

  /** What a component that overrides neither handler gets. */
  const Defaults := Hooks(Default, Default)

  /** Runs a handler on its argument. The default does nothing. */
  function RunHook(h: Hook, arg: Addr, g: Globals): (g': Globals)
    ensures h.Default? ==> g' == g
  {
    match h
    case Default => g
    case Supplied(effect) => effect(arg, g)
  }

  /** A main implementation; a supplied one yields an exit status and a new state. */
  datatype MainHook = DefaultMain | SuppliedMain(body: Globals -> (int, Globals))

  /** Runs main. The default returns 0 and changes nothing. */
  function RunMain(m: MainHook, g: Globals): (r: (int, Globals))
    ensures m.DefaultMain? ==> r.0 == 0 && r.1 == g
  {
    match m
    case DefaultMain => (0, g)
    case SuppliedMain(body) => body(g)
  }

  /**
   * cos_upcall_fn. The argument registers are armed only on bootstrap, and
   * before the user initializer runs; exactly one user handler runs, on the
   * first argument; an unrecognised tag traps before any call.
   */
  function Dispatch(hooks: Hooks, t: UpcallType, arg1: Addr, arg2: Addr, arg3: Addr, g: Globals): (r: Outcome)
    ensures r.Trap? <==> t.Other?
    ensures t.Bootstrap? ==> r.Returned? && r.calls == [ArgregInit, Init(arg1)]
    ensures t.BrandExec? ==> r.Returned? && r.calls == [Exec(arg1)]
    ensures t.Bootstrap? ==> r.state == RunHook(hooks.init, arg1, g)
    ensures t.BrandExec? ==> r.state == RunHook(hooks.exec, arg1, g)
  {
    match t
    case BrandExec => Returned([Exec(arg1)], RunHook(hooks.exec, arg1, g))
    case Bootstrap => Returned([ArgregInit, Init(arg1)], RunHook(hooks.init, arg1, g))
    case Other(_) => Trap
  }

  /** Every upcall takes exactly one of the three routes. */
  lemma ExactlyOneRoute(hooks: Hooks, t: UpcallType, arg1: Addr, arg2: Addr, arg3: Addr, g: Globals)
    ensures var r := Dispatch(hooks, t, arg1, arg2, arg3, g);
      var trapped := r.Trap?;
      var branded := r.Returned? && r.calls == [Exec(arg1)];
      var booted := r.Returned? && r.calls == [ArgregInit, Init(arg1)];
      (trapped || branded || booted) && !(trapped && branded) && !(trapped && booted) && !(branded && booted)
  {
  }

  /** The second and third upcall arguments never influence the outcome. */
  lemma OnlyFirstArgumentMatters(hooks: Hooks, t: UpcallType, arg1: Addr, arg2: Addr, arg3: Addr, b2: Addr, b3: Addr, g: Globals)
    ensures Dispatch(hooks, t, arg1, arg2, arg3, g) == Dispatch(hooks, t, arg1, b2, b3, g)
  {
  }

  /**
   * With the default handlers no recognised upcall changes any global of this
   * file. The effect of cos_argreg_init on the argument region is not modelled.
   */
  lemma DefaultDispatchKeepsGlobals(t: UpcallType, arg1: Addr, arg2: Addr, arg3: Addr, g: Globals)
    ensures Dispatch(Defaults, t, arg1, arg2, arg3, g).Returned? ==> Dispatch(Defaults, t, arg1, arg2, arg3, g).state == g
  {
  }
}
