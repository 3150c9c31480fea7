/**
 * Upcalls as the kernel delivers them to one component: one at a time, each
 * through cos_upcall_fn, until one traps. These lemmas carry the dispatcher's
 * one-call guarantees over any number of upcalls.
 */
module UpcallRuns {
  import opened ComponentState
  import opened Upcall

  /** One upcall: its tag and its three arguments. */
  datatype Delivery = Delivery(t: UpcallType, arg1: Addr, arg2: Addr, arg3: Addr)

  /** The calls made over a run, the state it ended in, and whether it trapped. */
  datatype Trace = Trace(calls: seq<Call>, state: Globals, trapped: bool)

  /** Delivers the upcalls in order; a trap ends the run. */
  function Deliver(hooks: Hooks, ds: seq<Delivery>, g: Globals): (tr: Trace)
    ensures tr.trapped <==> exists i :: 0 <= i < |ds| && ds[i].t.Other?
    decreases |ds|
  {
    if ds == [] then Trace([], g, false)
    else
      match Dispatch(hooks, ds[0].t, ds[0].arg1, ds[0].arg2, ds[0].arg3, g)
      case Trap => Trace([], g, true)
      case Returned(calls, g1) =>
        var rest := Deliver(hooks, ds[1..], g1);
        assert forall i :: 1 <= i < |ds| ==> ds[i] == ds[1..][i - 1];
        Trace(calls + rest.calls, rest.state, rest.trapped)
  }

  /**
   * Over any run the argument registers are armed immediately before each
   * call of the user initializer, and each arming is followed by one.
   */
  predicate ArgregInitPairedWithInit(calls: seq<Call>)
  {
    && (forall i :: 0 <= i < |calls| && calls[i].Init? ==> 0 < i && calls[i - 1] == ArgregInit)
    && (forall i :: 0 <= i < |calls| && calls[i] == ArgregInit ==> i + 1 < |calls| && calls[i + 1].Init?)
  }

  lemma {:induction false} BootstrapOrderOverRuns(hooks: Hooks, ds: seq<Delivery>, g: Globals)
    ensures ArgregInitPairedWithInit(Deliver(hooks, ds, g).calls)
    decreases |ds|
  {
    if ds != [] {
      var d := ds[0];
      match Dispatch(hooks, d.t, d.arg1, d.arg2, d.arg3, g)
      case Trap =>
      case Returned(calls, g1) =>
        BootstrapOrderOverRuns(hooks, ds[1..], g1);
        var rest := Deliver(hooks, ds[1..], g1).calls;
        assert Deliver(hooks, ds, g).calls == calls + rest;
        PairedAppend(calls, rest);
    }
  }

  /** Appending a paired sequence to one dispatch's calls keeps the pairing. */
  lemma PairedAppend(calls: seq<Call>, rest: seq<Call>)
    requires (|calls| == 1 && calls[0].Exec?) || (|calls| == 2 && calls[0] == ArgregInit && calls[1].Init?)
    requires ArgregInitPairedWithInit(rest)
    ensures ArgregInitPairedWithInit(calls + rest)
  {
  }

  /**
   * With the default handlers a run, however long, leaves every global of this
   * file as it found it (the argument region set up by cos_argreg_init is not
   * modelled).
   */
  lemma {:induction false} DefaultHooksKeepGlobalsOverRuns(ds: seq<Delivery>, g: Globals)
    ensures Deliver(Defaults, ds, g).state == g
    decreases |ds|
  {
    if ds != [] {
      var d := ds[0];
      match Dispatch(Defaults, d.t, d.arg1, d.arg2, d.arg3, g)
      case Trap =>
      case Returned(calls, g1) =>
        DefaultHooksKeepGlobalsOverRuns(ds[1..], g1);
    }
  }

  /**
   * Every handler call made over a run passes on the first argument of an
   * upcall of the matching kind.
   */
  predicate CallsFromDeliveries(calls: seq<Call>, ds: seq<Delivery>)
  {
    && (forall i :: 0 <= i < |calls| && calls[i].Init? ==>
          exists j :: 0 <= j < |ds| && ds[j].t.Bootstrap? && ds[j].arg1 == calls[i].arg)
    && (forall i :: 0 <= i < |calls| && calls[i].Exec? ==>
          exists j :: 0 <= j < |ds| && ds[j].t.BrandExec? && ds[j].arg1 == calls[i].arg)
  }

  lemma {:induction false} HandlerArgumentsOverRuns(hooks: Hooks, ds: seq<Delivery>, g: Globals)
    ensures CallsFromDeliveries(Deliver(hooks, ds, g).calls, ds)
    decreases |ds|
  {
    if ds != [] {
      var d := ds[0];
      match Dispatch(hooks, d.t, d.arg1, d.arg2, d.arg3, g)
      case Trap =>
      case Returned(calls, g1) =>
        HandlerArgumentsOverRuns(hooks, ds[1..], g1);
        var rest := Deliver(hooks, ds[1..], g1).calls;
        var all := calls + rest;
        assert Deliver(hooks, ds, g).calls == all;
        forall i | 0 <= i < |all| && (all[i].Init? || all[i].Exec?)
          ensures all[i].Init? ==> exists j :: 0 <= j < |ds| && ds[j].t.Bootstrap? && ds[j].arg1 == all[i].arg
          ensures all[i].Exec? ==> exists j :: 0 <= j < |ds| && ds[j].t.BrandExec? && ds[j].arg1 == all[i].arg
        {
          if i >= |calls| {
            var k := i - |calls|;
            assert all[i] == rest[k];
            if rest[k].Init? {
              var j :| 0 <= j < |ds[1..]| && ds[1..][j].t.Bootstrap? && ds[1..][j].arg1 == rest[k].arg;
              assert ds[j + 1] == ds[1..][j];
            } else {
              var j :| 0 <= j < |ds[1..]| && ds[1..][j].t.BrandExec? && ds[1..][j].arg1 == rest[k].arg;
              assert ds[j + 1] == ds[1..][j];
            }
          }
        }
    }
  }

  /** The number of bootstrap upcalls in a run. */
  function Bootstraps(ds: seq<Delivery>): nat
  {
    if ds == [] then 0 else (if ds[0].t.Bootstrap? then 1 else 0) + Bootstraps(ds[1..])
  }

  /** The number of user-initializer calls in a call sequence. */
  function InitCalls(calls: seq<Call>): nat
  {
    if calls == [] then 0 else (if calls[0].Init? then 1 else 0) + InitCalls(calls[1..])
  }

  lemma {:induction false} InitCallsAppend(a: seq<Call>, b: seq<Call>)
    ensures InitCalls(a + b) == InitCalls(a) + InitCalls(b)
    decreases |a|
  {
    if a == [] {
      assert a + b == b;
    } else {
      assert (a + b)[1..] == a[1..] + b;
      InitCallsAppend(a[1..], b);
    }
  }

  /** A run that does not trap calls the user initializer once per bootstrap upcall. */
  lemma {:induction false} InitRunsOncePerBootstrap(hooks: Hooks, ds: seq<Delivery>, g: Globals)
    requires !Deliver(hooks, ds, g).trapped
    ensures InitCalls(Deliver(hooks, ds, g).calls) == Bootstraps(ds)
    decreases |ds|
  {
    if ds != [] {
      var d := ds[0];
      match Dispatch(hooks, d.t, d.arg1, d.arg2, d.arg3, g)
      case Trap =>
      case Returned(calls, g1) =>
        InitRunsOncePerBootstrap(hooks, ds[1..], g1);
        InitCallsAppend(calls, Deliver(hooks, ds[1..], g1).calls);
        assert InitCalls(calls) == (if d.t.Bootstrap? then 1 else 0) by {
          if d.t.Bootstrap? {
            assert calls == [ArgregInit, Init(d.arg1)];
            assert calls[1..] == [Init(d.arg1)];
            assert calls[1..][1..] == [];
          } else {
            assert calls == [Exec(d.arg1)];
            assert calls[1..] == [];
          }
        }
    }
  }

  // ---------------------------------------------------------------------
  // The exact call log of a run

  /** The calls one upcall makes, read off its tag alone. */
  function CallsOf(d: Delivery): seq<Call>
  {
    match d.t
    case Bootstrap => [ArgregInit, Init(d.arg1)]
    case BrandExec => [Exec(d.arg1)]
    case Other(_) => []
  }

  /** The calls of a run of upcalls none of which traps, in delivery order. */
  function ExpectedCalls(ds: seq<Delivery>): seq<Call>
  {
    if ds == [] then [] else CallsOf(ds[0]) + ExpectedCalls(ds[1..])
  }

  /** The position of the first upcall with an unrecognised tag, or |ds| if there is none. */
  function FirstTrap(ds: seq<Delivery>): (n: nat)
    ensures n <= |ds|
    ensures forall i :: 0 <= i < n ==> !ds[i].t.Other?
    ensures n < |ds| ==> ds[n].t.Other?
  {
    if ds == [] then 0
    else if ds[0].t.Other? then 0
    else 1 + FirstTrap(ds[1..])
  }

  /**
   * A run makes exactly the calls of the upcalls before the first trap, each
   * upcall's calls in place and carrying that upcall's own first argument;
   * it traps exactly when some upcall has an unrecognised tag.
   */
  lemma {:induction false} DeliverMakesExpectedCalls(hooks: Hooks, ds: seq<Delivery>, g: Globals)
    ensures Deliver(hooks, ds, g).calls == ExpectedCalls(ds[..FirstTrap(ds)])
    ensures Deliver(hooks, ds, g).trapped <==> FirstTrap(ds) < |ds|
    decreases |ds|
  {
    if ds == [] {
      assert ds[..0] == [];
    } else if ds[0].t.Other? {
      assert ds[..0] == [];
    } else {
      var d := ds[0];
      match Dispatch(hooks, d.t, d.arg1, d.arg2, d.arg3, g)
      case Trap =>
      case Returned(calls, g1) =>
        DeliverMakesExpectedCalls(hooks, ds[1..], g1);
        var n := FirstTrap(ds);
        var prefix := ds[..n];
        assert prefix[0] == d;
        assert prefix[1..] == ds[1..][..FirstTrap(ds[1..])];
        assert calls == CallsOf(d);
    }
  }

  /**
   * In a run of two bootstrap upcalls, the user initializer sees the first
   * upcall's argument and then the second's.
   */
  lemma TwoBootstrapsInOrder(hooks: Hooks, a: Addr, b: Addr, x: Addr, y: Addr, g: Globals)
    ensures Deliver(hooks, [Delivery(Bootstrap, a, x, y), Delivery(Bootstrap, b, x, y)], g).calls
         == [ArgregInit, Init(a), ArgregInit, Init(b)]
  {
    var ds := [Delivery(Bootstrap, a, x, y), Delivery(Bootstrap, b, x, y)];
    DeliverMakesExpectedCalls(hooks, ds, g);
    assert FirstTrap(ds) == 2;
    assert ds[..2] == ds;
    assert ds[1..][1..] == [];
    assert ExpectedCalls(ds[1..]) == [ArgregInit, Init(b)];
    assert ExpectedCalls(ds) == [ArgregInit, Init(a)] + [ArgregInit, Init(b)];
  }
}
