/**
  `ForEvent`: wiring a command to a widget's trigger event and enabled
  property. The closure state is the `latestParam` slot, which subscriptions
  are live, and whether the composite has been disposed. Calls into the
  command (`CanExecute`, `Execute`), writes of the enabled property and the
  subscription of the parameter stream are recorded in a trace so that their
  order and number can be stated.

  `CanExecute` is an oracle: each event that consults the command carries the
  command's `canExecute` as it answers at that moment. Whether the enabled
  property's setter could be resolved is an input, as is whether a parameter
  stream was supplied (otherwise the stream is `Observable.Return(target)`,
  which emits the target once on subscription and completes).
 */
module ForEventWiring {
  import opened Nullable

  /** What the wiring does to the command and the widget. */
  datatype Effect<O> =
    | CanExecuteCalled(arg: Option<O>, answer: bool)
    | Executed(arg: Option<O>)
    | EnabledWritten(value: bool)
    | ParameterSubscribed

  /** What the outside world does to the wiring. */
  datatype Event<!O> =
    | TriggerFired(canExecute: Option<O> -> bool)
    | ParameterEmitted(param: Option<O>)
    | CanExecuteChanged(canExecute: Option<O> -> bool)
    | Disposed

  /** The state captured by the handlers, the live subscriptions and the trace so far. */
  datatype Wiring<O> = Wiring(
    setterResolved: bool,
    latestParam: Option<O>,
    triggerLive: bool,
    parameterLive: bool,
    canExecuteChangedLive: bool,
    disposed: bool,
    trace: seq<Effect<O>>)

  /** The state `ForEvent` leaves behind when it returns. */
  function Wire<O>(target: O, hasCommandParameter: bool, setterResolved: bool, canExecute: Option<O> -> bool): Wiring<O>
  {
    if !setterResolved then
      Wiring(false, None, true, false, false, false, [])
    else
      var initial := canExecute(None);
      Wiring(true, if hasCommandParameter then None else Some(target), true, hasCommandParameter, true, false,
             [CanExecuteCalled(None, initial), EnabledWritten(initial), ParameterSubscribed])
  }

  /** The effect of one event on the wiring; an event nobody listens to changes nothing. */
  function Step<O>(w: Wiring<O>, e: Event<O>): Wiring<O>
  {
    match e
    case TriggerFired(canExecute) =>
      if !w.triggerLive then w
      else
        var ok := canExecute(w.latestParam);
        w.(trace := w.trace + [CanExecuteCalled(w.latestParam, ok)] + (if ok then [Executed(w.latestParam)] else []))
    case ParameterEmitted(x) =>
      if !w.parameterLive then w else w.(latestParam := x)
    case CanExecuteChanged(canExecute) =>
      if !w.canExecuteChangedLive then w
      else
        var v := canExecute(w.latestParam);
        w.(trace := w.trace + [CanExecuteCalled(w.latestParam, v), EnabledWritten(v)])
    case Disposed =>
      w.(triggerLive := false, parameterLive := false, canExecuteChangedLive := false, disposed := true)
  }

  /** The effect of a sequence of events, in order. */
  function Run<O>(w: Wiring<O>, es: seq<Event<O>>): Wiring<O>
    decreases |es|
  {
    if es == [] then w else Run(Step(w, es[0]), es[1..])
  }

  /** `Execute(p)` only right after `CanExecute(p)` answered true; each enabled write is the answer just before it. */
  ghost predicate Guarded<O>(t: seq<Effect<O>>) {
    && (forall i :: 0 <= i < |t| && t[i].Executed? ==>
          0 < i && t[i - 1] == CanExecuteCalled(t[i].arg, true))
    && (forall i :: 0 <= i < |t| && t[i].EnabledWritten? ==>
          0 < i && t[i - 1].CanExecuteCalled? && t[i - 1].answer == t[i].value)
  }

  /** No enabled write and no subscription of the parameter stream. */
  ghost predicate Quiet<O>(t: seq<Effect<O>>) {
    forall i :: 0 <= i < |t| ==> !t[i].EnabledWritten? && !t[i].ParameterSubscribed?
  }

  /** One initial write of `CanExecute(null)`, then the only subscription of the parameter stream. */
  ghost predicate Opens<O>(t: seq<Effect<O>>) {
    && 3 <= |t|
    && t[0].CanExecuteCalled? && t[0].arg == None
    && t[1] == EnabledWritten(t[0].answer)
    && t[2] == ParameterSubscribed
    && forall i :: 3 <= i < |t| ==> !t[i].ParameterSubscribed?
  }

  /** The invariant of a wiring: what every reachable state satisfies. */
  ghost predicate Inv<O>(w: Wiring<O>) {
    // a disposed composite has no live subscription
    && (w.disposed ==> !w.triggerLive && !w.parameterLive && !w.canExecuteChangedLive)
    // without a setter only the trigger is wired
    && (!w.setterResolved ==> w.latestParam == None && !w.parameterLive && !w.canExecuteChangedLive && Quiet(w.trace))
    // with a setter the trace opens with the initial write and the subscription
    && (w.setterResolved ==> Opens(w.trace))
    && Guarded(w.trace)
  }

  lemma WireEstablishesInv<O>(target: O, hasCommandParameter: bool, setterResolved: bool, canExecute: Option<O> -> bool)
    ensures Inv(Wire(target, hasCommandParameter, setterResolved, canExecute))
  {
  }

  /**
    Appending a block of effects that starts with a `CanExecute` call, is
    guarded on its own and subscribes nothing keeps the trace guarded and its
    opening intact.
   */
  lemma AppendPreserves<O>(t: seq<Effect<O>>, added: seq<Effect<O>>)
    requires 0 < |added| && added[0].CanExecuteCalled? && Guarded(added)
    requires forall i :: 0 <= i < |added| ==> !added[i].ParameterSubscribed?
    ensures Guarded(t) ==> Guarded(t + added)
    ensures Opens(t) ==> Opens(t + added)
    ensures Quiet(t) && (forall i :: 0 <= i < |added| ==> !added[i].EnabledWritten?) ==> Quiet(t + added)
  {
    var u := t + added;
    assert forall i :: 0 <= i < |t| ==> u[i] == t[i];
    assert forall i :: |t| <= i < |u| ==> u[i] == added[i - |t|];
  }

  lemma TriggerPreservesInv<O>(w: Wiring<O>, canExecute: Option<O> -> bool)
    requires Inv(w) && w.triggerLive
    ensures Inv(Step(w, TriggerFired(canExecute)))
  {
    var ok := canExecute(w.latestParam);
    var added := [CanExecuteCalled(w.latestParam, ok)] + (if ok then [Executed(w.latestParam)] else []);
    assert Step(w, TriggerFired(canExecute)).trace == w.trace + added;
    AppendPreserves(w.trace, added);
  }

  lemma ChangedPreservesInv<O>(w: Wiring<O>, canExecute: Option<O> -> bool)
    requires Inv(w) && w.canExecuteChangedLive
    ensures Inv(Step(w, CanExecuteChanged(canExecute)))
  {
    var v := canExecute(w.latestParam);
    var added := [CanExecuteCalled(w.latestParam, v), EnabledWritten(v)];
    assert Step(w, CanExecuteChanged(canExecute)).trace == w.trace + added;
    AppendPreserves(w.trace, added);
  }

  lemma StepPreservesInv<O>(w: Wiring<O>, e: Event<O>)
    requires Inv(w)
    ensures Inv(Step(w, e))
  {
    match e
    case TriggerFired(canExecute) =>
      if w.triggerLive { TriggerPreservesInv(w, canExecute); }
    case ParameterEmitted(_) =>
    case CanExecuteChanged(canExecute) =>
      if w.canExecuteChangedLive { ChangedPreservesInv(w, canExecute); }
    case Disposed =>
  }

  lemma {:induction false} RunPreservesInv<O>(w: Wiring<O>, es: seq<Event<O>>)
    requires Inv(w)
    ensures Inv(Run(w, es))
    decreases |es|
  {
    if es != [] {
      StepPreservesInv(w, es[0]);
      RunPreservesInv(Step(w, es[0]), es[1..]);
    }
  }

  /** Events never rewrite what already happened, nor change whether the setter resolved. */
  lemma {:induction false} RunExtendsTrace<O>(w: Wiring<O>, es: seq<Event<O>>)
    ensures w.trace <= Run(w, es).trace
    ensures Run(w, es).setterResolved == w.setterResolved
    decreases |es|
  {
    if es != [] {
      RunExtendsTrace(Step(w, es[0]), es[1..]);
    }
  }

  /** Once nothing is subscribed, no event has any effect at all. */
  lemma {:induction false} SilentStaysSilent<O>(w: Wiring<O>, es: seq<Event<O>>)
    requires w.disposed && !w.triggerLive && !w.parameterLive && !w.canExecuteChangedLive
    ensures Run(w, es) == w
    decreases |es|
  {
    if es != [] {
      assert Step(w, es[0]) == w;
      SilentStaysSilent(w, es[1..]);
    }
  }

  /** After dispose no further Execute, CanExecute or property write happens, and the slot is frozen. */
  lemma NothingAfterDispose<O>(w: Wiring<O>, es: seq<Event<O>>)
    ensures Run(Step(w, Disposed), es).trace == w.trace
    ensures Run(Step(w, Disposed), es).latestParam == w.latestParam
  {
    SilentStaysSilent(Step(w, Disposed), es);
  }

  /** Disposing twice is the same as disposing once. */
  lemma DisposeIsIdempotent<O>(w: Wiring<O>)
    ensures Step(Step(w, Disposed), Disposed) == Step(w, Disposed)
  {
  }

  /** Without a resolved setter the slot stays null and the enabled property is never written. */
  lemma NoSetterOnlyWiresTrigger<O>(target: O, hasCommandParameter: bool, canExecute: Option<O> -> bool, es: seq<Event<O>>)
    ensures Run(Wire(target, hasCommandParameter, false, canExecute), es).latestParam == None
    ensures !Run(Wire(target, hasCommandParameter, false, canExecute), es).parameterLive
    ensures !Run(Wire(target, hasCommandParameter, false, canExecute), es).canExecuteChangedLive
    ensures forall i :: 0 <= i < |Run(Wire(target, hasCommandParameter, false, canExecute), es).trace| ==>
      !Run(Wire(target, hasCommandParameter, false, canExecute), es).trace[i].EnabledWritten?
  {
    var w := Wire(target, hasCommandParameter, false, canExecute);
    WireEstablishesInv(target, hasCommandParameter, false, canExecute);
    RunPreservesInv(w, es);
    RunExtendsTrace(w, es);
  }

  /**
    With a resolved setter, whatever happens later, the trace opens with
    exactly one write of `CanExecute(null)`, followed by the one and only
    subscription of the parameter stream.
   */
  lemma InitialWriteComesFirst<O>(target: O, hasCommandParameter: bool, canExecute: Option<O> -> bool, es: seq<Event<O>>)
    ensures 3 <= |Run(Wire(target, hasCommandParameter, true, canExecute), es).trace|
    ensures Run(Wire(target, hasCommandParameter, true, canExecute), es).trace[..3] ==
      [CanExecuteCalled(None, canExecute(None)), EnabledWritten(canExecute(None)), ParameterSubscribed]
    ensures forall i :: 3 <= i < |Run(Wire(target, hasCommandParameter, true, canExecute), es).trace| ==>
      !Run(Wire(target, hasCommandParameter, true, canExecute), es).trace[i].ParameterSubscribed?
  {
    var w := Wire(target, hasCommandParameter, true, canExecute);
    WireEstablishesInv(target, hasCommandParameter, true, canExecute);
    RunPreservesInv(w, es);
    RunExtendsTrace(w, es);
    assert Run(w, es).trace[..3] == w.trace[..3];
  }

  /** The number of enabled-property writes in a trace. */
  function Writes<O>(trace: seq<Effect<O>>): nat
    decreases |trace|
  {
    if trace == [] then 0 else (if trace[0].EnabledWritten? then 1 else 0) + Writes(trace[1..])
  }

  /** The number of CanExecuteChanged notifications among some events. */
  function Notifications<O>(es: seq<Event<O>>): nat
    decreases |es|
  {
    if es == [] then 0 else (if es[0].CanExecuteChanged? then 1 else 0) + Notifications(es[1..])
  }

  /** The last parameter emitted among some events, or `p` if none is. */
  function LastEmitted<O>(es: seq<Event<O>>, p: Option<O>): Option<O>
    decreases |es|
  {
    if es == [] then p else LastEmitted(es[1..], if es[0].ParameterEmitted? then es[0].param else p)
  }

  lemma {:induction false} WritesAppend<O>(a: seq<Effect<O>>, b: seq<Effect<O>>)
    ensures Writes(a + b) == Writes(a) + Writes(b)
    decreases |a|
  {
    if a == [] {
      assert a + b == b;
    } else {
      assert (a + b)[1..] == a[1..] + b;
      WritesAppend(a[1..], b);
    }
  }

  /** One event adds a write exactly when it is a CanExecuteChanged that is listened to. */
  lemma StepWrites<O>(w: Wiring<O>, e: Event<O>)
    requires !e.Disposed?
    ensures Step(w, e).canExecuteChangedLive == w.canExecuteChangedLive
    ensures Writes(Step(w, e).trace) == Writes(w.trace) + (if e.CanExecuteChanged? && w.canExecuteChangedLive then 1 else 0)
  {
    match e
    case TriggerFired(canExecute) =>
      if w.triggerLive {
        var ok := canExecute(w.latestParam);
        var added := [CanExecuteCalled(w.latestParam, ok)] + (if ok then [Executed(w.latestParam)] else []);
        assert w.trace + [CanExecuteCalled(w.latestParam, ok)] + (if ok then [Executed(w.latestParam)] else []) == w.trace + added;
        WritesAppend(w.trace, added);
        if ok {
          assert added[1..][1..] == [] && Writes(added[1..]) == 0;
        } else {
          assert added[1..] == [];
        }
      }
    case ParameterEmitted(_) =>
    case CanExecuteChanged(canExecute) =>
      if w.canExecuteChangedLive {
        var v := canExecute(w.latestParam);
        var added := [CanExecuteCalled(w.latestParam, v), EnabledWritten(v)];
        assert added[1..][1..] == [];
        assert Writes(added[1..]) == 1;
        WritesAppend(w.trace, added);
      }
  }

  /**
    While the composite is not disposed, each CanExecuteChanged writes the
    enabled property once and nothing else writes it.
   */
  lemma {:induction false} OneWritePerNotification<O>(w: Wiring<O>, es: seq<Event<O>>)
    requires w.canExecuteChangedLive
    requires forall i :: 0 <= i < |es| ==> !es[i].Disposed?
    ensures Writes(Run(w, es).trace) == Writes(w.trace) + Notifications(es)
    decreases |es|
  {
    if es != [] {
      StepWrites(w, es[0]);
      OneWritePerNotification(Step(w, es[0]), es[1..]);
    }
  }

  /** While the parameter subscription is live, the slot holds the latest emission. */
  lemma {:induction false} SlotHoldsLatestEmission<O>(w: Wiring<O>, es: seq<Event<O>>)
    requires w.parameterLive
    requires forall i :: 0 <= i < |es| ==> !es[i].Disposed?
    ensures Run(w, es).latestParam == LastEmitted(es, w.latestParam)
    decreases |es|
  {
    if es != [] {
      SlotHoldsLatestEmission(Step(w, es[0]), es[1..]);
    }
  }

  /**
    In every run of a wiring, `Execute(p)` is only ever called right after
    `CanExecute(p)` answered true.
   */
  lemma ExecuteOnlyWhenAllowed<O>(target: O, hasCommandParameter: bool, setterResolved: bool, canExecute: Option<O> -> bool, es: seq<Event<O>>)
    ensures var t := Run(Wire(target, hasCommandParameter, setterResolved, canExecute), es).trace;
      forall i :: 0 <= i < |t| && t[i].Executed? ==> 0 < i && t[i - 1] == CanExecuteCalled(t[i].arg, true)
  {
    WireEstablishesInv(target, hasCommandParameter, setterResolved, canExecute);
    RunPreservesInv(Wire(target, hasCommandParameter, setterResolved, canExecute), es);
  }

  /** The number of `Execute` calls in a trace. */
  function Executions<O>(trace: seq<Effect<O>>): nat
    decreases |trace|
  {
    if trace == [] then 0 else (if trace[0].Executed? then 1 else 0) + Executions(trace[1..])
  }

  /** The number of trigger firings among some events. */
  function Firings<O>(es: seq<Event<O>>): nat
    decreases |es|
  {
    if es == [] then 0 else (if es[0].TriggerFired? then 1 else 0) + Firings(es[1..])
  }

  lemma {:induction false} ExecutionsAppend<O>(a: seq<Effect<O>>, b: seq<Effect<O>>)
    ensures Executions(a + b) == Executions(a) + Executions(b)
    decreases |a|
  {
    if a == [] {
      assert a + b == b;
    } else {
      assert (a + b)[1..] == a[1..] + b;
      ExecutionsAppend(a[1..], b);
    }
  }

  /** One event adds at most one `Execute` call, and only when it is a trigger firing. */
  lemma StepExecutions<O>(w: Wiring<O>, e: Event<O>)
    ensures Executions(w.trace) <= Executions(Step(w, e).trace) <= Executions(w.trace) + (if e.TriggerFired? then 1 else 0)
  {
    match e
    case TriggerFired(canExecute) =>
      if w.triggerLive {
        var ok := canExecute(w.latestParam);
        var added := [CanExecuteCalled(w.latestParam, ok)] + (if ok then [Executed(w.latestParam)] else []);
        assert w.trace + [CanExecuteCalled(w.latestParam, ok)] + (if ok then [Executed(w.latestParam)] else []) == w.trace + added;
        ExecutionsAppend(w.trace, added);
        if ok {
          assert added[1..][1..] == [];
          assert Executions(added[1..]) == 1;
        } else {
          assert added[1..] == [];
        }
      }
    case ParameterEmitted(_) =>
    case CanExecuteChanged(canExecute) =>
      if w.canExecuteChangedLive {
        var v := canExecute(w.latestParam);
        var added := [CanExecuteCalled(w.latestParam, v), EnabledWritten(v)];
        assert added[1..][1..] == [];
        assert Executions(added[1..]) == 0;
        ExecutionsAppend(w.trace, added);
      }
    case Disposed =>
  }

  /** Each trigger firing calls `Execute` at most once, and nothing else calls it. */
  lemma {:induction false} AtMostOneExecutePerFiring<O>(w: Wiring<O>, es: seq<Event<O>>)
    ensures Executions(Run(w, es).trace) <= Executions(w.trace) + Firings(es)
    decreases |es|
  {
    if es != [] {
      StepExecutions(w, es[0]);
      AtMostOneExecutePerFiring(Step(w, es[0]), es[1..]);
    }
  }

  /** The example where the trigger fires twice and the parameter stream never emits. */
  lemma FireTwiceWithoutParameter<O>(target: O, canExecute: Option<O> -> bool)
    requires canExecute(None)
    ensures Run(Wire(target, true, true, canExecute), [TriggerFired(canExecute), TriggerFired(canExecute)]).trace ==
      [CanExecuteCalled(None, true), EnabledWritten(true), ParameterSubscribed,
       CanExecuteCalled(None, true), Executed(None), CanExecuteCalled(None, true), Executed(None)]
  {
    var es := [TriggerFired(canExecute), TriggerFired(canExecute)];
    var w0 := Wire(target, true, true, canExecute);
    var w1 := Step(w0, es[0]);
    var w2 := Step(w1, es[1]);
    assert es[1..][1..] == [];
    assert Run(w1, es[1..]) == Run(w2, []);
  }

  /**
    The wiring as the source holds it: the captured slot, the subscriptions
    the returned disposable owns, and (ghost) the trace of its effects.
   */
  class EventCommandBinding<O(==)> {
    const setterResolved: bool
    var latestParam: Option<O>
    var triggerLive: bool
    var parameterLive: bool
    var canExecuteChangedLive: bool
    var disposed: bool
    ghost var trace: seq<Effect<O>>

    ghost function State(): Wiring<O>
      reads this
    {
      Wiring(setterResolved, latestParam, triggerLive, parameterLive, canExecuteChangedLive, disposed, trace)
    }

    ghost predicate Valid()
      reads this
    {
      Inv(State())
    }

    /** `ForEvent`: subscribe the trigger; with a setter, write the initial state and subscribe the rest. */
    constructor ForEvent(target: O, hasCommandParameter: bool, setterResolved: bool, canExecute: Option<O> -> bool)
      ensures Valid()
      ensures State() == Wire(target, hasCommandParameter, setterResolved, canExecute)
    {
      this.setterResolved := setterResolved;
      latestParam := None;
      triggerLive := true;
      parameterLive := false;
      canExecuteChangedLive := false;
      disposed := false;
      trace := [];
      new;
      if setterResolved {
        var initial := canExecute(latestParam);
        trace := trace + [CanExecuteCalled(latestParam, initial), EnabledWritten(initial)];
        trace := trace + [ParameterSubscribed];
        if hasCommandParameter {
          parameterLive := true;
        } else {
          latestParam := Some(target);
        }
        canExecuteChangedLive := true;
      }
      WireEstablishesInv(target, hasCommandParameter, setterResolved, canExecute);
    }

    /** The trigger event fires; reports whether `Execute` was called. */
    method Fire(canExecute: Option<O> -> bool) returns (executed: bool)
      requires Valid()
      modifies this
      ensures Valid()
      ensures State() == Step(old(State()), TriggerFired(canExecute))
      ensures executed <==> old(triggerLive) && canExecute(old(latestParam))
    {
      executed := false;
      if triggerLive {
        var p := latestParam;
        var ok := canExecute(p);
        trace := trace + [CanExecuteCalled(p, ok)];
        if ok {
          trace := trace + [Executed(p)];
          executed := true;
        }
      }
      StepPreservesInv(old(State()), TriggerFired(canExecute));
    }

    /** The parameter stream emits `x`. */
    method EmitParameter(x: Option<O>)
      requires Valid()
      modifies this
      ensures Valid()
      ensures State() == Step(old(State()), ParameterEmitted(x))
    {
      if parameterLive {
        latestParam := x;
      }
      StepPreservesInv(old(State()), ParameterEmitted(x));
    }

    /** The command raises CanExecuteChanged; reports the value written, if any. */
    method RaiseCanExecuteChanged(canExecute: Option<O> -> bool) returns (written: Option<bool>)
      requires Valid()
      modifies this
      ensures Valid()
      ensures State() == Step(old(State()), CanExecuteChanged(canExecute))
      ensures written == if old(canExecuteChangedLive) then Some(canExecute(old(latestParam))) else None
    {
      written := None;
      if canExecuteChangedLive {
        var v := canExecute(latestParam);
        trace := trace + [CanExecuteCalled(latestParam, v), EnabledWritten(v)];
        written := Some(v);
      }
      StepPreservesInv(old(State()), CanExecuteChanged(canExecute));
    }

    /** The returned disposable is disposed: every subscription it owns ends. */
    method Dispose()
      requires Valid()
      modifies this
      ensures Valid()
      ensures State() == Step(old(State()), Disposed)
    {
      triggerLive := false;
      parameterLive := false;
      canExecuteChangedLive := false;
      disposed := true;
      StepPreservesInv(old(State()), Disposed);
    }
  }
}
