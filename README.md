# FlexibleCommandBinder, modelled in Dafny

ReactiveUI's Android `FlexibleCommandBinder` binds an `ICommand` to a widget.
The model covers its two parts:

- **The affinity resolver** (`binder.dfy`, module `Binder`). The binder keeps a
  registration table (`config`) that maps a type to a `CommandBindingInfo`
  (an affinity and a factory). `Register` adds an entry or overwrites one.
  `GetAffinityForObject` and `BindCommandToObject` run the same lookup: keep
  the keys assignable from the target's type, then take the one with the
  highest affinity. If no key matches, the affinity is 0 and the bind fails
  with `NotSupported`, carrying the type's name. The overload that takes an
  event name always fails with `NotImplemented`.
  - Types are an abstract carrier with a given `assignable(super, sub)`
    relation. Lemmas that need reflexivity or transitivity require it.
  - A factory is an opaque token, so a successful bind returns the descriptor
    it used plus the arguments passed to that descriptor's factory.
  - The dictionary's enumeration order is the sequence `keys`. `Select` walks
    it the way a stable descending sort followed by taking the first element does.
- **`ForEvent` wiring** (`for_event.dfy`, module `ForEventWiring`). This is a
  state machine: the `latestParam` slot, which subscriptions are live, and a
  disposed flag. Calls to `CanExecute`/`Execute`, enabled-property writes and
  the parameter-stream subscription go into a trace.
  - `Wire` gives the state `ForEvent` returns, `Step` gives the effect of one
    event, and `Run` applies a sequence of events. The class
    `EventCommandBinding` is the imperative form, and each of its methods is
    proved against `Step`.
  - `Inv` is the invariant preserved over every run. It says:
    - `Execute(p)` only ever comes right after `CanExecute(p)` answered true;
    - every enabled write is the answer of the `CanExecute` call just before it;
    - with a resolved setter, the trace opens with the one write of
      `CanExecute(null)`, followed by the single subscription of the
      parameter stream;
    - without a setter, the slot stays null and nothing is ever written.

`nullable.dfy` holds `Option`, where `None` stands for .NET `null`.

Inputs that stand in for collaborators:
- `CanExecute` is an oracle. Each event that consults the command carries the
  command's current answer function.
- Whether the enabled-property setter could be resolved is a boolean input.
- Whether a parameter stream was supplied is a boolean input. Without one, the
  default `Observable.Return(target)` sets the slot to the target once, when it
  is subscribed, and then completes.
- `GetType`, `IsAssignableFrom` and `Type.Name` are functions the binder is
  built with.

## Model

| member | source | states |
|---|---|---|
| `Binder.Select` | src/ReactiveUI/Platforms/android/FlexibleCommandBinder.cs:21-24 | The lookup both entry points share. It gives null exactly when no key is assignable from the type. Otherwise it returns a key that is assignable from the type, and whose affinity is at least that of every other compatible key |
| `Binder.FlexibleCommandBinder.constructor` | src/ReactiveUI/Platforms/android/FlexibleCommandBinder.cs:67-68 | A binder starts with an empty table |
| `Binder.FlexibleCommandBinder.Register` | src/ReactiveUI/Platforms/android/FlexibleCommandBinder.cs:76-79 | Afterwards the table maps the type to the new affinity and factory. An earlier entry is replaced. Every other key and its entry is unchanged |
| `Binder.FlexibleCommandBinder.FindMatch` | src/ReactiveUI/Platforms/android/FlexibleCommandBinder.cs:36-39 | The lookup over the whole table. Null exactly when no key is compatible, otherwise a compatible key of maximal affinity |
| `Binder.FlexibleCommandBinder.GetAffinityForObject` | src/ReactiveUI/Platforms/android/FlexibleCommandBinder.cs:17-30 | 0 when the caller has an event target, whatever the table holds. 0 when no key is compatible. Otherwise the affinity of a compatible key that has maximal affinity |
| `Binder.FlexibleCommandBinder.BindCommandToObject` | src/ReactiveUI/Platforms/android/FlexibleCommandBinder.cs:32-48 | Fails exactly when no key is compatible with the target's type, and then fails with NotSupported carrying that type's name. Otherwise it returns what the factory of a maximal compatible descriptor made from the unchanged command, target and parameter stream |
| `Binder.FlexibleCommandBinder.BindCommandToObjectForEvent` | src/ReactiveUI/Platforms/android/FlexibleCommandBinder.cs:50-56 | The event-name overload always fails with NotImplemented and reads nothing |
| `Binder.AffinityAgreesWithBinding` | src/ReactiveUI/Platforms/android/FlexibleCommandBinder.cs:21-47 | Both entry points use one selection. A bind succeeds exactly when the lookup finds a key, it uses that key's descriptor, and the reported affinity equals that descriptor's affinity |
| `Binder.UniqueMaximumIsSelected` | src/ReactiveUI/Platforms/android/FlexibleCommandBinder.cs:21-24 | A compatible key whose affinity is strictly above every other compatible key's is the key selected, and its affinity is the one reported |
| `Binder.RegisteredTypeIsSupported` | src/ReactiveUI/Platforms/android/FlexibleCommandBinder.cs:21-29 | With a reflexive relation, a registered type always finds a match. Its reported affinity is at least its own entry's |
| `Binder.SubtypeAffinityIsAtLeastSupertype` | src/ReactiveUI/Platforms/android/FlexibleCommandBinder.cs:21-29 | With a transitive relation, a subtype of a supported type is supported. Its reported affinity is at least the supertype's |
| `Binder.WidgetButtonScenario` | src/ReactiveUI/Platforms/android/FlexibleCommandBinder.cs:17-47 | Register Widget at 5 and its subtype Button at 10. Widget then resolves to 5, Button to 10, and binding a Button uses Button's factory |
| `ForEventWiring.EventCommandBinding.ForEvent` | src/ReactiveUI/Platforms/android/FlexibleCommandBinder.cs:90-116 | The state after `ForEvent` is `Wire`'s, and the invariant holds. The trigger is always subscribed. With a setter, `CanExecute(null)` is written once before the parameter stream is subscribed |
| `ForEventWiring.EventCommandBinding.Fire` | src/ReactiveUI/Platforms/android/FlexibleCommandBinder.cs:97-100 | A firing calls `Execute(latestParam)` exactly when the trigger is subscribed and `CanExecute(latestParam)` is true. The new state is `Step`'s |
| `ForEventWiring.EventCommandBinding.EmitParameter` | src/ReactiveUI/Platforms/android/FlexibleCommandBinder.cs:110 | An emission overwrites the slot while the parameter subscription is live. The new state is `Step`'s |
| `ForEventWiring.EventCommandBinding.RaiseCanExecuteChanged` | src/ReactiveUI/Platforms/android/FlexibleCommandBinder.cs:111-113 | While subscribed, writes `CanExecute(latestParam)` to the enabled property and reports the value written. The new state is `Step`'s |
| `ForEventWiring.EventCommandBinding.Dispose` | src/ReactiveUI/Platforms/android/FlexibleCommandBinder.cs:108-115 | Every subscription the returned disposable owns ends. The new state is `Step`'s |
| `ForEventWiring.WireEstablishesInv` | src/ReactiveUI/Platforms/android/FlexibleCommandBinder.cs:94-115 | The state `ForEvent` returns satisfies the wiring invariant |
| `ForEventWiring.AppendPreserves` | src/ReactiveUI/Platforms/android/FlexibleCommandBinder.cs:97-113 | Appending a handler's block of effects keeps three things. The trace stays guarded. The opening write-then-subscribe stays intact. A trace with no writes stays without them |
| `ForEventWiring.TriggerPreservesInv` | src/ReactiveUI/Platforms/android/FlexibleCommandBinder.cs:97-100 | A live trigger firing preserves the wiring invariant |
| `ForEventWiring.ChangedPreservesInv` | src/ReactiveUI/Platforms/android/FlexibleCommandBinder.cs:111-113 | A live CanExecuteChanged notification preserves the wiring invariant |
| `ForEventWiring.StepPreservesInv` | src/ReactiveUI/Platforms/android/FlexibleCommandBinder.cs:97-113 | Every event handler preserves the wiring invariant |
| `ForEventWiring.RunPreservesInv` | src/ReactiveUI/Platforms/android/FlexibleCommandBinder.cs:97-113 | Any sequence of events preserves the wiring invariant |
| `ForEventWiring.RunExtendsTrace` | src/ReactiveUI/Platforms/android/FlexibleCommandBinder.cs:97-113 | Events only append to the trace and never change whether the setter resolved |
| `ForEventWiring.SilentStaysSilent` | src/ReactiveUI/Platforms/android/FlexibleCommandBinder.cs:108-115 | Once disposed with no subscription live, no sequence of events changes anything |
| `ForEventWiring.NothingAfterDispose` | src/ReactiveUI/Platforms/android/FlexibleCommandBinder.cs:108-115 | After dispose, no event adds any `Execute`, `CanExecute` or enabled write to the trace, and the slot stays frozen |
| `ForEventWiring.DisposeIsIdempotent` | src/ReactiveUI/Platforms/android/FlexibleCommandBinder.cs:108-115 | Disposing twice is the same as disposing once |
| `ForEventWiring.NoSetterOnlyWiresTrigger` | src/ReactiveUI/Platforms/android/FlexibleCommandBinder.cs:102-103 | Without a setter, whatever events follow, the slot stays null. The parameter and CanExecuteChanged handlers are never live, and the enabled property is never written |
| `ForEventWiring.InitialWriteComesFirst` | src/ReactiveUI/Platforms/android/FlexibleCommandBinder.cs:105-110 | With a setter, whatever follows, the trace opens with `CanExecute(null)`, its one write, and then the parameter subscription. No later subscription occurs |
| `ForEventWiring.WritesAppend` | src/ReactiveUI/Platforms/android/FlexibleCommandBinder.cs:113 | The number of enabled writes in two traces joined is the sum of their counts |
| `ForEventWiring.StepWrites` | src/ReactiveUI/Platforms/android/FlexibleCommandBinder.cs:97-113 | An event other than dispose adds one enabled write exactly when it is a CanExecuteChanged that is subscribed, and no others |
| `ForEventWiring.OneWritePerNotification` | src/ReactiveUI/Platforms/android/FlexibleCommandBinder.cs:111-113 | While the CanExecuteChanged subscription is live and until dispose, the number of enabled writes grows by exactly the number of CanExecuteChanged notifications |
| `ForEventWiring.SlotHoldsLatestEmission` | src/ReactiveUI/Platforms/android/FlexibleCommandBinder.cs:110 | Until dispose, with the parameter subscription live, the slot holds the most recent emission |
| `ForEventWiring.ExecuteOnlyWhenAllowed` | src/ReactiveUI/Platforms/android/FlexibleCommandBinder.cs:97-100 | In every run from `ForEvent`, with or without a setter, each `Execute(p)` comes right after a `CanExecute(p)` call that answered true |
| `ForEventWiring.ExecutionsAppend` | src/ReactiveUI/Platforms/android/FlexibleCommandBinder.cs:99 | The number of `Execute` calls in two traces joined is the sum of their counts |
| `ForEventWiring.StepExecutions` | src/ReactiveUI/Platforms/android/FlexibleCommandBinder.cs:97-100 | One event never removes an `Execute` call. It adds at most one, and only if it is a trigger firing |
| `ForEventWiring.AtMostOneExecutePerFiring` | src/ReactiveUI/Platforms/android/FlexibleCommandBinder.cs:97-100 | Over any run, `Execute` calls grow by at most the number of trigger firings |
| `ForEventWiring.FireTwiceWithoutParameter` | src/ReactiveUI/Platforms/android/FlexibleCommandBinder.cs:94-100 | The stream never emits and the trigger fires twice with `CanExecute(null)` true. Then `Execute(null)` is called twice, after the initial write |

## Left out

- The Rx machinery (`Observable.FromEventPattern`, `Observable.Return`, `CompositeDisposable`) appears only through its effect. A live subscription means its handler runs. Disposing ends every live subscription.
- `Reflection.GetValueSetterForProperty` is a foreign call. It becomes the `setterResolved` input, and the `PropertyInfo` itself is not modelled.
- .NET's `Type.IsAssignableFrom`, `GetType` and `Type.Name` are functions the binder is given. Their real semantics are not modelled.
- Tie-breaking between equal affinities is not specified. The model fixes an enumeration order (`keys`: new keys are appended, a replaced key keeps its place). No contract depends on that order beyond "some compatible key of maximal affinity".
- The exact text of the NotSupported message is not modelled. The error carries only the type name.
- `latestParam` is read and written without synchronisation. The model is sequential: each event runs to completion before the next.
- What a factory builds is opaque. Concrete `ICommand` implementations and the per-widget registrations made by subclasses are not part of this model.
- A null `target` (which would throw at `GetType`) is not modelled. Every target has a type.
- The completion and error notifications of a supplied parameter stream and of the trigger event are not modelled.
- Exceptions raised by the command (`CanExecute`, `Execute`), by the enabled-property setter or by the event adapter are not modelled. Every collaborator call returns normally. So the model does not capture one particular leak: if the initial `CanExecute` or setter call throws inside `ForEvent`, the trigger subscription already made is never returned and can never be disposed.
