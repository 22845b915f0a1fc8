/**
  The type-affinity resolver of `FlexibleCommandBinder`: a registration table
  from type keys to binding descriptors, the lookup that picks the compatible
  key of highest affinity, and the two entry points built on that lookup.

  Types are an abstract carrier `Ty` with a given relation
  `assignable(super, sub)` (.NET's `super.IsAssignableFrom(sub)`); the
  lemmas that need it assume the relation is reflexive and transitive.
  A binding factory is an opaque token `F`, so the outcome of a bind is the
  descriptor that was used together with the arguments handed to its factory.
 */
module Binder {
  import opened Nullable

  /** `CommandBindingInfo`: one registered descriptor. */
  datatype CommandBindingInfo<F> = CommandBindingInfo(affinity: int, createBinding: F)

  /** The failures a bind reports. */
  datatype BindingError = NotSupported(typeName: string) | NotImplemented

  datatype Result<T> = Ok(value: T) | Err(error: BindingError)

  /**
    What `createBinding(command, target, commandParameter)` of `descriptor`
    returns; the binder hands it back unchanged.
   */
  datatype CreatedBinding<F, Cmd, Obj, Stream> =
    CreatedBinding(descriptor: CommandBindingInfo<F>, command: Cmd, target: Obj, commandParameter: Stream)

  ghost predicate Reflexive<Ty(!new)>(assignable: (Ty, Ty) -> bool) {
    forall x :: assignable(x, x)
  }

  ghost predicate Transitive<Ty(!new)>(assignable: (Ty, Ty) -> bool) {
    forall x, y, z :: assignable(x, y) && assignable(y, z) ==> assignable(x, z)
  }

  /** Some key of `config` is assignable from `ty`. */
  ghost predicate HasCandidate<Ty, F>(config: map<Ty, CommandBindingInfo<F>>, assignable: (Ty, Ty) -> bool, ty: Ty) {
    exists k :: k in config && assignable(k, ty)
  }

  /** `k` is a key of `config`, assignable from `ty`, of maximal affinity among such keys. */
  ghost predicate IsBestMatch<Ty, F>(config: map<Ty, CommandBindingInfo<F>>, assignable: (Ty, Ty) -> bool, ty: Ty, k: Ty) {
    && k in config
    && assignable(k, ty)
    && forall k' :: k' in config && assignable(k', ty) ==> config[k'].affinity <= config[k].affinity
  }

  /**
    The lookup shared by both entry points: keep the keys, in the order the
    dictionary enumerates them (`keys`), that are assignable from `ty`, and
    take the first of those with the highest affinity (what a stable
    descending sort followed by taking the first element gives); `None` when
    no key qualifies.
   */
  function Select<Ty, F>(keys: seq<Ty>, config: map<Ty, CommandBindingInfo<F>>, assignable: (Ty, Ty) -> bool, ty: Ty): (r: Option<Ty>)
    requires forall k :: k in keys ==> k in config
    ensures r.None? <==> forall k :: k in keys ==> !assignable(k, ty)
    ensures r.Some? ==> r.value in keys && assignable(r.value, ty)
    ensures r.Some? ==> forall k :: k in keys && assignable(k, ty) ==> config[k].affinity <= config[r.value].affinity
  {
    if keys == [] then None
    else
      var rest := Select(keys[1..], config, assignable, ty);
      var k := keys[0];
      assert forall k' :: k' in keys ==> k' == k || k' in keys[1..];
      if assignable(k, ty) && (rest.None? || config[rest.value].affinity <= config[k].affinity) then Some(k)
      else rest
  }

  /**
    A binder: the `config` dictionary, with `keys` recording the order in
    which the dictionary enumerates its keys, together with the type-system
    oracles it consults (`IsAssignableFrom`, `GetType`, `Name`).
   */
  class FlexibleCommandBinder<Ty(==, !new), Obj, F> {
    var config: map<Ty, CommandBindingInfo<F>>
    var keys: seq<Ty>
    const assignable: (Ty, Ty) -> bool
    const typeOf: Obj -> Ty
    const typeName: Ty -> string

    /** `keys` enumerates exactly the keys of `config`, each once. */
    ghost predicate Valid()
      reads this
    {
      && (forall k :: k in keys <==> k in config)
      && (forall i, j :: 0 <= i < j < |keys| ==> keys[i] != keys[j])
    }

    /** A binder starts with an empty table. */
    constructor (assignable: (Ty, Ty) -> bool, typeOf: Obj -> Ty, typeName: Ty -> string)
      ensures Valid()
      ensures config == map[] && keys == []
      ensures this.assignable == assignable && this.typeOf == typeOf && this.typeName == typeName
    {
      config := map[];
      keys := [];
      this.assignable := assignable;
      this.typeOf := typeOf;
      this.typeName := typeName;
    }

    /**
      `Register`: add the descriptor for `ty` or replace the one already
      there; a new key is enumerated after the existing ones, a replaced one
      keeps its place.
     */
    method Register(ty: Ty, affinity: int, createBinding: F)
      requires Valid()
      modifies this
      ensures Valid()
      ensures config == old(config)[ty := CommandBindingInfo(affinity, createBinding)]
      ensures ty in config && config[ty] == CommandBindingInfo(affinity, createBinding)
      ensures forall k :: k != ty ==> (k in config <==> k in old(config))
      ensures forall k :: k != ty && k in old(config) ==> config[k] == old(config)[k]
      ensures keys == if ty in old(config) then old(keys) else old(keys) + [ty]
    {
      if ty !in config {
        keys := keys + [ty];
      }
      config := config[ty := CommandBindingInfo(affinity, createBinding)];
    }

    /** The key the lookup of both entry points settles on for `ty`. */
    function FindMatch(ty: Ty): (r: Option<Ty>)
      reads this
      requires Valid()
      ensures r.None? <==> !HasCandidate(config, assignable, ty)
      ensures r.Some? ==> IsBestMatch(config, assignable, ty, r.value)
    {
      Select(keys, config, assignable, ty)
    }

    /**
      `GetAffinityForObject`: 0 when the caller supplies its own event or no
      key is compatible, otherwise the affinity of the best compatible key.
     */
    function GetAffinityForObject(ty: Ty, hasEventTarget: bool): (r: int)
      reads this
      requires Valid()
      ensures hasEventTarget ==> r == 0
      ensures !HasCandidate(config, assignable, ty) ==> r == 0
      ensures !hasEventTarget && HasCandidate(config, assignable, ty) ==>
        (exists k :: IsBestMatch(config, assignable, ty, k) && config[k].affinity == r)
    {
      if hasEventTarget then 0
      else
        match FindMatch(ty)
        case None => 0
        case Some(k) => config[k].affinity
    }

    /**
      `BindCommandToObject`: fail with NotSupported naming the target's type
      when no key is compatible with it; otherwise invoke the best
      descriptor's factory and return what it made.
     */
    function BindCommandToObject<Cmd, Stream>(command: Cmd, target: Obj, commandParameter: Stream): (r: Result<CreatedBinding<F, Cmd, Obj, Stream>>)
      reads this
      requires Valid()
      ensures r.Err? <==> !HasCandidate(config, assignable, typeOf(target))
      ensures r.Err? ==> r.error == NotSupported(typeName(typeOf(target)))
      ensures r.Ok? ==> exists k :: IsBestMatch(config, assignable, typeOf(target), k) && r.value.descriptor == config[k]
      ensures r.Ok? ==> r.value.command == command && r.value.target == target && r.value.commandParameter == commandParameter
    {
      var ty := typeOf(target);
      match FindMatch(ty)
      case None => Err(NotSupported(typeName(ty)))
      case Some(k) => Ok(CreatedBinding(config[k], command, target, commandParameter))
    }

    /** The overload taking an event-args type and an event name is not implemented. */
    function BindCommandToObjectForEvent<Cmd, Stream>(command: Cmd, target: Obj, commandParameter: Stream, eventName: string): (r: Result<CreatedBinding<F, Cmd, Obj, Stream>>)
      ensures r == Err(NotImplemented)
    {
      Err(NotImplemented)
    }
  }

  /**
    Both entry points run the same lookup: a bind succeeds exactly when the
    lookup finds a key, it invokes that key's descriptor, and the affinity
    reported for the target's type is that descriptor's affinity.
   */
  lemma AffinityAgreesWithBinding<Ty(!new), Obj, F, Cmd, Stream>(b: FlexibleCommandBinder<Ty, Obj, F>, command: Cmd, target: Obj, commandParameter: Stream)
    requires b.Valid()
    ensures b.BindCommandToObject(command, target, commandParameter).Ok? <==> b.FindMatch(b.typeOf(target)).Some?
    ensures b.BindCommandToObject(command, target, commandParameter).Ok? ==>
      && b.BindCommandToObject(command, target, commandParameter).value.descriptor == b.config[b.FindMatch(b.typeOf(target)).value]
      && b.BindCommandToObject(command, target, commandParameter).value.descriptor.affinity == b.GetAffinityForObject(b.typeOf(target), false)
  {
  }

  /** A compatible key whose affinity beats every other compatible key is the one selected. */
  lemma UniqueMaximumIsSelected<Ty(!new), Obj, F>(b: FlexibleCommandBinder<Ty, Obj, F>, ty: Ty, k: Ty)
    requires b.Valid()
    requires k in b.config && b.assignable(k, ty)
    requires forall k' :: k' in b.config && k' != k && b.assignable(k', ty) ==> b.config[k'].affinity < b.config[k].affinity
    ensures b.FindMatch(ty) == Some(k)
    ensures b.GetAffinityForObject(ty, false) == b.config[k].affinity
  {
  }

  /** With a reflexive relation, a registered type always finds a match at least as strong as its own entry. */
  lemma RegisteredTypeIsSupported<Ty(!new), Obj, F>(b: FlexibleCommandBinder<Ty, Obj, F>, ty: Ty)
    requires b.Valid() && Reflexive(b.assignable)
    requires ty in b.config
    ensures b.FindMatch(ty).Some?
    ensures b.GetAffinityForObject(ty, false) >= b.config[ty].affinity
  {
  }

  /**
    With a transitive relation, a subtype is compatible with every key its
    supertype is compatible with, so it is never resolved with a lower
    affinity than its supertype.
   */
  lemma SubtypeAffinityIsAtLeastSupertype<Ty(!new), Obj, F>(b: FlexibleCommandBinder<Ty, Obj, F>, super: Ty, sub: Ty)
    requires b.Valid() && Transitive(b.assignable)
    requires b.assignable(super, sub)
    requires HasCandidate(b.config, b.assignable, super)
    ensures HasCandidate(b.config, b.assignable, sub)
    ensures b.GetAffinityForObject(sub, false) >= b.GetAffinityForObject(super, false)
  {
  }

  /** The two-widget example: a subtype registered with the higher affinity wins for itself, the base type for itself. */
  datatype ExampleType = Widget | Button

  method WidgetButtonScenario() returns (widgetAffinity: int, buttonAffinity: int, buttonBinding: Result<CreatedBinding<string, string, ExampleType, string>>)
    ensures widgetAffinity == 5 && buttonAffinity == 10
    ensures buttonBinding == Ok(CreatedBinding(CommandBindingInfo(10, "F2"), "cmd", Button, "param"))
  {
    var assignable := (sup: ExampleType, sub: ExampleType) => sup == sub || (sup == Widget && sub == Button);
    var b := new FlexibleCommandBinder<ExampleType, ExampleType, string>(assignable, (o: ExampleType) => o, (t: ExampleType) => if t == Widget then "Widget" else "Button");
    b.Register(Widget, 5, "F1");
    b.Register(Button, 10, "F2");
    UniqueMaximumIsSelected(b, Widget, Widget);
    UniqueMaximumIsSelected(b, Button, Button);
    widgetAffinity := b.GetAffinityForObject(Widget, false);
    buttonAffinity := b.GetAffinityForObject(Button, false);
    buttonBinding := b.BindCommandToObject("cmd", Button, "param");
    assert b.FindMatch(Button) == Some(Button);
  }
}
