/** ClassDebug: attaches a `debug`/`debugr` logger pair, named by a tag, to a
    class and its prototype or to a single instance, and records every
    handle in a `debugs` store shared by the type and all its extensions. */
module ClassDebug {
  import opened Js
  import opened Tags
  import opened Logging
  import opened Registries

  /** The prototype object of a decorated class. */
  class Prototype {
    var debug: Option<Logger>
    var debugr: Option<Handle>

    constructor ()
      ensures debug == None && debugr == None
    {
      debug, debugr := None, None;
    }
  }

  /** A class being decorated: its name (`cls.name`), its prototype, and the
      two static properties the attach installs. */
  class Target {
    const name: string
    const proto: Prototype
    var debug: Option<Logger>
    var debugr: Option<Handle>

    constructor (name: string)
      ensures this.name == name && fresh(proto)
      ensures debug == None && debugr == None && proto.debug == None && proto.debugr == None
    {
      this.name := name;
      proto := new Prototype();
      debug, debugr := None, None;
    }
  }

  /** An object made by `new ctor()`: its own `debug`/`debugr` properties,
      and the prototype it inherits them from when it has none. */
  class ClassInstance {
    const ctor: Target
    var debug: Option<Logger>
    var debugr: Option<Handle>

    constructor (ctor: Target)
      ensures this.ctor == ctor && debug == None && debugr == None
    {
      this.ctor := ctor;
      debug, debugr := None, None;
    }

    /** `instance.debug`, found on the instance or else on its prototype. */
    function Debug(): (r: Option<Logger>)
      reads this, ctor.proto
      ensures r == debug || r == ctor.proto.debug
      ensures r.Some? <==> debug.Some? || ctor.proto.debug.Some?
      ensures debug.Some? ==> r == debug
    {
      if debug.Some? then debug else ctor.proto.debug
    }

    /** `instance.debugr`, found on the instance or else on its prototype. */
    function Debugr(): (r: Option<Handle>)
      reads this, ctor.proto
      ensures r == debugr || r == ctor.proto.debugr
      ensures r.Some? <==> debugr.Some? || ctor.proto.debugr.Some?
      ensures debugr.Some? ==> r == debugr
    {
      if debugr.Some? then debugr else ctor.proto.debugr
    }
  }

  /** The ClassDebug type, or a type made from it by `extend`: the static
      side, holding `default_prefix` and the `debugs` store. An extension has
      its own `default_prefix` but finds `debugs` on the base type, so every
      type of one family shares the same store. */
  class DebugType {
    var defaultPrefix: Value
    const registry: Registry

    /** The module's load: the class is defined and `classInit` runs on it. */
    constructor Load()
      ensures defaultPrefix == Str("mh")
      ensures fresh(registry) && registry.debugs == map[]
    {
      registry := new Registry();
      new;
      ClassInit();
    }

    /** `class extends base {}` followed by setting its `default_prefix`. */
    constructor Extending(base: DebugType, prefix: Value)
      ensures defaultPrefix == prefix && registry == base.registry
    {
      defaultPrefix := prefix;
      registry := base.registry;
    }

    /** `classInit`: the default prefix is `mh` and the store is empty. */
    method ClassInit()
      modifies this, registry
      ensures defaultPrefix == Str("mh") && registry.debugs == map[]
    {
      defaultPrefix := Str("mh");
      registry.Clear();
    }

    /** `extend(prefix, name)`: a new type with `prefix` as its default
        prefix, writing into this type's store. `name` only picks the key of
        a throwaway dictionary, so it has no effect on the result. */
    method Extend(prefix: Value, name: Value) returns (sub: DebugType)
      ensures fresh(sub)
      ensures sub.defaultPrefix == prefix && sub.registry == registry
    {
      sub := new DebugType.Extending(this, prefix);
    }

    /** Static `attach(cls, prefix, suffix)`: makes a handle for the class
        tag, installs it as `debugr` and, guarded by its enabled state, as
        `debug` on the class and its prototype, stores it under the tag and
        returns it. Instances without their own properties now see the pair
        through the prototype. */
    method Attach(cls: Target, prefix: Value, suffix: Value, isEnabled: string -> bool) returns (h: Handle)
      modifies cls, cls.proto, registry
      ensures fresh(h)
      ensures h.tag == ClassTag(defaultPrefix, cls.name, prefix, suffix)
      ensures h.enabled == isEnabled(h.tag)
      ensures cls.debugr == Some(h) && cls.proto.debugr == Some(h)
      ensures cls.debug == Some(Guarded(h)) && cls.proto.debug == Some(Guarded(h))
      ensures registry.debugs == old(registry.debugs)[h.tag := h]
      ensures forall o: ClassInstance :: o.ctor == cls && o.debug.None? ==> o.Debug() == Some(Guarded(h))
      ensures forall o: ClassInstance :: o.ctor == cls && o.debugr.None? ==> o.Debugr() == Some(h)
    {
      var p := IfNullish(prefix, defaultPrefix);
      var s := IfNullish(suffix, Str(cls.name));
      var tag := Render(p) + ":" + Render(s);
      h := Create(tag, isEnabled);
      cls.proto.debugr := Some(h);
      cls.proto.debug := Some(Guarded(h));
      cls.debugr := Some(h);
      cls.debug := Some(Guarded(h));
      registry.Store(tag, h);
    }

    /** Static `instance(inst, prefix, data)`: makes a handle for the
        instance tag and installs the pair on the instance alone; the class
        and its prototype are untouched. */
    method Instance(inst: ClassInstance, prefix: Value, data: Value, isEnabled: string -> bool) returns (h: Handle)
      modifies inst, registry
      ensures fresh(h)
      ensures h.tag == InstanceTag(defaultPrefix, inst.ctor.name, prefix, data)
      ensures h.enabled == isEnabled(h.tag)
      ensures inst.debugr == Some(h) && inst.debug == Some(Guarded(h))
      ensures inst.Debugr() == Some(h) && inst.Debug() == Some(Guarded(h))
      ensures unchanged(inst.ctor, inst.ctor.proto)
      ensures registry.debugs == old(registry.debugs)[h.tag := h]
    {
      var cls := inst.ctor;
      var p := Or(prefix, defaultPrefix);
      var tag := Render(p) + ":" + cls.name;
      if Truthy(data) {
        tag := tag + "[" + Render(data) + "]";
      }
      h := Create(tag, isEnabled);
      inst.debugr := Some(h);
      inst.debug := Some(Guarded(h));
      registry.Store(tag, h);
    }

    /** Static `setup(cls, prefix)`: a debugger bound to `prefix || default`,
        with `cls` attached under that prefix and its own name. */
    method Setup(cls: Target, prefix: Value, isEnabled: string -> bool) returns (d: Debugger)
      modifies cls, cls.proto, registry
      ensures fresh(d) && d.ctor == this
      ensures d.prefix == Or(prefix, defaultPrefix)
      ensures cls.debugr.Some? && cls.debugr == cls.proto.debugr
      ensures var h := cls.debugr.value;
        && h.tag == Render(Or(prefix, defaultPrefix)) + ":" + cls.name
        && h.enabled == isEnabled(h.tag)
        && cls.debug == Some(Guarded(h)) && cls.proto.debug == Some(Guarded(h))
        && registry.debugs == old(registry.debugs)[h.tag := h]
    {
      d := new Debugger(this, prefix);
      var h := d.Attach(cls, isEnabled);
      SetupTag(defaultPrefix, cls.name, prefix);
    }
  }

  /** An object made by `new T(prefix)` for a debug type `T`: it keeps a
      prefix and attaches through `T`'s static operations. */
  class Debugger {
    const ctor: DebugType
    var prefix: Value

    /** `this.prefix = prefix || this.constructor.default_prefix` */
    constructor (ctor: DebugType, prefix: Value)
      ensures this.ctor == ctor
      ensures this.prefix == Or(prefix, ctor.defaultPrefix)
    {
      this.ctor := ctor;
      this.prefix := Or(prefix, ctor.defaultPrefix);
    }

    /** `attach(cls)`: static attach with the bound prefix and no suffix, so
        the suffix is always the class name. */
    method Attach(cls: Target, isEnabled: string -> bool) returns (h: Handle)
      modifies cls, cls.proto, ctor.registry
      ensures fresh(h)
      ensures h.tag == ClassTag(ctor.defaultPrefix, cls.name, prefix, Undefined)
      ensures h.enabled == isEnabled(h.tag)
      ensures cls.debugr == Some(h) && cls.proto.debugr == Some(h)
      ensures cls.debug == Some(Guarded(h)) && cls.proto.debug == Some(Guarded(h))
      ensures ctor.registry.debugs == old(ctor.registry.debugs)[h.tag := h]
    {
      h := ctor.Attach(cls, prefix, Undefined, isEnabled);
    }

    /** `instance(inst, data)`: static instance with the bound prefix. */
    method Instance(inst: ClassInstance, data: Value, isEnabled: string -> bool) returns (h: Handle)
      modifies inst, ctor.registry
      ensures fresh(h)
      ensures h.tag == InstanceTag(ctor.defaultPrefix, inst.ctor.name, prefix, data)
      ensures h.enabled == isEnabled(h.tag)
      ensures inst.debugr == Some(h) && inst.debug == Some(Guarded(h))
      ensures unchanged(inst.ctor, inst.ctor.proto)
      ensures ctor.registry.debugs == old(ctor.registry.debugs)[h.tag := h]
    {
      h := ctor.Instance(inst, prefix, data, isEnabled);
    }
  }

  /** The tag `setup` gives a class is `${prefix || default}:${cls.name}`:
      the bound prefix is nullish only when the default is, and then the
      attach falls back to that same default. */
  lemma SetupTag(defaultPrefix: Value, name: string, prefix: Value)
    ensures ClassTag(defaultPrefix, name, Or(prefix, defaultPrefix), Undefined)
         == Render(Or(prefix, defaultPrefix)) + ":" + name
  {
  }
}
