/** Clients of ClassDebug whose results follow from the operations'
    contracts alone. */
module Scenarios {
  import opened Js
  import opened Logging
  import Tags
  import opened ClassDebug
  import opened Registries

  /** `ClassDebug.setup(Widget)` logs under `mh:Widget`, and a new `Widget`
      instance sees the class's pair through the prototype. */
  method SetupWidget(isEnabled: string -> bool) returns (tag: string, inherited: bool, stored: bool)
    ensures tag == "mh:Widget"
    ensures inherited
    ensures stored
  {
    var base := new DebugType.Load();
    var widget := new Target("Widget");
    var d := base.Setup(widget, Undefined, isEnabled);
    var w := new ClassInstance(widget);
    tag := widget.debugr.value.tag;
    inherited := w.Debugr() == widget.debugr && w.Debug() == widget.debug;
    stored := tag in base.registry.debugs && Some(base.registry.debugs[tag]) == widget.debugr;
  }

  /** `extend('custom')` gives a type whose setup defaults to `custom`; the
      base keeps `mh`, and the extension's handle lands in the base's store. */
  method ExtendCustom(isEnabled: string -> bool) returns (basePrefix: Value, tag: string, inBaseStore: bool)
    ensures basePrefix == Str("mh")
    ensures tag == "custom:Widget"
    ensures inBaseStore
  {
    var base := new DebugType.Load();
    var custom := base.Extend(Str("custom"), Str("Debug"));
    var widget := new Target("Widget");
    var d := custom.Setup(widget, Undefined, isEnabled);
    basePrefix := base.defaultPrefix;
    tag := widget.debugr.value.tag;
    inBaseStore := tag in base.registry.debugs;
  }

  /** An empty prefix is kept by static `attach` but replaced by the default
      in static `instance`; truthy data is appended in brackets. */
  method EmptyPrefix(isEnabled: string -> bool) returns (classTag: string, instanceTag: string, plainTag: string)
    ensures classTag == ":Widget"
    ensures instanceTag == "mh:Widget[42]"
    ensures plainTag == "mh:Widget"
  {
    var base := new DebugType.Load();
    var widget := new Target("Widget");
    var w := new ClassInstance(widget);
    var h1 := base.Attach(widget, Str(""), Undefined, isEnabled);
    var h2 := base.Instance(w, Str(""), Str("42"), isEnabled);
    var h3 := base.Instance(w, Undefined, Str(""), isEnabled);
    WidgetTags();
    classTag, instanceTag, plainTag := h1.tag, h2.tag, h3.tag;
  }

  /** The three tags `EmptyPrefix` composes, with the default prefix `mh`. */
  lemma WidgetTags()
    ensures Tags.ClassTag(Str("mh"), "Widget", Str(""), Undefined) == ":Widget"
    ensures Tags.InstanceTag(Str("mh"), "Widget", Str(""), Str("42")) == "mh:Widget[42]"
    ensures Tags.InstanceTag(Str("mh"), "Widget", Undefined, Str("")) == "mh:Widget"
  {
    assert IfNullish(Str(""), Str("mh")) == Str("");
    assert Or(Str(""), Str("mh")) == Str("mh") && Or(Undefined, Str("mh")) == Str("mh");
    assert "" + ":" + "Widget" == ":Widget";
    assert "mh" + ":" + "Widget" == "mh:Widget";
    assert "mh:Widget" + "[" + "42" + "]" == "mh:Widget[42]";
  }

  /** A disabled tag leaves `debug` as the shared no-op while `debugr` is
      still the handle; an enabled one makes them the same. */
  method EnabledOrNoop() returns (offDebug: Logger, offRaw: bool, onDebug: bool)
    ensures offDebug == Noop
    ensures offRaw
    ensures onDebug
  {
    var base := new DebugType.Load();
    var quiet := new Target("Quiet");
    var loud := new Target("Loud");
    var isEnabled := (t: string) => t == "mh:Loud";
    var hq := base.Attach(quiet, Undefined, Undefined, isEnabled);
    var hl := base.Attach(loud, Undefined, Undefined, isEnabled);
    offDebug := quiet.debug.value;
    offRaw := quiet.debugr == Some(hq);
    onDebug := loud.debug == Some(Live(hl)) && loud.debugr == Some(hl);
  }

  /** Two classes with the same name attached under the same prefix share a
      tag: the store is the replay of the two writes, so it keeps the later
      handle, and the earlier class keeps its own. */
  method SameTagLastWins(isEnabled: string -> bool) returns (sameTag: bool, replayed: bool, storesLater: bool, firstKeeps: bool)
    ensures sameTag && replayed && storesLater && firstKeeps
  {
    var base := new DebugType.Load();
    var first := new Target("Model");
    var second := new Target("Model");
    var h1 := base.Attach(first, Undefined, Undefined, isEnabled);
    var h2 := base.Attach(second, Undefined, Undefined, isEnabled);
    var writes := [(h1.tag, h1), (h2.tag, h2)];
    ReplaySnoc(map[], [(h1.tag, h1)], h2.tag, h2);
    assert [(h1.tag, h1)] + [(h2.tag, h2)] == writes;
    sameTag := h1.tag == h2.tag;
    replayed := base.registry.debugs == Replay(map[], writes);
    ReplayLastWriterWins(map[], writes, 1);
    storesLater := base.registry.debugs[h2.tag] == h2;
    firstKeeps := first.debugr == Some(h1);
  }
}
