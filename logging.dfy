/** The external `debug` library, kept abstract: a factory that makes a
    logger handle for a tag, and whether that tag is enabled, decided by a
    predicate the caller supplies (the library matches it against the
    `DEBUG` environment pattern). */
module Logging {

  /** A logger handle: bound to one tag; `enabled` is fixed when it is made. */
  class Handle {
    const tag: string
    const enabled: bool

    constructor (tag: string, enabled: bool)
      ensures this.tag == tag && this.enabled == enabled
    {
      this.tag := tag;
      this.enabled := enabled;
    }
  }

  /** What a `debug` property holds: a live handle, or the one shared no-op
      function. */
  datatype Logger = Live(handle: Handle) | Noop

  /** `debugr(tag)`: every call makes a new handle. */
  method Create(tag: string, isEnabled: string -> bool) returns (h: Handle)
    ensures fresh(h)
    ensures h.tag == tag && h.enabled == isEnabled(tag)
  {
    h := new Handle(tag, isEnabled(tag));
  }

  /** `(h.enabled) ? h : noop`: logs through `h` exactly when `h` is
      enabled, and is the shared no-op otherwise. */
  function Guarded(h: Handle): (l: Logger)
    ensures l == Live(h) <==> h.enabled
    ensures l == Noop <==> !h.enabled
  {
    if h.enabled then Live(h) else Noop
  }
}
