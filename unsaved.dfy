/**
 * The unsaved-changes context: two state cells shared by the sidebar and the
 * leave-page warning. `isDirty` says the current page holds unsaved work;
 * `pendingHref` is the navigation target held back while the user decides.
 * A component rendered outside the provider sees the default value: not
 * dirty, nothing pending, and setters that do nothing.
 */
module Unsaved {
  import opened Wrappers

  /** The two cells, as a value. */
  datatype Guard = Guard(isDirty: bool, pendingHref: Option<string>)

  /** What the provider starts with, and what a component outside it sees. */
  const InitialGuard: Guard := Guard(false, None)

  /** A non-empty pending target; `null` and the empty string are both falsy. */
  predicate HasTarget(g: Guard) {
    g.pendingHref.Some? && g.pendingHref.value != ""
  }

  class UnsavedContext {
    /** Whether a provider is mounted above the consumer. */
    const provided: bool
    var isDirty: bool
    var pendingHref: Option<string>

    function State(): (r: Guard)
      reads this
      ensures r.isDirty == isDirty && r.pendingHref == pendingHref
    {
      Guard(isDirty, pendingHref)
    }

    constructor (provided: bool)
      ensures this.provided == provided && State() == InitialGuard
    {
      this.provided := provided;
      isDirty := false;
      pendingHref := None;
    }

    /** `setDirty`: writes only `isDirty`, and only inside a provider. */
    method SetDirty(dirty: bool)
      modifies this
      ensures provided ==> isDirty == dirty
      ensures !provided ==> isDirty == old(isDirty)
      ensures pendingHref == old(pendingHref)
    {
      if provided {
        isDirty := dirty;
      }
    }

    /** `setPendingHref`: writes only `pendingHref`, and only inside a provider. */
    method SetPendingHref(href: Option<string>)
      modifies this
      ensures provided ==> pendingHref == href
      ensures !provided ==> pendingHref == old(pendingHref)
      ensures isDirty == old(isDirty)
    {
      if provided {
        pendingHref := href;
      }
    }
  }

  /** Outside a provider no sequence of setter calls moves the context off its default. */
  method DefaultContextIsInert(ctx: UnsavedContext, dirty: bool, href: Option<string>)
    requires !ctx.provided && ctx.State() == InitialGuard
    modifies ctx
    ensures ctx.State() == InitialGuard
  {
    ctx.SetDirty(dirty);
    ctx.SetPendingHref(href);
  }
}
