/**
 * The leave-page warning. It is shown while a navigation target is pending
 * and offers Stay (also reached by clicking the backdrop) or Leave, which
 * drops the unsaved work and follows the held-back link.
 */
module UnsavedWarning {
  import opened Wrappers
  import opened Unsaved
  import Sidebar

  datatype Action = StayButton | LeaveButton | BackdropClick

  /** The guard after an action, and the page the router is sent to, if any. */
  datatype Outcome = Outcome(guard: Guard, target: Option<string>)

  /** Nothing is rendered, so nothing can be clicked, unless a target is pending. */
  predicate Shown(g: Guard) {
    HasTarget(g)
  }

  /** `handleLeave`: clean, nothing pending, and off to the pending target. */
  function Leave(g: Guard): (r: Outcome)
    ensures Shown(g) ==> r.guard == InitialGuard && r.target == g.pendingHref
    ensures !Shown(g) ==> r == Outcome(g, None)
  {
    if Shown(g) then Outcome(Guard(false, None), g.pendingHref) else Outcome(g, None)
  }

  /** `handleStay`: only the pending target is dropped. */
  function Stay(g: Guard): (r: Outcome)
    ensures Shown(g) ==> r.guard == g.(pendingHref := None) && r.target == None
    ensures !Shown(g) ==> r == Outcome(g, None)
  {
    if Shown(g) then Outcome(g.(pendingHref := None), None) else Outcome(g, None)
  }

  function Respond(g: Guard, a: Action): Outcome {
    match a
    case StayButton => Stay(g)
    case BackdropClick => Stay(g)
    case LeaveButton => Leave(g)
  }

  /** Clicking the backdrop is Stay. */
  lemma BackdropIsStay(g: Guard)
    ensures Respond(g, BackdropClick) == Respond(g, StayButton)
    ensures Shown(g) ==> Respond(g, BackdropClick).guard.isDirty == g.isDirty
  {
  }

  /** A click held back while dirty, then Leave: the user ends up where they clicked, with the guard reset. */
  lemma LeaveFollowsHeldClick(g: Guard, href: string)
    requires g.isDirty && href != ""
    ensures !Sidebar.Click(g, href).navigates
    ensures Leave(Sidebar.Click(g, href).guard) == Outcome(InitialGuard, Some(href))
  {
  }

  /** A click held back, then Stay: the page is still dirty, so the next click is held back again. */
  lemma StayKeepsGuarding(g: Guard, href: string, next: string)
    requires g.isDirty && href != ""
    ensures var after := Stay(Sidebar.Click(g, href).guard).guard;
      after.isDirty && after.pendingHref == None && !Sidebar.Click(after, next).navigates
  {
  }

  /** After Leave, clicks are no longer held back until the page is marked dirty again. */
  lemma LeaveUnguards(g: Guard, next: string)
    requires Shown(g)
    ensures Sidebar.Click(Leave(g).guard, next).navigates
  {
  }

  /** The Leave button acting on the shared context. */
  method HandleLeave(ctx: UnsavedContext) returns (target: Option<string>)
    requires Shown(ctx.State())
    modifies ctx
    ensures target == Leave(old(ctx.State())).target
    ensures ctx.provided ==> ctx.State() == Leave(old(ctx.State())).guard
  {
    target := ctx.pendingHref;
    ctx.SetDirty(false);
    ctx.SetPendingHref(None);
  }

  /** The Stay button and the backdrop acting on the shared context. */
  method HandleStay(ctx: UnsavedContext)
    requires Shown(ctx.State())
    modifies ctx
    ensures ctx.provided ==> ctx.State() == Stay(old(ctx.State())).guard
    ensures ctx.isDirty == old(ctx.isDirty)
  {
    ctx.SetPendingHref(None);
  }
}
