/**
 * The sidebar: four navigation links and the logo link, each guarded by the
 * unsaved-changes context, and the active-item test on the current path.
 */
module Sidebar {
  import opened Wrappers
  import opened Text
  import opened Unsaved

  const Home: string := "/"
  const NavHrefs: seq<string> := ["/projects", "/drafts", "/ideas", "/templates"]

  /** What a click does: the guard afterwards, and whether the browser follows the link. */
  datatype ClickOutcome = ClickOutcome(guard: Guard, navigates: bool)

  /** `handleClick`: while dirty the click is cancelled and its target held back. */
  function Click(g: Guard, href: string): (r: ClickOutcome)
    ensures r.guard.isDirty == g.isDirty
    ensures r.navigates <==> !g.isDirty
    ensures g.isDirty ==> r.guard.pendingHref == Some(href)
    ensures !g.isDirty ==> r.guard == g
  {
    if g.isDirty then ClickOutcome(g.(pendingHref := Some(href)), false)
    else ClickOutcome(g, true)
  }

  /** A link is highlighted when the current path starts with its target. */
  predicate IsActive(pathname: string, href: string) {
    StartsWith(pathname, href)
  }

  /** No two sidebar items are highlighted at once. */
  lemma AtMostOneActive(pathname: string, i: int, j: int)
    requires 0 <= i < |NavHrefs| && 0 <= j < |NavHrefs|
    requires IsActive(pathname, NavHrefs[i]) && IsActive(pathname, NavHrefs[j])
    ensures i == j
  {
    assert pathname[1] == NavHrefs[i][1] by {
      assert pathname[..|NavHrefs[i]|][1] == NavHrefs[i][1];
    }
    assert pathname[1] == NavHrefs[j][1] by {
      assert pathname[..|NavHrefs[j]|][1] == NavHrefs[j][1];
    }
    assert NavHrefs[0][1] == 'p' && NavHrefs[1][1] == 'd' && NavHrefs[2][1] == 'i' && NavHrefs[3][1] == 't';
  }

  /** On the home page no item is highlighted; below an item's path that item is. */
  lemma ActiveExamples(rest: string)
    ensures forall i :: 0 <= i < |NavHrefs| ==> !IsActive(Home, NavHrefs[i])
    ensures IsActive(NavHrefs[0] + rest, NavHrefs[0])
  {
    assert (NavHrefs[0] + rest)[..|NavHrefs[0]|] == NavHrefs[0];
  }

  /** The sidebar's click handler acting on the shared context. */
  method HandleClick(ctx: UnsavedContext, href: string) returns (navigates: bool)
    modifies ctx
    ensures navigates == Click(old(ctx.State()), href).navigates
    ensures ctx.provided ==> ctx.State() == Click(old(ctx.State()), href).guard
    ensures !ctx.provided ==> ctx.State() == old(ctx.State())
  {
    navigates := true;
    if ctx.isDirty {
      navigates := false;
      ctx.SetPendingHref(Some(href));
    }
  }

  /** The logo link goes home under the same guard. */
  method HandleLogoClick(ctx: UnsavedContext) returns (navigates: bool)
    modifies ctx
    ensures navigates == Click(old(ctx.State()), Home).navigates
    ensures ctx.provided ==> ctx.State() == Click(old(ctx.State()), Home).guard
    ensures !ctx.provided ==> ctx.State() == old(ctx.State())
  {
    navigates := HandleClick(ctx, Home);
  }
}
