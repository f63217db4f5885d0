/**
 * Routes guarded by the authentication state: a condition decides whether
 * the route shows its component, its fallback, or nothing yet.
 */
module Routes {
  import opened Wrappers

  datatype Outcome = ShowComponent | ShowFallback

  /** `(authenticating, authenticated) => 'component' | 'fallback' | undefined` */
  type RouteCondition = (bool, bool) -> Option<Outcome>

  /** What `render` produces: nothing, the route's component, or its fallback. */
  datatype Rendered<C> = Nothing | Component(component: C) | Fallback(fallback: C)

  function DefaultCondition(authenticating: bool, authenticated: bool): (r: Option<Outcome>)
    ensures r == Some(ShowComponent)
  {
    Some(ShowComponent)
  }

  function PrivateCondition(authenticating: bool, authenticated: bool): (r: Option<Outcome>)
    ensures authenticating ==> r == None
    ensures !authenticating ==> r.Some? && (r.value == ShowComponent <==> authenticated)
  {
    if authenticating then None
    else if authenticated then Some(ShowComponent) else Some(ShowFallback)
  }

  function PublicCondition(authenticating: bool, authenticated: bool): (r: Option<Outcome>)
    ensures r != Some(ShowFallback)
    ensures r.None? <==> authenticating
  {
    if authenticating then None else Some(ShowComponent)
  }

  /**
   * `Route.render`; a missing condition is the default condition. Nothing is
   * rendered without a component, for an undecided outcome, or for a
   * fallback outcome without a fallback.
   */
  function Render<C>(component: Option<C>, fallback: Option<C>, condition: Option<RouteCondition>,
                     authenticating: bool, authenticated: bool): (r: Rendered<C>)
    ensures component.None? ==> r.Nothing?
    ensures r.Component? ==> component == Some(r.component)
    ensures r.Fallback? ==> fallback == Some(r.fallback)
    ensures component.Some? ==>
              var outcome := condition.GetOr(DefaultCondition)(authenticating, authenticated);
              (r.Component? <==> outcome == Some(ShowComponent)) &&
              (r.Fallback? <==> outcome == Some(ShowFallback) && fallback.Some?)
  {
    match component
    case None => Nothing
    case Some(c) =>
      match condition.GetOr(DefaultCondition)(authenticating, authenticated)
      case Some(ShowComponent) => Component(c)
      case Some(ShowFallback) => if fallback.Some? then Fallback(fallback.value) else Nothing
      case None => Nothing
  }

  /** A route without a condition always shows its component. */
  lemma DefaultRouteShowsComponent<C>(c: C, fallback: Option<C>, authenticating: bool, authenticated: bool)
    ensures Render(Some(c), fallback, None, authenticating, authenticated) == Component(c)
  {
  }

  /** A private route shows its component exactly once authentication has settled as logged in. */
  lemma PrivateRoute<C>(c: C, fallback: Option<C>, authenticating: bool, authenticated: bool)
    ensures Render(Some(c), fallback, Some(PrivateCondition), authenticating, authenticated) ==
              if authenticating then Nothing
              else if authenticated then Component(c)
              else if fallback.Some? then Fallback(fallback.value) else Nothing
  {
  }

  /** A public route never shows its fallback. */
  lemma PublicRouteNoFallback<C>(c: Option<C>, fallback: Option<C>, authenticating: bool, authenticated: bool)
    ensures !Render(c, fallback, Some(PublicCondition), authenticating, authenticated).Fallback?
  {
  }
}
