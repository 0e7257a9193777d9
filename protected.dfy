/** The route guard in front of the authenticated pages. */
module Protected {
  import opened Common
  import opened UserContext

  /** What the guard renders: a redirect (with its `replace` flag) or the children. */
  datatype Outcome = Redirect(to: string, replace: bool) | Children

  /** The guard's render decision. */
  function Guard(user: Option<User>): (o: Outcome)
    ensures o.Redirect? <==> user.None?
    ensures o.Redirect? ==> o.to == "/" && o.replace
  {
    if user.None? then Redirect("/", true) else Children
  }

  /** The effect raises the "Login to access the resources." notification. */
  predicate Notifies(user: Option<User>)
  {
    user.None?
  }

  /** The notification fires exactly when the guard redirects, and the two
      outcomes exclude each other. */
  lemma NotifiesIffRedirect(user: Option<User>)
    ensures Notifies(user) <==> Guard(user).Redirect?
    ensures Guard(user).Children? <==> !Notifies(user)
  {
  }
}
