/**
 * The `protectedRoute` middleware: the session gate in front of protected
 * routes. It reads `req.session.isAuth` and either hands the request on
 * (`next()`) or redirects it to `/`.
 */
module Auth {
  import opened Js

  /** `req.session` as the session middleware leaves it; only `isAuth` is read. */
  datatype Session = Session(isAuth: Value)

  /** What the gate does with a request. */
  datatype Decision = Proceed | Redirect(location: string)

  /** The outcome of evaluating a property read that may throw. */
  datatype Read = Returned(v: Value) | Threw

  /** `req.session.isAuth`: a TypeError when there is no session object. */
  function ReadIsAuth(session: Option<Session>): (r: Read)
    ensures r.Threw? <==> session.None?
    ensures r.Returned? ==> r.v == session.value.isAuth
  {
    match session
    case None => Threw
    case Some(s) => Returned(s.isAuth)
  }

  /**
   * The gate. A truthy `isAuth` proceeds; a falsy or missing one redirects to
   * `/`; a fault while reading the session is caught and redirects to `/` too.
   * Being a total function, it never throws and has exactly one outcome.
   */
  function ProtectedRoute(session: Option<Session>): (d: Decision)
    ensures d == Proceed <==> session.Some? && Truthy(session.value.isAuth)
    ensures d != Proceed ==> d == Redirect("/")
  {
    match ReadIsAuth(session)
    case Threw => Redirect("/")
    case Returned(isAuth) => if Truthy(isAuth) then Proceed else Redirect("/")
  }
}
