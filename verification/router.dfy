/**
 * The navigation guard of src/router.ts: before every navigation the target
 * path is classified, and a privileged administration page is only reached
 * while a session exists; otherwise the navigation is sent to the login page.
 * The route table is constant data. The authentication client and its
 * session are inputs: the client may be missing altogether.
 */
module Router {
  import opened Wrappers

  /** One entry of the route table: its path pattern and its name. */
  datatype Route = Route(path: string, name: string)

  const Routes: seq<Route> := [
    Route("/", "home"),
    Route("/categoria/:slug", "category"),
    Route("/carrinho", "cart"),
    Route("/checkout", "checkout"),
    Route("/como-encomendar", "how-to-order"),
    Route("/termos", "terms"),
    Route("/admin", "admin-login"),
    Route("/admin/recuperar", "admin-forgot"),
    Route("/admin/dashboard", "admin-dashboard"),
    Route("/admin/categorias", "admin-categories"),
    Route("/admin/produtos", "admin-products"),
    Route("/admin/pedidos", "admin-orders"),
    Route("/admin/config", "admin-settings")
  ]

  /** The login page: the redirect target, and public. */
  const LoginPath: string := "/admin"

  /** The password-recovery page, public though it lives under /admin. */
  const RecoveryPath: string := "/admin/recuperar"

  /** Paths starting with this are administration pages. */
  const AdminPrefix: string := "/admin"

  /** A signed-in session; the guard only asks whether there is one. */
  datatype Session = Session(accessToken: string)

  /** The authentication client, reduced to the session `getSession()` reports now. */
  datatype AuthClient = AuthClient(currentSession: Option<Session>)

  /** What the guard returns: nothing (proceed) or a path to go to instead. */
  datatype NavResult = Proceed | Redirect(target: string)

  /** `s.startsWith(prefix)`: a character prefix, blind to path segments. */
  predicate StartsWith(s: string, prefix: string)
  {
    |prefix| <= |s| && s[..|prefix|] == prefix
  }

  /** The two administration pages anyone may open; both lie under the prefix. */
  predicate IsPublicAdminRoute(path: string)
    ensures IsPublicAdminRoute(path) ==> StartsWith(path, AdminPrefix)
  {
    path == LoginPath || path == RecoveryPath
  }

  /**
   * A guarded administration page. The bare prefix is the public login page,
   * so a guarded path is always longer than the prefix.
   */
  predicate IsAdminRoute(path: string)
    ensures IsAdminRoute(path) <==> StartsWith(path, AdminPrefix) && path != LoginPath && path != RecoveryPath
    ensures IsAdminRoute(path) ==> |path| > |AdminPrefix|
  {
    StartsWith(path, AdminPrefix) && !IsPublicAdminRoute(path)
  }

  /** `supabase ? (await supabase.auth.getSession()).data.session : null`. */
  function SessionOf(client: Option<AuthClient>): (s: Option<Session>)
    ensures client.None? ==> s.None?
    ensures s.Some? ==> client.Some? && client.value.currentSession == s
    ensures client.Some? ==> s == client.value.currentSession
  {
    match client
    case Some(c) => c.currentSession
    case None => None
  }

  /**
   * The `beforeEach` guard. The session is looked up only for a guarded
   * administration page; the result is Proceed or a redirect to the login page.
   */
  function BeforeEach(path: string, client: Option<AuthClient>): (r: NavResult)
    ensures r == Proceed || r == Redirect(LoginPath)
    ensures r == Redirect(LoginPath) <==>
      StartsWith(path, AdminPrefix) && path != LoginPath && path != RecoveryPath && SessionOf(client) == None
  {
    if IsAdminRoute(path) then
      if SessionOf(client).None? then Redirect(LoginPath) else Proceed
    else
      Proceed
  }

  /** The login and recovery pages proceed whatever the session state. */
  lemma PublicAdminPagesProceed(client: Option<AuthClient>)
    ensures BeforeEach(LoginPath, client) == Proceed
    ensures BeforeEach(RecoveryPath, client) == Proceed
  {
  }

  /**
   * A path outside the /admin prefix proceeds, and the session plays no part:
   * any two clients give the same decision.
   */
  lemma OutsideAdminIgnoresSession(path: string, c1: Option<AuthClient>, c2: Option<AuthClient>)
    requires !StartsWith(path, AdminPrefix)
    ensures BeforeEach(path, c1) == Proceed
    ensures BeforeEach(path, c1) == BeforeEach(path, c2)
  {
  }

  /**
   * A guarded page without a session, including when there is no client at
   * all, is redirected to the login page.
   */
  lemma GuardedWithoutSessionRedirects(path: string, client: Option<AuthClient>)
    requires IsAdminRoute(path)
    requires client == None || client.value.currentSession == None
    ensures BeforeEach(path, client) == Redirect(LoginPath)
  {
  }

  /** A guarded page with a session proceeds unchanged. */
  lemma GuardedWithSessionProceeds(path: string, s: Session)
    requires IsAdminRoute(path)
    ensures BeforeEach(path, Some(AuthClient(Some(s)))) == Proceed
  {
  }

  /**
   * Following a redirect never redirects again, whatever the session is by
   * then: the target is the public login page.
   */
  lemma NoRedirectLoop(path: string, c1: Option<AuthClient>, c2: Option<AuthClient>)
    ensures BeforeEach(path, c1).Redirect? ==> BeforeEach(BeforeEach(path, c1).target, c2) == Proceed
  {
  }

  /**
   * The prefix test is by characters, not by segments: a page such as
   * /administrator, which is not in the table, is guarded too.
   */
  lemma PrefixIsNotSegmentAware()
    ensures IsAdminRoute("/administrator")
    ensures BeforeEach("/administrator", None) == Redirect(LoginPath)
  {
  }

  /**
   * Of the table's thirteen routes, the first eight (the shop pages, the login
   * and the recovery page) are open, and the five administration pages after
   * them are guarded. The login path is the table's `admin-login` route.
   */
  lemma {:induction false} RouteTableClassification()
    ensures |Routes| == 13
    ensures Routes[6] == Route(LoginPath, "admin-login")
    ensures forall i | 0 <= i < |Routes| :: IsAdminRoute(Routes[i].path) <==> 8 <= i
  {
    forall i | 0 <= i < |Routes| ensures IsAdminRoute(Routes[i].path) <==> 8 <= i {
      var p := Routes[i].path;
      if i == 0 {
        assert p == "/";
      } else if i < 6 {
        assert p[1] != AdminPrefix[1] by {
          if i == 1 { assert p == "/categoria/:slug"; }
          else if i == 2 { assert p == "/carrinho"; }
          else if i == 3 { assert p == "/checkout"; }
          else if i == 4 { assert p == "/como-encomendar"; }
          else { assert p == "/termos"; }
        }
      } else if i < 8 {
        assert IsPublicAdminRoute(p);
      } else {
        assert p[..6] == AdminPrefix && p != LoginPath && p != RecoveryPath by {
          if i == 8 { assert p == "/admin/dashboard"; }
          else if i == 9 { assert p == "/admin/categorias"; }
          else if i == 10 { assert p == "/admin/produtos"; }
          else if i == 11 { assert p == "/admin/pedidos"; }
          else { assert p == "/admin/config"; }
        }
      }
    }
  }
}
