/** The login page: the call to `/auth/login`, the token and role it keeps in
    browser storage, and the dashboard each role is sent to. */
module LoginPage {
  import opened Common
  import opened Models
  import AuthRouter

  /** The paths the application's router declares. */
  const AppRoutes: seq<string> := [
    "/", "/login", "/register", "/landing",
    "/dashboard/patient", "/dashboard/hospital", "/dashboard/clinic", "/dashboard/blood-bank",
    "/upload-prescription", "/tracking"]

  /** The roles the switch in `handleLogin` knows. */
  const KnownRoles: set<string> := {"patient", "donor", "hospital", "clinic", "bloodbank"}

  /** The `switch (role)` of `handleLogin`. */
  function RouteFor(role: string): (path: string)
    ensures role == "patient" || role == "donor" <==> path == "/dashboard/patient"
    ensures role == "hospital" <==> path == "/dashboard/hospital"
    ensures role == "clinic" <==> path == "/dashboard/clinic"
    ensures role == "bloodbank" <==> path == "/dashboard/blood-bank"
    ensures role !in KnownRoles <==> path == "/landing"
  {
    match role
    case "patient" => "/dashboard/patient"
    case "donor" => "/dashboard/patient"
    case "hospital" => "/dashboard/hospital"
    case "clinic" => "/dashboard/clinic"
    case "bloodbank" => "/dashboard/blood-bank"
    case _ => "/landing"
  }

  /** Every role lands on a page the router declares, and only a known role lands on a dashboard. */
  lemma RouteIsDeclared(role: string)
    ensures RouteFor(role) in AppRoutes
    ensures "/dashboard/" <= RouteFor(role) <==> role in KnownRoles
  {
  }

  /** A successful backend login sends the user to the dashboard of the role stored at registration. */
  lemma LoginRoutesByStoredRole(users: seq<User>, req: AuthRouter.LoginRequest, verify: (string, string) -> bool)
    requires AuthRouter.Login(users, req, verify).Ok?
    ensures RouteFor(AuthRouter.Login(users, req, verify).value.role) == RouteFor(FindUser(users, req.smartId).value.role)
  {
  }

  /** The body of a successful login as the page reads it. */
  datatype LoginReply = LoginReply(accessToken: string, role: string)

  const FallbackError := "Login failed. Please check your credentials."

  /** A navigation and the contents of storage when it happened. */
  datatype Visit = Visit(path: string, storage: map<string, string>)

  class LoginForm {
    var storage: map<string, string>
    var loading: bool
    var visits: seq<Visit>

    constructor (storage0: map<string, string>)
      ensures storage == storage0 && !loading && visits == []
    {
      storage := storage0;
      loading := false;
      visits := [];
    }

    method Navigate(path: string)
      modifies this`visits
      ensures visits == old(visits) + [Visit(path, storage)]
    {
      visits := visits + [Visit(path, storage)];
    }

    /** `handleLogin`: on success the token and role are stored and only then the
        page navigates by role; on failure nothing is stored and the toast shows the
        server's detail or the fallback text. `busy` is `loading` during the call. */
    method HandleLogin(response: ApiResult<LoginReply>) returns (toast: string, busy: bool)
      modifies this`storage, this`loading, this`visits
      ensures busy && !loading
      ensures response.Success? ==>
        && storage == old(storage)["token" := response.data.accessToken]["role" := response.data.role]
        && visits == old(visits) + [Visit(RouteFor(response.data.role), storage)]
        && toast == "Welcome back!"
      ensures response.Success? ==>
        && |visits| > 0
        && visits[|visits| - 1].path == RouteFor(response.data.role)
        && visits[|visits| - 1].storage["token"] == response.data.accessToken
        && visits[|visits| - 1].storage["role"] == response.data.role
      ensures response.Failure? ==>
        && storage == old(storage) && visits == old(visits)
        && toast == DetailOr(response.detail, FallbackError)
    {
      loading := true;
      busy := loading;
      match response {
        case Success(reply) =>
          storage := storage["token" := reply.accessToken];
          storage := storage["role" := reply.role];
          toast := "Welcome back!";
          Navigate(RouteFor(reply.role));
        case Failure(detail) =>
          toast := DetailOr(detail, FallbackError);
      }
      loading := false;
    }
  }
}
