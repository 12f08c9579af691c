/** The router of src/App.js: which routes exist for a given `token` and
    `role`, where the catch-all route redirects, and the start-up
    rehydration of the store from localStorage. */
module App {
  import opened Common
  import opened AuthStore

  datatype Page =
    | AuthPage | AssistantAuthPage | DashboardPage
    | StudentsPage | AttendancePage | PaymentsPage | ProfilePage

  datatype Resolution = Render(page: Page) | Redirect(target: string)

  const StaffPaths: set<string> := {"/students", "/attendance/report", "/payments", "/assistant/profile"}

  /** `token && role === 'admin'` */
  predicate IsAdmin(token: Option<string>, role: Option<string>) {
    Truthy(token) && role == Some("admin")
  }

  /** `token && (role === 'assistant' || role === 'admin')` */
  predicate IsStaff(token: Option<string>, role: Option<string>) {
    Truthy(token) && (role == Some("assistant") || role == Some("admin"))
  }

  /** The declared routes (lines 43-69): the two public ones always, the
      dashboard for an admin, the four staff pages for an assistant or an
      admin. */
  function Routes(token: Option<string>, role: Option<string>): (r: map<string, Page>)
    ensures "/" in r && "/assistants" in r
    ensures "/dashboard" in r <==> IsAdmin(token, role)
    ensures forall p :: p in StaffPaths ==> (p in r <==> IsStaff(token, role))
    ensures forall p :: p in r ==> p in StaffPaths || p in {"/", "/assistants", "/dashboard"}
  {
    var public := map["/" := AuthPage, "/assistants" := AssistantAuthPage];
    var admin := if IsAdmin(token, role) then map["/dashboard" := DashboardPage] else map[];
    var staff :=
      if IsStaff(token, role) then
        map["/students" := StudentsPage, "/attendance/report" := AttendancePage,
            "/payments" := PaymentsPage, "/assistant/profile" := ProfilePage]
      else map[];
    public + admin + staff
  }

  /** The catch-all route (lines 72-85). */
  function Fallback(token: Option<string>, role: Option<string>): (target: string)
    ensures !Truthy(token) ==> target == "/"
    ensures IsAdmin(token, role) ==> target == "/dashboard"
    ensures Truthy(token) && role != Some("admin") ==> target == "/students"
  {
    if Truthy(token) then (if role == Some("admin") then "/dashboard" else "/students") else "/"
  }

  function Resolve(path: string, token: Option<string>, role: Option<string>): Resolution {
    var routes := Routes(token, role);
    if path in routes then Render(routes[path]) else Redirect(Fallback(token, role))
  }

  /** For the two roles the screens ever store, the catch-all redirects to
      a route that exists, so resolution ends after one redirect; for a
      signed-in user with any other role it redirects to "/students", which
      does not exist for that role. */
  lemma FallbackTargetExists(path: string, token: Option<string>, role: Option<string>)
    ensures (!Truthy(token) || IsStaff(token, role)) ==>
              Resolve(path, token, role).Redirect? ==> Resolve(Resolve(path, token, role).target, token, role).Render?
    ensures Truthy(token) && !IsStaff(token, role) ==>
              Resolve("/students", token, role) == Redirect("/students")
  {
    assert "/students" in StaffPaths;
  }

  /** The start-up effect (lines 30-34): `setAuth` runs only when both keys
      are stored and non-empty, with exactly the stored values. */
  method Rehydrate(store: Store)
    modifies store
    ensures var t := if TokenKey in old(store.storage) then Some(old(store.storage)[TokenKey]) else None;
            var r := if RoleKey in old(store.storage) then Some(old(store.storage)[RoleKey]) else None;
            if Truthy(t) && Truthy(r) then
              store.token == t && store.role == r && store.storage == old(store.storage)
            else
              store.token == old(store.token) && store.role == old(store.role) && store.storage == old(store.storage)
  {
    var t := if TokenKey in store.storage then Some(store.storage[TokenKey]) else None;
    var r := if RoleKey in store.storage then Some(store.storage[RoleKey]) else None;
    if Truthy(t) && Truthy(r) {
      store.SetAuth(t.value, r.value);
    }
  }
}
