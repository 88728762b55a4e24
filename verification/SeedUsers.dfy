/** The bulk user seeder: how it derives the project URL from the
    environment, the constant table of users it creates, and its per-user
    loop, which writes each user's roles to the token metadata and to the
    `users` table and carries on past any failure. The remote calls are not
    modelled; their outcomes are parameters. */
module SeedUsers {
  import opened Wrappers
  import opened JsStrings

  const FallbackUrl := "https://honvtakaaloovmammwva.supabase.co"

  /** `parts[i]` inside a template literal: a missing element renders as
      the text `undefined`. */
  function FieldOrUndefined(parts: seq<string>, i: nat): string {
    if i < |parts| then parts[i] else "undefined"
  }

  /** The project URL: from the host of `DATABASE_URL` when that contains
      `@` (the second dot-separated label of the host between the first and
      the second `@`, cut at its first `:`), else `VITE_SUPABASE_URL` when it
      is non-empty, else the fixed fallback. */
  function SupabaseUrl(databaseUrl: Option<string>, viteUrl: Option<string>): (url: string)
    // with an `@`: a supabase.co address whose project name is one dot-free label
    ensures databaseUrl.Some? && '@' in databaseUrl.value ==>
              && |url| >= |"https://"| + |".supabase.co"|
              && url[..8] == "https://"
              && url[|url| - 12..] == ".supabase.co"
              && '.' !in url[8..|url| - 12]
    // without one: the Vite variable when non-empty, else the fallback
    ensures !(databaseUrl.Some? && '@' in databaseUrl.value) ==>
              url == (if viteUrl.Some? && viteUrl.value != "" then viteUrl.value else FallbackUrl)
  {
    if databaseUrl.Some? && '@' in databaseUrl.value then
      ProjectUrl(ProjectRef(databaseUrl.value))
    else if viteUrl.Some? && viteUrl.value != "" then
      viteUrl.value
    else
      FallbackUrl
  }

  /** The project name read from a `DATABASE_URL` with an `@`: the second
      dot-separated label of the host, or `undefined` when the host has
      no dot. Either way it contains no dot. */
  function ProjectRef(databaseUrl: string): (project: string)
    requires '@' in databaseUrl
    ensures '.' !in project
  {
    SplitSeveralIffContains(databaseUrl, '@');
    var host := Split(Split(databaseUrl, '@')[1], ':')[0];
    SplitPartsFree(host, '.');
    FieldOrUndefined(Split(host, '.'), 1)
  }

  /** `https://<project>.supabase.co`: the project name sits between the
      scheme and the domain. */
  function ProjectUrl(project: string): (url: string)
    ensures |url| == |"https://"| + |project| + |".supabase.co"|
    ensures url[..8] == "https://" && url[|url| - 12..] == ".supabase.co"
    ensures url[8..|url| - 12] == project
  {
    "https://" + project + ".supabase.co"
  }

  /** The first piece of a split only looks as far as the first separator. */
  lemma {:induction false} SplitHeadExtends(x: string, sep: char, y: string)
    requires sep !in x
    ensures Split(x + y, sep)[0] == x + Split(y, sep)[0]
    decreases |x|
  {
    if |x| > 0 {
      SplitHeadExtends(x[1..], sep, y);
      var s := x + y;
      assert s[0] == x[0] && s[1..] == x[1..] + y;
      var rest := Split(s[1..], sep);
      assert Split(s, sep)[0] == [x[0]] + rest[0];
      assert [x[0]] + x[1..] == x;
    } else {
      assert x + y == y;
    }
  }

  /** The host the derivation looks at: the text after the first `@`, cut
      at its first `:`. */
  lemma HostAfterAt(url: string, userinfo: string, host: string, rest: string)
    requires url == userinfo + "@" + host + ":" + rest
    requires '@' !in userinfo && '@' !in host && ':' !in host
    ensures '@' in url
    ensures |Split(url, '@')| >= 2 && Split(Split(url, '@')[1], ':')[0] == host
  {
    assert url == userinfo + ['@'] + (host + ":" + rest);
    assert '@' in url by { assert url[|userinfo|] == '@'; }
    SplitAtFirst(userinfo, '@', host + ":" + rest);
    assert '@' !in host + ":";
    SplitHeadExtends(host + ":", '@', rest);
    assert host + ":" + rest == (host + ":") + rest;
    var r0 := Split(rest, '@')[0];
    assert Split(url, '@')[1] == host + [':'] + r0;
    SplitAtFirst(host, ':', r0);
  }

  /** A URL of the form `user@lead.ref.domain:rest` names project `ref`,
      whatever `rest` holds (further `@` included) and whatever the
      fallbacks say. */
  lemma DatabaseUrlNamesProject(
    url: string, userinfo: string, lead: string, ref: string, domain: string, rest: string, viteUrl: Option<string>)
    requires url == userinfo + "@" + lead + "." + ref + "." + domain + ":" + rest
    requires '@' !in userinfo
    requires '@' !in lead && '@' !in ref && '@' !in domain
    requires ':' !in lead && ':' !in ref && ':' !in domain
    requires '.' !in lead && '.' !in ref
    ensures SupabaseUrl(Some(url), viteUrl) == ProjectUrl(ref)
  {
    var host := lead + "." + ref + "." + domain;
    assert url == userinfo + "@" + host + ":" + rest;
    HostAfterAt(url, userinfo, host, rest);
    assert host == lead + ['.'] + (ref + "." + domain);
    SplitAtFirst(lead, '.', ref + "." + domain);
    assert ref + "." + domain == ref + ['.'] + domain;
    SplitAtFirst(ref, '.', domain);
    assert Split(host, '.')[1] == ref;
  }

  /** A host without a dot has no second label, and the project name
      read from it is `undefined`. */
  lemma UndottedHostRef(url: string, userinfo: string, host: string, rest: string)
    requires url == userinfo + "@" + host + ":" + rest
    requires '@' !in userinfo && '@' !in host && ':' !in host && '.' !in host
    ensures '@' in url && ProjectRef(url) == "undefined"
  {
    HostAfterAt(url, userinfo, host, rest);
    SplitWithoutSep(host, '.');
  }

  /** So such a URL names the project `undefined`
      (`pg://u:p@localhost:5432/db` gives `https://undefined.supabase.co`);
      the fallbacks are not consulted. */
  lemma UndottedHostNamesUndefined(
    url: string, userinfo: string, host: string, rest: string, viteUrl: Option<string>)
    requires url == userinfo + "@" + host + ":" + rest
    requires '@' !in userinfo && '@' !in host && ':' !in host && '.' !in host
    ensures SupabaseUrl(Some(url), viteUrl) == ProjectUrl("undefined")
  {
    UndottedHostRef(url, userinfo, host, rest);
  }

  /** Without an `@` in `DATABASE_URL`: `VITE_SUPABASE_URL` when non-empty,
      the fallback otherwise. */
  lemma UrlWithoutAt(databaseUrl: Option<string>, viteUrl: Option<string>)
    requires databaseUrl.None? || '@' !in databaseUrl.value
    ensures viteUrl.Some? && viteUrl.value != "" ==> SupabaseUrl(databaseUrl, viteUrl) == viteUrl.value
    ensures viteUrl.None? || viteUrl.value == "" ==> SupabaseUrl(databaseUrl, viteUrl) == FallbackUrl
  {
  }

  // ------------------------------------------------------------ the table

  datatype SeedUser = SeedUser(email: string, password: string, name: string, roles: seq<string>)

  /** The users the seeder creates; index 0 of `roles` is the primary role. */
  const UsersToCreate: seq<SeedUser> := [
    SeedUser("student1@example.com", "password123", "John Student", ["STUDENT"]),
    SeedUser("student2@example.com", "password123", "Jane Student", ["STUDENT"]),
    SeedUser("staff1@example.com", "password123", "Prof. Smith", ["STAFF"]),
    SeedUser("hod1@example.com", "password123", "Dr. HOD", ["HOD", "STAFF"]),
    SeedUser("principal@example.com", "password123", "Dr. Principal", ["PRINCIPAL", "STAFF"]),
    SeedUser("admin@example.com", "password123", "System Admin", ["SUPER_ADMIN"])
  ]

  /** The role names the table uses. */
  const KnownRoles := {"STUDENT", "STAFF", "HOD", "PRINCIPAL", "SUPER_ADMIN"}

  /** Every seeded user has a primary role, the roles come from the known
      set, and the e-mail addresses are distinct. */
  lemma TableWellFormed()
    ensures |UsersToCreate| == 6
    ensures forall i :: 0 <= i < |UsersToCreate| ==> |UsersToCreate[i].roles| > 0
    ensures forall i, j :: 0 <= i < |UsersToCreate| && 0 <= j < |UsersToCreate[i].roles| ==> UsersToCreate[i].roles[j] in KnownRoles
    ensures forall i, j :: 0 <= i < j < |UsersToCreate| ==> UsersToCreate[i].email != UsersToCreate[j].email
    ensures [UsersToCreate[0].roles[0], UsersToCreate[1].roles[0], UsersToCreate[2].roles[0],
             UsersToCreate[3].roles[0], UsersToCreate[4].roles[0], UsersToCreate[5].roles[0]]
            == ["STUDENT", "STUDENT", "STAFF", "HOD", "PRINCIPAL", "SUPER_ADMIN"]
  {
  }

  // ------------------------------------------------------------- the loop

  /** `admin.createUser`: the new user's id, a returned error, or an
      exception (including a failure to read the id back). */
  datatype CreateOutcome = CreateOk(userId: string) | CreateError(message: string) | CreateThrew

  /** The roles update on `users`. */
  datatype UpdateOutcome = UpdateOk | UpdateError(message: string) | UpdateThrew

  /** What the remote calls for one user do; `update` is only consulted
      when the user was created. */
  datatype UserOutcome = UserOutcome(create: CreateOutcome, update: UpdateOutcome)

  datatype SeedCall =
    | CreateUser(email: string, password: string, emailConfirm: bool, fullName: string, appRoles: seq<string>)
    | UpdateRoles(userId: string, roles: seq<string>)

  /** What the log says about one user. */
  datatype Report = RolesAssigned(userId: string) | AuthFailed(message: string) | RolesFailed(userId: string, message: string) | Crashed

  /** The calls made for one user: always the creation, with the roles in
      `app_metadata`; the roles update with the same array only when the
      creation succeeded. */
  function UserCalls(u: SeedUser, o: UserOutcome): (calls: seq<SeedCall>)
    ensures 1 <= |calls| <= 2
    ensures calls[0] == CreateUser(u.email, u.password, true, u.name, u.roles)
    ensures |calls| == 2 <==> o.create.CreateOk?
    ensures |calls| == 2 ==> calls[1] == UpdateRoles(o.create.userId, u.roles)
  {
    var create := CreateUser(u.email, u.password, true, u.name, u.roles);
    match o.create
    case CreateOk(id) => [create, UpdateRoles(id, u.roles)]
    case CreateError(_) => [create]
    case CreateThrew => [create]
  }

  function UserReport(o: UserOutcome): (r: Report)
    ensures r.RolesAssigned? <==> o.create.CreateOk? && o.update.UpdateOk?
    ensures r.AuthFailed? <==> o.create.CreateError?
    ensures r.RolesFailed? <==> o.create.CreateOk? && o.update.UpdateError?
    ensures r.Crashed? <==> o.create.CreateThrew? || (o.create.CreateOk? && o.update.UpdateThrew?)
    ensures r.RolesAssigned? || r.RolesFailed? ==> r.userId == o.create.userId
  {
    match o.create
    case CreateError(message) => AuthFailed(message)
    case CreateThrew => Crashed
    case CreateOk(id) =>
      match o.update
      case UpdateOk => RolesAssigned(id)
      case UpdateError(message) => RolesFailed(id, message)
      case UpdateThrew => Crashed
  }

  /** The calls of the whole loop, user after user. */
  function AllCalls(users: seq<SeedUser>, outcomes: seq<UserOutcome>): (calls: seq<SeedCall>)
    requires |users| == |outcomes|
    ensures |users| <= |calls| <= 2 * |users|
    ensures |calls| > 0 ==> calls[0] == CreateCall(users[0])
    decreases |users|
  {
    if |users| == 0 then []
    else
      var n := |users| - 1;
      AllCalls(users[..n], outcomes[..n]) + UserCalls(users[n], outcomes[n])
  }

  /** The loop of `seed`: every user is tried in order; a failure for one
      user, returned or thrown, ends only that user's turn. */
  method SeedLoop(users: seq<SeedUser>, outcomes: seq<UserOutcome>) returns (calls: seq<SeedCall>, reports: seq<Report>)
    requires |users| == |outcomes|
    ensures calls == AllCalls(users, outcomes)
    ensures |reports| == |users|
    ensures forall i :: 0 <= i < |users| ==> reports[i] == UserReport(outcomes[i])
  {
    calls := [];
    reports := [];
    var i := 0;
    while i < |users|
      invariant 0 <= i <= |users|
      invariant calls == AllCalls(users[..i], outcomes[..i])
      invariant |reports| == i
      invariant forall j :: 0 <= j < i ==> reports[j] == UserReport(outcomes[j])
    {
      assert users[..i + 1][..i] == users[..i];
      assert outcomes[..i + 1][..i] == outcomes[..i];
      calls := calls + UserCalls(users[i], outcomes[i]);
      reports := reports + [UserReport(outcomes[i])];
      i := i + 1;
    }
    assert users[..i] == users;
    assert outcomes[..i] == outcomes;
  }

  /** The creation calls, in order. */
  function Creations(calls: seq<SeedCall>): seq<SeedCall>
    decreases |calls|
  {
    if |calls| == 0 then []
    else (if calls[0].CreateUser? then [calls[0]] else []) + Creations(calls[1..])
  }

  lemma {:induction false} CreationsAppend(a: seq<SeedCall>, b: seq<SeedCall>)
    ensures Creations(a + b) == Creations(a) + Creations(b)
    decreases |a|
  {
    if |a| == 0 {
      assert a + b == b;
    } else {
      assert (a + b)[0] == a[0];
      assert (a + b)[1..] == a[1..] + b;
      CreationsAppend(a[1..], b);
    }
  }

  /** The creation call for a user: its credentials, e-mail confirmed,
      its name as `full_name`, its roles in `app_metadata`. */
  function CreateCall(u: SeedUser): SeedCall {
    CreateUser(u.email, u.password, true, u.name, u.roles)
  }

  /** One user's calls hold exactly one creation. */
  lemma UserCreations(u: SeedUser, o: UserOutcome)
    ensures Creations(UserCalls(u, o)) == [CreateCall(u)]
  {
    var uc := UserCalls(u, o);
    if |uc| == 2 {
      assert uc[1..][1..] == [];
      assert Creations(uc[1..]) == [];
    } else {
      assert uc[1..] == [];
    }
  }

  /** Every user is attempted exactly once and in table order, with its own
      roles as token metadata, whatever happens to the others. */
  lemma {:induction false} EveryUserAttempted(users: seq<SeedUser>, outcomes: seq<UserOutcome>)
    requires |users| == |outcomes|
    ensures Creations(AllCalls(users, outcomes)) == seq(|users|, i requires 0 <= i < |users| => CreateCall(users[i]))
    decreases |users|
  {
    if |users| > 0 {
      var n := |users| - 1;
      EveryUserAttempted(users[..n], outcomes[..n]);
      var prev := AllCalls(users[..n], outcomes[..n]);
      var uc := UserCalls(users[n], outcomes[n]);
      CreationsAppend(prev, uc);
      UserCreations(users[n], outcomes[n]);
      assert AllCalls(users, outcomes) == prev + uc;
      var want := seq(|users|, i requires 0 <= i < |users| => CreateCall(users[i]));
      var wantPrev := seq(n, i requires 0 <= i < n => CreateCall(users[..n][i]));
      assert Creations(prev + uc) == wantPrev + [CreateCall(users[n])];
      assert want == wantPrev + [CreateCall(users[n])];
    }
  }

  /** Every roles update directly follows a creation and writes the array
      that creation put into the token metadata. */
  predicate UpdatesMirrorCreations(calls: seq<SeedCall>) {
    forall k :: 0 <= k < |calls| && calls[k].UpdateRoles? ==>
      k > 0 && calls[k - 1].CreateUser? && calls[k - 1].appRoles == calls[k].roles
  }

  /** The same roles go to both role sources, for every user and whatever
      the outcomes. */
  lemma {:induction false} UpdateMirrorsCreation(users: seq<SeedUser>, outcomes: seq<UserOutcome>)
    requires |users| == |outcomes|
    ensures UpdatesMirrorCreations(AllCalls(users, outcomes))
    decreases |users|
  {
    if |users| > 0 {
      var n := |users| - 1;
      UpdateMirrorsCreation(users[..n], outcomes[..n]);
      var prev := AllCalls(users[..n], outcomes[..n]);
      var uc := UserCalls(users[n], outcomes[n]);
      var calls := prev + uc;
      forall k | 0 <= k < |calls| && calls[k].UpdateRoles?
        ensures k > 0 && calls[k - 1].CreateUser? && calls[k - 1].appRoles == calls[k].roles
      {
        if k < |prev| {
          assert calls[k] == prev[k];
          assert k > 0;
          assert calls[k - 1] == prev[k - 1];
        } else {
          assert calls[k] == uc[k - |prev|];
          assert k - |prev| == 1;
          assert calls[k - 1] == uc[0];
        }
      }
    }
  }

  /** A user whose creation fails gets no roles update; a created user
      gets exactly one, for the id the creation returned. */
  lemma UpdateOnlyAfterCreation(u: SeedUser, o: UserOutcome)
    ensures o.create.CreateOk? ==> UserCalls(u, o)[1..] == [UpdateRoles(o.create.userId, u.roles)]
    ensures !o.create.CreateOk? ==> forall c :: c in UserCalls(u, o) ==> c.CreateUser?
  {
  }

  // ----------------------------------------------------------- the script

  /** The environment variables the script reads. */
  datatype Env = Env(databaseUrl: Option<string>, viteUrl: Option<string>, serviceKey: Option<string>)

  /** `deleteAllUsers` either returns (also after a listing error) or throws. */
  datatype CleanupOutcome = CleanupDone | CleanupThrew

  /** `createClient(url, key, {auth: {autoRefreshToken, persistSession}})`. */
  datatype ClientConfig = ClientConfig(url: string, key: string, autoRefreshToken: bool, persistSession: bool)

  /** The script exits before creating a client, stops after creating one
      because the clean-up threw, or runs the loop to the end. */
  datatype ScriptRun =
    | Exited(code: int)
    | CleanupAborted(client: ClientConfig)
    | Finished(client: ClientConfig, calls: seq<SeedCall>, reports: seq<Report>)

  method RunScript(env: Env, cleanup: CleanupOutcome, outcomes: seq<UserOutcome>) returns (run: ScriptRun)
    requires |outcomes| == |UsersToCreate|
    ensures run.Exited? <==> env.serviceKey.None? || env.serviceKey.value == ""
    ensures run.Exited? ==> run.code == 1
    ensures !run.Exited? ==> run.client == ClientConfig(SupabaseUrl(env.databaseUrl, env.viteUrl), env.serviceKey.value, false, false)
    ensures run.Finished? <==> !run.Exited? && cleanup.CleanupDone?
    ensures run.Finished? ==> run.calls == AllCalls(UsersToCreate, outcomes) && |run.reports| == |UsersToCreate|
    ensures run.Finished? ==> forall i :: 0 <= i < |UsersToCreate| ==> run.reports[i] == UserReport(outcomes[i])
  {
    var url := SupabaseUrl(env.databaseUrl, env.viteUrl);
    if env.serviceKey.None? || env.serviceKey.value == "" {
      return Exited(1);
    }
    var client := ClientConfig(url, env.serviceKey.value, false, false);
    if cleanup.CleanupThrew? {
      return CleanupAborted(client);
    }
    var calls, reports := SeedLoop(UsersToCreate, outcomes);
    run := Finished(client, calls, reports);
  }
}
