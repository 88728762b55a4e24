/** How the three components meet: the seeder writes each user's roles to
    the token metadata and to the `users` row, the client reads the token
    first, and the server reads the row. For every seeded user whose
    creation and roles update succeeded the two readers end up with the
    same roles array; when the update fails they can disagree. */
module Consistency {
  import opened Wrappers
  import opened JsValues
  import AuthContext
  import AuthMiddleware
  import SeedUsers

  /** The provider's user object that a `createUser` call produces under
      the id the provider returned: `app_metadata.roles` holds the array
      the call passed. */
  function ProviderUser(id: string, create: SeedUsers.SeedCall): (u: AuthContext.User)
    requires create.CreateUser?
    ensures u.id == id && u.email == create.email
    ensures Prop(u.appMetadata, "roles") == StrArray(create.appRoles)
  {
    AuthContext.User(id, create.email, Obj(map["roles" := StrArray(create.appRoles)]))
  }

  /** The `users` row after a roles update: `other` stands for the columns
      the database trigger filled in, the update call sets `roles` on the
      row whose `id` it names. */
  function Row(update: SeedUsers.SeedCall, other: Object): (row: Object)
    requires update.UpdateRoles?
    ensures "id" in row && row["id"] == Str(update.userId)
    ensures "roles" in row && row["roles"] == StrArray(update.roles)
  {
    other["id" := Str(update.userId)]["roles" := StrArray(update.roles)]
  }

  /** For every seeded user that the provider created and whose roles
      update succeeded, the client takes the roles from the token without
      fetching, the server takes them from the row the update wrote, and
      both hold the seeded array with the primary role first. */
  lemma SeededRolesAgree(
    i: int, o: SeedUsers.UserOutcome, token: string, s: AuthContext.AuthState, claims: Object, other: Object)
    requires 0 <= i < |SeedUsers.UsersToCreate|
    requires o.create.CreateOk? && o.update.UpdateOk?
    requires token != ""
    ensures
      var u := SeedUsers.UsersToCreate[i];
      var calls := SeedUsers.UserCalls(u, o);
      var sess := AuthContext.ProviderSession(Some(ProviderUser(o.create.userId, calls[0])), token);
      var t := AuthContext.Step(s, AuthContext.SessionLoaded(Some(sess)));
      var d := AuthMiddleware.Authorize(
        Some("Bearer " + token), AuthMiddleware.Verified(claims), AuthMiddleware.Rows([Row(calls[1], other)]));
      && SeedUsers.UserReport(o).RolesAssigned?
      && t.effects == []
      && t.state.roles == StrArray(u.roles)
      && d.response.Next?
      && d.response.user["roles"] == StrArray(u.roles)
      && d.response.user["id"] == Str(o.create.userId)
      && t.state.roles.items[0] == Str(u.roles[0])
  {
    SeedUsers.TableWellFormed();
    var u := SeedUsers.UsersToCreate[i];
    var calls := SeedUsers.UserCalls(u, o);
    var header := "Bearer " + token;
    assert header[..7] == "Bearer ";
    assert AuthContext.TokenRoles(ProviderUser(o.create.userId, calls[0])) == StrArray(u.roles);
  }

  /** When the roles update does not go through, the row keeps what the
      trigger wrote; if its `roles` column is falsy (NULL, say) the server
      reports an empty array while the client still reads the seeded
      roles from the token. */
  lemma UnassignedRowDiverges(
    i: int, o: SeedUsers.UserOutcome, token: string, s: AuthContext.AuthState, claims: Object, other: Object)
    requires 0 <= i < |SeedUsers.UsersToCreate|
    requires o.create.CreateOk? && !o.update.UpdateOk?
    requires token != "" && !Truthy(Get(other, "roles"))
    ensures
      var u := SeedUsers.UsersToCreate[i];
      var calls := SeedUsers.UserCalls(u, o);
      var sess := AuthContext.ProviderSession(Some(ProviderUser(o.create.userId, calls[0])), token);
      var t := AuthContext.Step(s, AuthContext.SessionLoaded(Some(sess)));
      var d := AuthMiddleware.Authorize(
        Some("Bearer " + token), AuthMiddleware.Verified(claims),
        AuthMiddleware.Rows([other["id" := Str(o.create.userId)]]));
      && !SeedUsers.UserReport(o).RolesAssigned?
      && t.state.roles == StrArray(u.roles)
      && d.response.Next?
      && d.response.user["roles"] == Arr([])
      && d.response.user["roles"] != t.state.roles
  {
    SeedUsers.TableWellFormed();
    var u := SeedUsers.UsersToCreate[i];
    var calls := SeedUsers.UserCalls(u, o);
    var header := "Bearer " + token;
    assert header[..7] == "Bearer ";
    assert AuthContext.TokenRoles(ProviderUser(o.create.userId, calls[0])) == StrArray(u.roles);
    assert |StrArray(u.roles).items| > 0;
  }

  /** When the seeder creates a user, the array it puts into the token
      metadata and the array it writes to the row are that user's roles from
      the table. */
  lemma SeederWritesTableRoles(i: int, o: SeedUsers.UserOutcome)
    requires 0 <= i < |SeedUsers.UsersToCreate|
    requires o.create.CreateOk?
    ensures
      var calls := SeedUsers.UserCalls(SeedUsers.UsersToCreate[i], o);
      && calls[0].appRoles == SeedUsers.UsersToCreate[i].roles
      && calls[1].roles == SeedUsers.UsersToCreate[i].roles
      && |calls[1].roles| > 0
  {
    SeedUsers.TableWellFormed();
  }
}
