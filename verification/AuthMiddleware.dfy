/** The server's request gate (`authMiddleware`): from the `Authorization`
    header, the outcome of JWT verification and the outcome of the `users`
    lookup, it decides between the two 401 answers and handing the request on
    with `req.user` attached. Verification and the query are oracles whose
    outcomes are parameters; `calls` records which of them the gate asked,
    and with what. */
module AuthMiddleware {
  import opened Wrappers
  import opened JsValues
  import opened JsStrings

  const BearerPrefix := "Bearer "
  const MissingTokenMessage := "Authentication token missing"
  const InvalidTokenMessage := "Invalid or expired token"
  const UserQuery := "SELECT * FROM users WHERE id = $1"

  /** `jwt.verify`: the decoded claims, or an exception (bad signature,
      expired, malformed). */
  datatype VerifyOutcome = Verified(claims: Object) | VerifyFailed(reason: string)

  /** `db.query`: the result rows, or an exception. */
  datatype DbOutcome = Rows(rows: seq<Object>) | DbThrew(reason: string)

  datatype OracleCall = VerifyCall(token: string) | QueryCall(sql: string, param: Value)

  /** `res.status(status).json({message})`, or `next()` with `req.user`. */
  datatype Response = Unauthorized(status: int, message: string) | Next(user: Object)

  datatype Decision = Decision(response: Response, calls: seq<OracleCall>)

  /** The token the header carries: the header minus its first seven
      characters when it is non-empty and starts with the exact,
      case-sensitive `"Bearer "`. */
  function ExtractToken(header: Option<string>): (token: Option<string>)
    ensures token.Some? <==> header.Some? && StartsWith(header.value, BearerPrefix)
    ensures token.Some? ==> header.value == BearerPrefix + token.value
  {
    if header.Some? && header.value != "" && StartsWith(header.value, BearerPrefix) then
      Some(Slice(header.value, 7))
    else
      None
  }

  /** `{ ...decoded, id: decoded.sub }`: the claims, with `id` set to the
      subject. */
  function TokenUser(claims: Object): (u: Object)
    ensures u.Keys == claims.Keys + {"id"}
    ensures u["id"] == Get(claims, "sub")
    ensures forall k :: k in claims && k != "id" ==> u[k] == claims[k]
  {
    SpreadPair(claims, map["id" := Get(claims, "sub")]);
    Spread([claims, map["id" := Get(claims, "sub")]])
  }

  /** `{ ...decoded, id: decoded.sub, ...user, roles: user.roles || [] }`. */
  function RowUser(claims: Object, row: Object): (u: Object)
    ensures u.Keys == claims.Keys + row.Keys + {"id", "roles"}
    ensures u["roles"] == (if Truthy(Get(row, "roles")) then row["roles"] else Arr([]))
    ensures forall k :: k in row && k != "roles" ==> u[k] == row[k]
    ensures "id" !in row ==> u["id"] == Get(claims, "sub")
    ensures forall k :: k in claims && k !in row && k != "id" && k != "roles" ==> u[k] == claims[k]
  {
    var idLayer := map["id" := Get(claims, "sub")];
    var rolesLayer := map["roles" := Or(Get(row, "roles"), Arr([]))];
    SpreadFour(claims, idLayer, row, rolesLayer);
    RowMerge(claims, idLayer, row, rolesLayer);
    Spread([claims, idLayer, row, rolesLayer])
  }

  /** The map algebra behind `RowUser`. */
  lemma RowMerge(claims: Object, idLayer: Object, row: Object, rolesLayer: Object)
    requires idLayer == map["id" := Get(claims, "sub")]
    requires rolesLayer == map["roles" := Or(Get(row, "roles"), Arr([]))]
    ensures
      var u := claims + idLayer + row + rolesLayer;
      && u.Keys == claims.Keys + row.Keys + {"id", "roles"}
      && u["roles"] == (if Truthy(Get(row, "roles")) then row["roles"] else Arr([]))
      && (forall k :: k in row && k != "roles" ==> u[k] == row[k])
      && ("id" !in row ==> u["id"] == Get(claims, "sub"))
      && (forall k :: k in claims && k !in row && k != "id" && k != "roles" ==> u[k] == claims[k])
  {
  }

  /** The two rejections. */
  const MissingToken := Unauthorized(401, MissingTokenMessage)
  const InvalidToken := Unauthorized(401, InvalidTokenMessage)

  /** The header carries no token: absent, not starting with the exact
      prefix, or the prefix alone. */
  predicate NoBearerToken(header: Option<string>) {
    header.None? || !StartsWith(header.value, BearerPrefix) || |header.value| == |BearerPrefix|
  }

  function Authorize(header: Option<string>, verify: VerifyOutcome, db: DbOutcome): (d: Decision)
    // the missing-token answer: no usable header, and nothing is verified
    ensures d.response == MissingToken <==> NoBearerToken(header)
    ensures d.response == MissingToken ==> d.calls == []
    // otherwise the header minus its first seven characters is verified
    ensures !NoBearerToken(header) ==> |d.calls| >= 1 && d.calls[0] == VerifyCall(header.value[7..])
    // a failed verification is the invalid-token answer, with no query
    ensures d.response == InvalidToken <==> !NoBearerToken(header) && verify.VerifyFailed?
    ensures d.response == InvalidToken ==> |d.calls| == 1
    // a verified token always proceeds, after one lookup by subject
    ensures d.response.Next? <==> !NoBearerToken(header) && verify.Verified?
    ensures d.response.Next? ==> d.calls == [VerifyCall(header.value[7..]), QueryCall(UserQuery, Get(verify.claims, "sub"))]
    ensures d.response.Next? && db.Rows? && |db.rows| > 0 ==> d.response.user == RowUser(verify.claims, db.rows[0])
    ensures d.response.Next? && (db.DbThrew? || |db.rows| == 0) ==> d.response.user == TokenUser(verify.claims)
  {
    var token := ExtractToken(header);
    if token.None? || token.value == "" then
      Decision(MissingToken, [])
    else
      match verify
      case VerifyFailed(_) =>
        Decision(InvalidToken, [VerifyCall(token.value)])
      case Verified(claims) =>
        var calls := [VerifyCall(token.value), QueryCall(UserQuery, Get(claims, "sub"))];
        match db
        case Rows(rows) =>
          if |rows| > 0 then Decision(Next(RowUser(claims, rows[0])), calls)
          else Decision(Next(TokenUser(claims)), calls)
        case DbThrew(_) =>
          Decision(Next(TokenUser(claims)), calls)
  }

  /** Every request ends in one of the two 401 answers or in `next()`. */
  lemma ExactlyOneOutcome(header: Option<string>, verify: VerifyOutcome, db: DbOutcome)
    ensures
      var r := Authorize(header, verify, db).response;
      r == MissingToken || r == InvalidToken || r.Next?
  {
  }

  /** Once the token verifies, no database outcome turns the request away. */
  lemma VerifiedAlwaysProceeds(header: Option<string>, claims: Object, db1: DbOutcome, db2: DbOutcome)
    requires Authorize(header, Verified(claims), db1).response.Next?
    ensures Authorize(header, Verified(claims), db2).response.Next?
    ensures Authorize(header, Verified(claims), db1).calls == Authorize(header, Verified(claims), db2).calls
  {
  }

  /** `"Bearer "` with nothing after it yields an empty token, which counts
      as missing. */
  lemma EmptyBearerIsMissing(verify: VerifyOutcome, db: DbOutcome)
    ensures Authorize(Some("Bearer "), verify, db) == Decision(MissingToken, [])
  {
  }

  /** The scheme test is a literal, case-sensitive prefix: `bearer <t>` is
      turned away as missing for every `t`, although section 2.1 of RFC 6750
      (through the case-insensitive auth-scheme of RFC 7235) admits it. */
  lemma LowerCaseSchemeIsMissing(t: string, verify: VerifyOutcome, db: DbOutcome)
    ensures Authorize(Some("bearer " + t), verify, db) == Decision(MissingToken, [])
  {
    assert ("bearer " + t)[0] == 'b';
  }

  /** Without a row, or when the lookup throws, `req.user` is the claims
      with `id` set to the subject, whatever else the row would have said. */
  lemma NoRowMeansTokenUser(header: Option<string>, claims: Object, reason: string)
    requires Authorize(header, Verified(claims), Rows([])).response.Next?
    ensures Authorize(header, Verified(claims), Rows([])) == Authorize(header, Verified(claims), DbThrew(reason))
    ensures Authorize(header, Verified(claims), Rows([])).response.user == claims["id" := Get(claims, "sub")]
  {
    var u := TokenUser(claims);
    assert u == claims["id" := Get(claims, "sub")];
  }
}
