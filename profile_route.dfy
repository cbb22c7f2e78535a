/** `/api/user/profile`: GET reads the caller's profile row, PATCH updates a
    whitelisted subset of its columns. The caller is named by the
    `X-Telegram-Init-Data` header. */
module ProfileRoute {

  import opened Values
  import opened InitData
  import opened Store
  import opened Http

  /** Who is calling, as far as the header tells. */
  datatype Caller = MissingInitData | InvalidInitData | Identified(telegramId: int)

  /** The header check shared by GET and PATCH: a missing or empty header,
      else the development shortcut, else the verified user's id. */
  function IdentifyCaller(env: Env, header: Option<string>): (c: Caller)
    ensures c == MissingInitData <==> !Truthy(header)
    ensures Truthy(header) && IsMock(env, header.value) ==> c == Identified(MockTelegramId)
    ensures Truthy(header) && !IsMock(env, header.value) ==>
      (c.Identified? <==> VerifiedUser(env, header.value).Some?) &&
      (c.Identified? ==> c.telegramId == VerifiedUser(env, header.value).value.id)
  {
    if !Truthy(header) then MissingInitData
    else if IsMock(env, header.value) then Identified(MockTelegramId)
    else match VerifiedUser(env, header.value)
      case None => InvalidInitData
      case Some(user) => Identified(user.id)
  }

  /** The response for a caller that could not be identified. */
  function Refusal(c: Caller): (r: Response)
    requires !c.Identified?
    ensures c == MissingInitData ==> r.status == 400
    ensures c == InvalidInitData ==> r.status == 401
  {
    if c == MissingInitData then Response(400, Failure("Missing initData"))
    else Response(401, Failure("Invalid initData"))
  }

  /** GET: 400 without init data, 401 when it does not verify (before any
      store access), 404 when the lookup fails or finds nothing, else 200
      with the caller's row. */
  method GetProfile(db: Database, env: Env, header: Option<string>, fault: bool) returns (resp: Response)
    ensures var c := IdentifyCaller(env, header);
      && (!c.Identified? ==> resp == Refusal(c))
      && (c.Identified? && !env.storeConfigured ==> resp == InternalError)
      && (c.Identified? && env.storeConfigured ==>
            if !fault && c.telegramId in db.profiles
            then resp == Response(200, Profile(db.profiles[c.telegramId]))
            else resp == Response(404, Failure("Profile not found")))
  {
    var caller := IdentifyCaller(env, header);
    if !caller.Identified? {
      return Refusal(caller);
    }
    if !env.storeConfigured {
      return InternalError;
    }
    var row := db.SelectProfile(caller.telegramId, fault);
    if row.None? {
      return Response(404, Failure("Profile not found"));
    }
    resp := Response(200, Profile(row.value));
  }

  /** The columns a client may change. `telegram_id` is not among them. */
  const AllowedFields: seq<string> :=
    ["onboarding_completed", "preferred_time_morning", "preferred_time_evening", "goals", "current_mood"]

  /** The whitelisted part of a client's update. */
  function Whitelisted(updates: Row): (r: Row)
    ensures forall k :: k in r <==> k in updates && k in AllowedFields
    ensures forall k :: k in r ==> r[k] == updates[k]
    ensures TelegramIdColumn !in r
  {
    map k | k in updates && k in AllowedFields :: updates[k]
  }

  /** The loop that builds `filteredUpdates`, one allowed field at a time. */
  method FilterAllowed(updates: Row) returns (filtered: Row)
    ensures filtered == Whitelisted(updates)
  {
    filtered := map[];
    for i := 0 to |AllowedFields|
      invariant forall k :: k in filtered <==> k in updates && k in AllowedFields[..i]
      invariant forall k :: k in filtered ==> filtered[k] == updates[k]
    {
      var key := AllowedFields[i];
      if key in updates {
        filtered := filtered[key := updates[key]];
      }
      assert AllowedFields[..i + 1] == AllowedFields[..i] + [key];
    }
    assert AllowedFields[..|AllowedFields|] == AllowedFields;
  }

  /** What PATCH merges into the row: the whitelisted fields and the update time. */
  function PatchFor(env: Env, updates: Row): (patch: Row)
    ensures TelegramIdColumn !in patch
    ensures patch.Keys == Whitelisted(updates).Keys + {"updated_at"}
  {
    Whitelisted(updates)["updated_at" := Text(env.nowIso)]
  }

  /** PATCH: 400 without init data, 401 when it does not verify, 500 when the
      body is not a JSON object, 400 when it has no allowed field, 500 when
      the update fails or matches no row, else 200 with the updated row. Only
      the caller's row changes, it keeps its `telegram_id`, and no row is
      added or removed. */
  method PatchProfile(db: Database, env: Env, header: Option<string>, body: Option<Row>, fault: bool)
    returns (resp: Response)
    requires db.Valid()
    modifies db`profiles
    ensures db.Valid()
    ensures db.profiles.Keys == old(db.profiles).Keys
    ensures resp.status != 200 ==> db.profiles == old(db.profiles)
    ensures var c := IdentifyCaller(env, header);
      && (!c.Identified? ==> resp == Refusal(c))
      && (c.Identified? && body.None? ==> resp == InternalError)
      && (c.Identified? && body.Some? && |Whitelisted(body.value)| == 0 ==>
            resp == Response(400, Failure("No valid fields to update")))
      && (c.Identified? && body.Some? && |Whitelisted(body.value)| > 0 ==>
            if !env.storeConfigured then resp == InternalError
            else if fault || c.telegramId !in old(db.profiles) then resp == Response(500, Failure("Failed to update profile"))
            else
              var row := old(db.profiles)[c.telegramId] + PatchFor(env, body.value);
              resp == Response(200, Profile(row)) && db.profiles == old(db.profiles)[c.telegramId := row])
  {
    var caller := IdentifyCaller(env, header);
    if !caller.Identified? {
      return Refusal(caller);
    }
    if body.None? {
      return InternalError;
    }
    var filtered := FilterAllowed(body.value);
    if |filtered| == 0 {
      return Response(400, Failure("No valid fields to update"));
    }
    if !env.storeConfigured {
      return InternalError;
    }
    var row := db.UpdateProfile(caller.telegramId, filtered["updated_at" := Text(env.nowIso)], fault);
    if row.None? {
      return Response(500, Failure("Failed to update profile"));
    }
    resp := Response(200, Profile(row.value));
  }

  // ---------------------------------------------------------------- properties

  /** Filtering twice is filtering once, and a body made only of allowed
      fields passes through whole. */
  lemma WhitelistIdempotent(updates: Row)
    ensures Whitelisted(Whitelisted(updates)) == Whitelisted(updates)
    ensures (forall k :: k in updates ==> k in AllowedFields) ==> Whitelisted(updates) == updates
  {
  }

  /** A PATCH cannot change any column outside the whitelist except
      `updated_at`: `telegram_id`, `credits`, `referral_source` and the
      Telegram fields keep their stored values whatever the body holds. */
  lemma PatchKeepsProtectedColumns(env: Env, row: Row, updates: Row)
    ensures forall k :: k in row && k !in AllowedFields && k != "updated_at" ==>
      k in row + PatchFor(env, updates) && (row + PatchFor(env, updates))[k] == row[k]
    ensures (row + PatchFor(env, updates))["updated_at"] == Text(env.nowIso)
    ensures forall k :: k in Whitelisted(updates) ==> (row + PatchFor(env, updates))[k] == updates[k]
  {
  }

  /** In production an identified caller is a verified Telegram user: the
      verifier accepted the header's payload and its user has that id. */
  lemma ProductionCallersAreVerified(env: Env, header: Option<string>)
    requires !env.isDevelopment && IdentifyCaller(env, header).Identified?
    ensures var v := Validate(env.verifier, env.decodeQuery(header.value));
      v.Accepted? && v.data.user.Some? && v.data.user.value.id == IdentifyCaller(env, header).telegramId
  {
  }
}
