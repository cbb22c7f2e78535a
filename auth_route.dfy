/** `POST /api/auth/telegram`: verifies the init data, then either refreshes
    the caller's profile row from their Telegram record or creates it (with
    zero credits and the referral source) and logs a `user_registered`
    event. */
module AuthRoute {

  import opened Values
  import opened InitData
  import opened Store
  import opened Http

  /** The JSON body's two fields; a field that is absent or not a string is `None`. */
  datatype AuthRequest = AuthRequest(initData: Option<string>, startParam: Option<string>)

  /** Which of the three store calls the backend answers with an error. */
  datatype Faults = Faults(select: bool, write: bool, event: bool)

  /** What one request does: its response, the profiles table afterwards,
      and the events it appends. */
  datatype Effect = Effect(resp: Response, profiles: map<int, Row>, events: seq<Event>)

  /** The Telegram record the development shortcut logs in as. */
  const MockUser: User := User(MockTelegramId, "Test", Some("User"), Some("testuser"), Some("ru"), None, None)

  /** The profile columns copied from the Telegram record. */
  const ProfileColumns: set<string> :=
    {"first_name", "last_name", "username", "language_code", "is_premium", "photo_url"}

  /** The Telegram user behind the init data: the mock user for the
      development shortcut, otherwise the verified payload's user. */
  function Identify(env: Env, initData: string): (u: Option<User>)
    ensures IsMock(env, initData) ==> u == Some(MockUser)
    ensures !IsMock(env, initData) ==> (u.Some? <==> VerifiedUser(env, initData).Some?)
    ensures !IsMock(env, initData) && u.Some? ==> u == VerifiedUser(env, initData)
  {
    if IsMock(env, initData) then Some(MockUser) else VerifiedUser(env, initData)
  }

  /** The request's caller, when the request gets that far. */
  function Caller(env: Env, req: Option<AuthRequest>): Option<User>
  {
    if req.None? || !Truthy(req.value.initData) then None
    else Identify(env, req.value.initData.value)
  }

  /** The columns written from a Telegram record on every login: absent or
      empty optional strings become null and an absent `is_premium` false. */
  function ProfileFields(u: User): (r: Row)
    ensures r.Keys == ProfileColumns
    ensures r["first_name"] == Text(u.firstName)
    ensures r["last_name"] == Null <==> !Truthy(u.lastName)
    ensures r["username"] == Null <==> !Truthy(u.username)
    ensures r["language_code"] == Null <==> !Truthy(u.languageCode)
    ensures r["photo_url"] == Null <==> !Truthy(u.photoUrl)
    ensures Truthy(u.lastName) ==> r["last_name"] == Text(u.lastName.value)
    ensures Truthy(u.username) ==> r["username"] == Text(u.username.value)
    ensures Truthy(u.languageCode) ==> r["language_code"] == Text(u.languageCode.value)
    ensures Truthy(u.photoUrl) ==> r["photo_url"] == Text(u.photoUrl.value)
    ensures r["is_premium"] == Bool(true) <==> u.isPremium == Some(true)
    ensures r["is_premium"].Bool?
  {
    map[
      "first_name" := Text(u.firstName),
      "last_name" := OrNull(u.lastName),
      "username" := OrNull(u.username),
      "language_code" := OrNull(u.languageCode),
      "is_premium" := Bool(u.isPremium == Some(true)),
      "photo_url" := OrNull(u.photoUrl)]
  }

  /** The patch applied to a returning user's row. */
  function RefreshFields(nowIso: string, u: User): (r: Row)
    ensures r.Keys == ProfileColumns + {"updated_at"}
    ensures r["updated_at"] == Text(nowIso)
    ensures TelegramIdColumn !in r && "credits" !in r && "referral_source" !in r
  {
    ProfileFields(u)["updated_at" := Text(nowIso)]
  }

  /** The row inserted for a new user. */
  function NewProfileRow(u: User, startParam: Option<string>): (r: Row)
    ensures Keyed(r, u.id)
    ensures r.Keys == ProfileColumns + {TelegramIdColumn, "credits", "referral_source"}
    ensures r["credits"] == Int(0)
    ensures r["referral_source"] == Null <==> !Truthy(startParam)
    ensures Truthy(startParam) ==> r["referral_source"] == Text(startParam.value)
  {
    ProfileFields(u)[TelegramIdColumn := Int(u.id)]["credits" := Int(0)]["referral_source" := OrNull(startParam)]
  }

  /** The event logged after a new user's row is created. */
  function RegistrationEvent(u: User, startParam: Option<string>): (e: Event)
    ensures e.telegramId == u.id && e.eventType == "user_registered"
    ensures e.eventData.Keys == {"referral_source"}
    ensures e.eventData["referral_source"] == Null <==> !Truthy(startParam)
    ensures Truthy(startParam) ==> e.eventData["referral_source"] == Text(startParam.value)
  {
    Event(u.id, "user_registered", map["referral_source" := OrNull(startParam)])
  }

  /** The whole request, step by step: a body that is not JSON is a 500; no
      init data a 400; init data that does not verify (or has no user) a
      401; a missing store configuration a 500; then the store calls. */
  function PostEffect(env: Env, profiles: map<int, Row>, req: Option<AuthRequest>, faults: Faults): (e: Effect)
    ensures Caller(env, req).None? ==> e.profiles == profiles && e.events == [] && e.resp.status != 200
    ensures Caller(env, req).Some? && !env.storeConfigured ==> e == Effect(InternalError, profiles, [])
    ensures req.None? ==> e.resp == InternalError
    ensures req.Some? && !Truthy(req.value.initData) ==> e.resp == Response(400, Failure("Missing initData"))
    ensures req.Some? && Truthy(req.value.initData) && Identify(env, req.value.initData.value).None? ==>
      e.resp == Response(401, Failure("Invalid initData"))
    ensures e.resp.status in {200, 400, 401, 500}
  {
    if req.None? then Effect(InternalError, profiles, [])
    else if !Truthy(req.value.initData) then Effect(Response(400, Failure("Missing initData")), profiles, [])
    else match Identify(env, req.value.initData.value)
      case None => Effect(Response(401, Failure("Invalid initData")), profiles, [])
      case Some(u) =>
        if !env.storeConfigured then Effect(InternalError, profiles, [])
        else StoreEffect(profiles, env.nowIso, u, req.value.startParam, faults)
  }

  /** The store calls for an identified user. The lookup's error is
      ignored: only a lookup that succeeds and finds the row leads to the
      update path (500 "Failed to update profile" if it fails, no event);
      everything else leads to the insert path (500 "Failed to create
      profile" if the backend fails or the row already exists, else one
      event unless its own insert fails, which is ignored). */
  function StoreEffect(profiles: map<int, Row>, nowIso: string, u: User, startParam: Option<string>, faults: Faults): (e: Effect)
    ensures e.resp.status != 200 ==> e.profiles == profiles && e.events == []
    ensures e.resp.status == 200 <==> e.resp.body.Profile?
    ensures |e.events| <= 1
    ensures e.resp.status == 200 || e.resp.status == 500
    ensures faults.write ==> e.resp.status == 500
    ensures !faults.select && u.id in profiles && faults.write ==>
      e.resp == Response(500, Failure("Failed to update profile"))
    ensures (faults.select || u.id !in profiles) && (faults.write || u.id in profiles) ==>
      e.resp == Response(500, Failure("Failed to create profile"))
  {
    if !faults.select && u.id in profiles then
      if faults.write then Effect(Response(500, Failure("Failed to update profile")), profiles, [])
      else
        var row := profiles[u.id] + RefreshFields(nowIso, u);
        Effect(Response(200, Profile(row)), profiles[u.id := row], [])
    else if faults.write || u.id in profiles then
      Effect(Response(500, Failure("Failed to create profile")), profiles, [])
    else
      var row := NewProfileRow(u, startParam);
      var logged := if faults.event then [] else [RegistrationEvent(u, startParam)];
      Effect(Response(200, Profile(row)), profiles[u.id := row], logged)
  }

  /** The handler, against the store. */
  method Post(db: Database, env: Env, req: Option<AuthRequest>, faults: Faults) returns (resp: Response)
    requires db.Valid()
    modifies db
    ensures db.Valid()
    ensures var e := PostEffect(env, old(db.profiles), req, faults);
      resp == e.resp && db.profiles == e.profiles && db.events == old(db.events) + e.events
  {
    if req.None? {
      return InternalError;
    }
    if !Truthy(req.value.initData) {
      return Response(400, Failure("Missing initData"));
    }
    var user := Identify(env, req.value.initData.value);
    if user.None? {
      return Response(401, Failure("Invalid initData"));
    }
    if !env.storeConfigured {
      return InternalError;
    }
    resp := SignIn(db, env.nowIso, user.value, req.value.startParam, faults);
  }

  /** The store part of the handler, for an identified user. */
  method SignIn(db: Database, nowIso: string, u: User, startParam: Option<string>, faults: Faults) returns (resp: Response)
    requires db.Valid()
    modifies db
    ensures db.Valid()
    ensures var e := StoreEffect(old(db.profiles), nowIso, u, startParam, faults);
      resp == e.resp && db.profiles == e.profiles && db.events == old(db.events) + e.events
  {
    var existing := db.SelectProfile(u.id, faults.select);
    if existing.Some? {
      var updated := db.UpdateProfile(u.id, RefreshFields(nowIso, u), faults.write);
      if updated.None? {
        return Response(500, Failure("Failed to update profile"));
      }
      return Response(200, Profile(updated.value));
    }
    var created := db.InsertProfile(NewProfileRow(u, startParam), faults.write);
    if created.None? {
      return Response(500, Failure("Failed to create profile"));
    }
    var _ := db.InsertEvent(RegistrationEvent(u, startParam), faults.event);
    resp := Response(200, Profile(created.value));
  }

  // ---------------------------------------------------------------- properties

  /** The store calls change at most the user's own row, add no row but
      theirs, and keep every row stored under its own `telegram_id`. */
  lemma SignInTouchesOnlyUser(profiles: map<int, Row>, nowIso: string, u: User, startParam: Option<string>, faults: Faults)
    requires forall id :: id in profiles ==> Keyed(profiles[id], id)
    ensures var e := StoreEffect(profiles, nowIso, u, startParam, faults);
      && e.profiles.Keys == profiles.Keys + (if e.resp.status == 200 then {u.id} else {})
      && (forall id :: id in profiles && id != u.id ==> e.profiles[id] == profiles[id])
      && (forall id :: id in e.profiles ==> Keyed(e.profiles[id], id))
  {
    var e := StoreEffect(profiles, nowIso, u, startParam, faults);
    if e.resp.status == 200 {
      assert u.id in e.profiles;
      assert Keyed(e.profiles[u.id], u.id) by {
        if u.id in profiles && !faults.select {
          assert e.profiles[u.id] == profiles[u.id] + RefreshFields(nowIso, u);
          assert Keyed(profiles[u.id], u.id);
        }
      }
    }
  }

  /** A request changes nothing unless a caller is identified and the store
      is configured, and then only what the store calls change. */
  lemma PostTouchesOnlyCaller(env: Env, profiles: map<int, Row>, req: Option<AuthRequest>, faults: Faults)
    ensures var e := PostEffect(env, profiles, req, faults);
      && (Caller(env, req).None? || !env.storeConfigured ==> e.profiles == profiles && e.events == [])
      && (Caller(env, req).Some? && env.storeConfigured ==>
            e == StoreEffect(profiles, env.nowIso, Caller(env, req).value, req.value.startParam, faults))
  {
  }

  /** The event is logged only when a row is created for a user the table
      did not hold, and it records that user and the referral source. */
  lemma RegistersOnlyNewUsers(profiles: map<int, Row>, nowIso: string, u: User, startParam: Option<string>, faults: Faults)
    requires StoreEffect(profiles, nowIso, u, startParam, faults).events != []
    ensures var e := StoreEffect(profiles, nowIso, u, startParam, faults);
      && u.id !in profiles
      && e.events == [RegistrationEvent(u, startParam)]
      && e.profiles == profiles[u.id := NewProfileRow(u, startParam)]
  {
  }

  /** A returning user whose lookup and update succeed gets a 200 with
      their row refreshed from the Telegram record; credits, referral source,
      `telegram_id` and every other column keep their stored values, and no
      event is logged. */
  lemma ReturningUserKeepsAccount(profiles: map<int, Row>, nowIso: string, u: User, startParam: Option<string>, faults: Faults)
    requires u.id in profiles && !faults.select && !faults.write
    ensures var e := StoreEffect(profiles, nowIso, u, startParam, faults);
      && e.resp.status == 200 && e.events == []
      && e.resp.body.profile == e.profiles[u.id]
      && e.profiles[u.id].Keys == profiles[u.id].Keys + ProfileColumns + {"updated_at"}
      && (forall k :: k in profiles[u.id] && k !in ProfileColumns && k != "updated_at" ==>
            e.profiles[u.id][k] == profiles[u.id][k])
      && (forall k :: k in ProfileColumns ==> e.profiles[u.id][k] == ProfileFields(u)[k])
  {
  }

  /** A user registers at most once: after a sign-in that answers 200, a
      second one whose lookup succeeds takes the update path and logs
      nothing, whatever its start parameter. */
  lemma SecondSignInDoesNotRegister(profiles: map<int, Row>, nowIso: string, u: User, startParam: Option<string>,
                                    first: Faults, later: string, again: Option<string>, second: Faults)
    requires StoreEffect(profiles, nowIso, u, startParam, first).resp.status == 200
    requires !second.select
    ensures StoreEffect(StoreEffect(profiles, nowIso, u, startParam, first).profiles, later, u, again, second).events == []
  {
    var e := StoreEffect(profiles, nowIso, u, startParam, first);
    assert u.id in e.profiles;
  }

  /** Because the lookup's error is ignored, a returning user whose lookup
      fails is sent down the insert path and refused as if the store had
      failed, with nothing changed. */
  lemma LookupFaultRefusesReturningUser(profiles: map<int, Row>, nowIso: string, u: User, startParam: Option<string>, faults: Faults)
    requires u.id in profiles && faults.select
    ensures StoreEffect(profiles, nowIso, u, startParam, faults) ==
      Effect(Response(500, Failure("Failed to create profile")), profiles, [])
  {
  }

  /** A new user whose row is written gets a 200 with that row, which holds
      zero credits and the start parameter as referral source, whether or
      not the event insert succeeds. */
  lemma NewUserRegistered(profiles: map<int, Row>, nowIso: string, u: User, startParam: Option<string>, faults: Faults)
    requires u.id !in profiles && !faults.write
    ensures var e := StoreEffect(profiles, nowIso, u, startParam, faults);
      && e.resp == Response(200, Profile(NewProfileRow(u, startParam)))
      && e.profiles == profiles[u.id := NewProfileRow(u, startParam)]
      && e.resp.body.profile["credits"] == Int(0)
      && (e.events == [] <==> faults.event)
  {
  }

  /** The store part of the auth route answers 200 with the caller's row,
      or 500 with an error. */
  lemma SignInAnswers(profiles: map<int, Row>, nowIso: string, u: User, startParam: Option<string>, faults: Faults)
    ensures var e := StoreEffect(profiles, nowIso, u, startParam, faults);
      && (e.resp.status == 200 || e.resp.status == 500)
      && (e.resp.status == 200 ==> u.id in e.profiles && e.resp.body == Profile(e.profiles[u.id]))
  {
  }

  /** In production every caller that gets past the 401 presented init data
      that the verifier accepted with a user, so the mock user is reachable
      only in development. */
  lemma ProductionCallersAreVerified(env: Env, req: Option<AuthRequest>)
    requires !env.isDevelopment && Caller(env, req).Some?
    ensures var v := Validate(env.verifier, env.decodeQuery(req.value.initData.value));
      v.Accepted? && v.data.user == Caller(env, req)
  {
  }
}
