/** The client's authentication context: the profile the app holds, the
    loading flag, and the two flags derived from the profile. Network calls
    are replaced by their outcome, passed in: `None` when `fetch` or
    `response.json()` throws, otherwise the response received. */
module AuthProvider {

  import opened Values
  import opened Http
  import AuthRoute

  /** `response.ok`: a status in 200..299. */
  predicate Ok(status: int)
  {
    200 <= status < 300
  }

  /** `!!profile`. */
  predicate IsAuthenticated(profile: Option<Row>)
  {
    profile.Some?
  }

  /** The subscription end date, when the column holds a non-empty string. */
  function SubscriptionUntil(row: Row): Option<string>
  {
    if "subscription_until" in row && row["subscription_until"].Text? && row["subscription_until"].s != ""
    then Some(row["subscription_until"].s)
    else None
  }

  /** `subscription_type === 'free_trial'`. */
  predicate FreeTrial(row: Row)
  {
    "subscription_type" in row && row["subscription_type"] == Text("free_trial")
  }

  /** `hasActiveSubscription` at time `now` (milliseconds): a profile whose
      end date is set, parses (`parseDate` gives `None` for an Invalid
      Date, which compares false) and is strictly later than now, and
      whose plan is not the free trial. */
  function HasActiveSubscription(profile: Option<Row>, now: int, parseDate: string -> Option<int>): (active: bool)
    ensures profile.None? ==> !active
    ensures profile.Some? && SubscriptionUntil(profile.value).None? ==> !active
    ensures (profile.Some? && FreeTrial(profile.value)) ==> !active
    ensures active ==> parseDate(SubscriptionUntil(profile.value).value).Some?
                       && parseDate(SubscriptionUntil(profile.value).value).value > now
    ensures (profile.Some? && SubscriptionUntil(profile.value).Some?
             && parseDate(SubscriptionUntil(profile.value).value) == Some(now)) ==> !active
    ensures (profile.Some? && SubscriptionUntil(profile.value).Some? && !FreeTrial(profile.value)
             && parseDate(SubscriptionUntil(profile.value).value).Some?
             && parseDate(SubscriptionUntil(profile.value).value).value > now) ==> active
  {
    match profile
    case None => false
    case Some(row) =>
      match SubscriptionUntil(row)
      case None => false
      case Some(until) =>
        match parseDate(until)
        case None => false
        case Some(end) =>
          end > now && !FreeTrial(row)
  }

  /** The profile after a reply: replaced by the reply's `profile` when the
      reply is ok (absent if the body has none), otherwise kept. */
  function ProfileAfter(current: Option<Row>, reply: Option<Response>): (p: Option<Row>)
    ensures reply.None? || !Ok(reply.value.status) ==> p == current
    ensures reply.Some? && Ok(reply.value.status) ==>
      (p.Some? <==> reply.value.body.Profile?) && (p.Some? ==> p.value == reply.value.body.profile)
  {
    if reply.Some? && Ok(reply.value.status) then
      (if reply.value.body.Profile? then Some(reply.value.body.profile) else None)
    else current
  }

  class AuthSession {
    var profile: Option<Row>
    var isLoading: bool

    /** `useState(null)` and `useState(true)`. */
    constructor ()
      ensures profile.None? && isLoading
    {
      profile := None;
      isLoading := true;
    }

    /** `authenticate`: without init data or a Telegram user, stop loading
        and send nothing; otherwise POST `{initData, startParam}` (the
        result), take the profile from an ok reply, and stop loading
        whatever the outcome. */
    method Authenticate(initData: Option<string>, startParam: Option<string>, hasUser: bool, reply: Option<Response>)
      returns (sent: Option<AuthRoute.AuthRequest>)
      modifies this
      ensures !isLoading
      ensures !Truthy(initData) || !hasUser ==> sent.None? && profile == old(profile)
      ensures Truthy(initData) && hasUser ==>
        sent == Some(AuthRoute.AuthRequest(initData, startParam)) && profile == ProfileAfter(old(profile), reply)
    {
      if !Truthy(initData) || !hasUser {
        isLoading := false;
        return None;
      }
      sent := Some(AuthRoute.AuthRequest(initData, startParam));
      if reply.Some? && Ok(reply.value.status) {
        profile := if reply.value.body.Profile? then Some(reply.value.body.profile) else None;
      }
      isLoading := false;
    }

    /** `refreshProfile`: without init data do nothing; otherwise GET the
        profile with the init data as header (the result) and take the
        profile from an ok reply. The loading flag is not touched. */
    method RefreshProfile(initData: Option<string>, reply: Option<Response>) returns (header: Option<string>)
      modifies this`profile
      ensures !Truthy(initData) ==> header.None? && profile == old(profile)
      ensures Truthy(initData) ==> header == initData && profile == ProfileAfter(old(profile), reply)
    {
      if !Truthy(initData) {
        return None;
      }
      header := initData;
      if reply.Some? && Ok(reply.value.status) {
        profile := if reply.value.body.Profile? then Some(reply.value.body.profile) else None;
      }
    }
  }

  // ---------------------------------------------------------------- properties

  /** The sign-in round trip: a fresh session that sends its request to
      the auth route and receives the route's reply is authenticated
      exactly when the route answered 200, and then holds the row the route
      wrote for the caller. */
  lemma SignInRoundTrip(env: Env, profiles: map<int, Row>, initData: string, startParam: Option<string>, faults: AuthRoute.Faults)
    ensures var req := Some(AuthRoute.AuthRequest(Some(initData), startParam));
      var e := AuthRoute.PostEffect(env, profiles, req, faults);
      var p := ProfileAfter(None, Some(e.resp));
      && (IsAuthenticated(p) <==> e.resp.status == 200)
      && (IsAuthenticated(p) ==> p.value == e.profiles[AuthRoute.Caller(env, req).value.id])
  {
  }

  /** A fresh session is not authenticated and has no subscription. */
  lemma FreshSessionSignedOut(now: int, parseDate: string -> Option<int>)
    ensures !IsAuthenticated(None) && !HasActiveSubscription(None, now, parseDate)
  {
  }

  /** An active subscription needs an authenticated session. */
  lemma SubscriptionNeedsProfile(profile: Option<Row>, now: int, parseDate: string -> Option<int>)
    requires HasActiveSubscription(profile, now, parseDate)
    ensures IsAuthenticated(profile)
  {
  }
}
