/** What the two API routes share: their environment, their JSON responses,
    and the development shortcut that skips init-data verification. */
module Http {

  import opened Values
  import opened DataCheck
  import opened InitData

  /** `NODE_ENV === 'development'`, the verifier's inputs, the query-string
      decoder standing in for `URLSearchParams`, whether `createServerClient`
      finds its configuration (it throws otherwise), and the ISO timestamp
      that `new Date().toISOString()` would give. */
  datatype Env = Env(
    isDevelopment: bool,
    verifier: Context,
    decodeQuery: string -> seq<Param>,
    storeConfigured: bool,
    nowIso: string)

  datatype Body = Failure(error: string) | Profile(profile: Row)

  datatype Response = Response(status: int, body: Body)

  /** The init data that development builds accept without a signature. */
  const MockInitData: string := "mock_init_data"

  /** The Telegram id that the development shortcut logs in as. */
  const MockTelegramId: int := 123456789

  const InternalError: Response := Response(500, Failure("Internal server error"))

  /** True when the development shortcut applies. */
  predicate IsMock(env: Env, initData: string)
  {
    env.isDevelopment && initData == MockInitData
  }

  /** `validateTelegramInitData(initData)` followed by the `!validated.user`
      check: the Telegram user when both pass. */
  function VerifiedUser(env: Env, initData: string): (u: Option<User>)
    ensures u.Some? ==> Validate(env.verifier, env.decodeQuery(initData)).Accepted?
    ensures u.Some? <==>
      var v := Validate(env.verifier, env.decodeQuery(initData));
      v.Accepted? && v.data.user.Some?
    ensures u.Some? ==> u == Validate(env.verifier, env.decodeQuery(initData)).data.user
  {
    match Validate(env.verifier, env.decodeQuery(initData))
    case Accepted(data) => data.user
    case Rejected(_) => None
  }
}
