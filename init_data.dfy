/** Telegram Mini App init-data handling: `validateTelegramInitData`, which
    checks the HMAC signature and the 24-hour freshness window before
    trusting the payload, and `parseInitData`, which reads the same fields
    without checking anything. The payload arrives already percent-decoded
    as a sequence of pairs; HMAC-SHA256, UTF-8 encoding and `JSON.parse` of
    the `user` field are parameters. */
module InitData {

  import opened Values
  import opened DataCheck
  import opened JsParseInt
  import Hex

  /** The hash primitives the verifier relies on: `createHmac('sha256', key).update(msg).digest()`
      and the UTF-8 encoding Node applies to string keys and messages. */
  datatype Crypto = Crypto(
    hmacSha256: (seq<Hex.byte>, seq<Hex.byte>) -> seq<Hex.byte>,
    utf8: string -> seq<Hex.byte>)

  /** The Telegram user record carried, JSON-encoded, in the `user` field. */
  datatype User = User(
    id: int,
    firstName: string,
    lastName: Option<string>,
    username: Option<string>,
    languageCode: Option<string>,
    isPremium: Option<bool>,
    photoUrl: Option<string>)

  /** The verified result. `authDate` is `None` when `auth_date` is not a number (NaN). */
  datatype TelegramInitData = TelegramInitData(
    queryId: Option<string>,
    user: Option<User>,
    authDate: Option<int>,
    hash: string,
    startParam: Option<string>)

  /** The unverified preview: a different type, so that it cannot stand in for a verified result. */
  datatype PartialInitData = PartialInitData(
    queryId: Option<string>,
    user: Option<User>,
    authDate: Option<int>,
    hash: string)

  /** Why a payload was refused (the source returns `null` in every case). */
  datatype Rejection = BotTokenUnset | HashMissing | HashMismatch | Expired | UserMalformed

  datatype Verdict = Accepted(data: TelegramInitData) | Rejected(reason: Rejection)

  /** What the verifier reads besides the payload: `TELEGRAM_BOT_TOKEN`, the
      current time in whole seconds, the hash primitives and the `user` parser
      (`None` when `JSON.parse` throws). */
  datatype Context = Context(
    botToken: Option<string>,
    now: int,
    crypto: Crypto,
    parseUser: string -> Option<User>)

  /** The freshness window: 24 hours, in seconds. */
  const MaxAge: int := 86400

  /** The key of the outer HMAC that derives the secret from the bot token. */
  const SecretKeyLabel: string := "WebAppData"

  /** HMAC-SHA256 keyed with "WebAppData" over the bot token. */
  function SecretKey(crypto: Crypto, botToken: string): seq<Hex.byte>
  {
    crypto.hmacSha256(crypto.utf8(SecretKeyLabel), crypto.utf8(botToken))
  }

  /** The lowercase hex HMAC-SHA256 of a message under the derived secret:
      two hex digits per byte of the digest, which it reads back as. */
  function Signature(crypto: Crypto, botToken: string, message: string): (r: string)
    ensures |r| == 2 * |crypto.hmacSha256(SecretKey(crypto, botToken), crypto.utf8(message))|
    ensures Hex.Decode(r) == Some(crypto.hmacSha256(SecretKey(crypto, botToken), crypto.utf8(message)))
  {
    var digest := crypto.hmacSha256(SecretKey(crypto, botToken), crypto.utf8(message));
    Hex.DecodeEncode(digest);
    Hex.Encode(digest)
  }

  /** The signature a payload's data-check string must carry. */
  function ExpectedHash(crypto: Crypto, botToken: string, ps: seq<Param>): string
  {
    Signature(crypto, botToken, DataCheckString(ps))
  }

  /** `parseInt(get('auth_date') || '0')`. */
  function AuthDate(ps: seq<Param>): Option<int>
  {
    var s := Get(ps, "auth_date");
    ParseInt(if Truthy(s) then s.value else "0")
  }

  /** `now - authDate > 86400`; a NaN `auth_date` makes the comparison false. */
  predicate Stale(now: int, authDate: Option<int>)
  {
    authDate.Some? && now - authDate.value > MaxAge
  }

  /** `userStr ? JSON.parse(userStr) : undefined`: `None` when parsing throws,
      `Some(None)` when the field is absent or empty. */
  function UserField(parseUser: string -> Option<User>, ps: seq<Param>): Option<Option<User>>
  {
    var s := Get(ps, "user");
    if !Truthy(s) then Some(None)
    else match parseUser(s.value)
      case None => None
      case Some(u) => Some(Some(u))
  }

  /** What the checks after `delete('hash')` read from the payload. */
  datatype Fields = Fields(
    dataCheck: string,
    authDate: Option<int>,
    user: Option<Option<User>>,
    queryId: Option<string>,
    startParam: Option<string>)

  function FieldsOf(parseUser: string -> Option<User>, ps: seq<Param>): Fields
  {
    Fields(DataCheckString(ps), AuthDate(ps), UserField(parseUser, ps), Get(ps, "query_id"), Get(ps, "start_param"))
  }

  /** `validateTelegramInitData`. Checks, in order: the bot token is set, a
      non-empty `hash` is present, then the fields of the rest of the
      payload (with `hash` deleted) are checked against it. */
  function Validate(ctx: Context, ps: seq<Param>): (v: Verdict)
    ensures !Truthy(ctx.botToken) ==> v == Rejected(BotTokenUnset)
    ensures Truthy(ctx.botToken) && !Truthy(Get(ps, "hash")) ==> v == Rejected(HashMissing)
  {
    if !Truthy(ctx.botToken) then Rejected(BotTokenUnset)
    else
      var hash := Get(ps, "hash");
      if !Truthy(hash) then Rejected(HashMissing)
      else CheckSigned(ctx, hash.value, FieldsOf(ctx.parseUser, WithoutKey(ps, "hash")))
  }

  /** The checks after `delete('hash')`: the hash matches the signature of
      the data-check string, the payload is fresh, and `user` parses. */
  function CheckSigned(ctx: Context, hash: string, f: Fields): (v: Verdict)
    requires Truthy(ctx.botToken)
  {
    if Signature(ctx.crypto, ctx.botToken.value, f.dataCheck) != hash then Rejected(HashMismatch)
    else if Stale(ctx.now, f.authDate) then Rejected(Expired)
    else match f.user
      case None => Rejected(UserMalformed)
      case Some(user) =>
        Accepted(TelegramInitData(OrAbsent(f.queryId), user, f.authDate, hash, OrAbsent(f.startParam)))
  }

  /** Past the first two checks, the verdict is that of the checks applied
      to the payload's own fields: deleting `hash` changes none of them. */
  lemma ValidateReadsPayload(ctx: Context, ps: seq<Param>)
    requires Truthy(ctx.botToken) && Truthy(Get(ps, "hash"))
    ensures Validate(ctx, ps) == CheckSigned(ctx, Get(ps, "hash").value, FieldsOf(ctx.parseUser, ps))
  {
    ReadsAfterDelete(ctx, ps);
  }

  /** The verifier accepts exactly the payloads that carry a non-empty
      `hash` equal to the lowercase hex HMAC of their data-check string under
      the secret derived from a set bot token, are at most a day old, and
      whose `user` (if any) parses; the accepted result holds the payload's
      own fields, with empty `query_id`/`start_param` dropped. */
  lemma ValidateAccepts(ctx: Context, ps: seq<Param>)
    ensures Validate(ctx, ps).Accepted? <==>
      && Truthy(ctx.botToken)
      && Truthy(Get(ps, "hash"))
      && Get(ps, "hash").value == ExpectedHash(ctx.crypto, ctx.botToken.value, ps)
      && !Stale(ctx.now, AuthDate(ps))
      && UserField(ctx.parseUser, ps).Some?
    ensures Validate(ctx, ps).Accepted? ==> Validate(ctx, ps).data == TelegramInitData(
      OrAbsent(Get(ps, "query_id")),
      UserField(ctx.parseUser, ps).value,
      AuthDate(ps),
      Get(ps, "hash").value,
      OrAbsent(Get(ps, "start_param")))
  {
    if Truthy(ctx.botToken) && Truthy(Get(ps, "hash")) {
      ValidateReadsPayload(ctx, ps);
    }
  }

  /** After `delete('hash')` every other field reads as before, and the
      data-check string is unchanged (it never contained `hash`). */
  lemma ReadsAfterDelete(ctx: Context, ps: seq<Param>)
    ensures FieldsOf(ctx.parseUser, WithoutKey(ps, "hash")) == FieldsOf(ctx.parseUser, ps)
  {
    DataCheckAfterDelete(ps);
    AuthDateAfterDelete(ps);
    UserAfterDelete(ctx.parseUser, ps);
    GetWithoutOtherKey(ps, "hash", "query_id");
    GetWithoutOtherKey(ps, "hash", "start_param");
  }

  lemma DataCheckAfterDelete(ps: seq<Param>)
    ensures DataCheckString(WithoutKey(ps, "hash")) == DataCheckString(ps)
  {
    WithoutKeyTwice(ps, "hash");
  }

  lemma AuthDateAfterDelete(ps: seq<Param>)
    ensures AuthDate(WithoutKey(ps, "hash")) == AuthDate(ps)
  {
    GetWithoutOtherKey(ps, "hash", "auth_date");
  }

  lemma UserAfterDelete(parseUser: string -> Option<User>, ps: seq<Param>)
    ensures UserField(parseUser, WithoutKey(ps, "hash")) == UserField(parseUser, ps)
  {
    GetWithoutOtherKey(ps, "hash", "user");
  }

  /** Deleting a key twice is deleting it once. */
  lemma {:induction false} WithoutKeyTwice(ps: seq<Param>, k: string)
    ensures WithoutKey(WithoutKey(ps, k), k) == WithoutKey(ps, k)
  {
    if ps != [] {
      WithoutKeyTwice(ps[1..], k);
      var t := WithoutKey(ps[1..], k);
      if ps[0].key != k {
        assert WithoutKey(ps, k) == [ps[0]] + t;
        assert ([ps[0]] + t)[1..] == t;
        assert WithoutKey([ps[0]] + t, k) == [ps[0]] + WithoutKey(t, k);
      } else {
        assert WithoutKey(ps, k) == t;
      }
    }
  }

  /** `parseInitData`: the same fields, with no signature or freshness check;
      `hash` defaults to '' and only a `user` that fails to parse gives `null`. */
  function ParseUnverified(parseUser: string -> Option<User>, ps: seq<Param>): (r: Option<PartialInitData>)
    ensures r.None? <==> Truthy(Get(ps, "user")) && parseUser(Get(ps, "user").value).None?
    ensures r.Some? ==> r.value.hash == Get(ps, "hash").GetOr("")
    ensures r.Some? ==> r.value == PartialInitData(
      OrAbsent(Get(ps, "query_id")), UserField(parseUser, ps).value, AuthDate(ps), Get(ps, "hash").GetOr(""))
  {
    match UserField(parseUser, ps)
    case None => None
    case Some(user) =>
      Some(PartialInitData(
        OrAbsent(Get(ps, "query_id")),
        user,
        AuthDate(ps),
        Get(ps, "hash").GetOr("")))
  }

  // ---------------------------------------------------------------- properties

  /** Nothing about the payload matters when the bot token is unset. */
  lemma TokenCheckedFirst(ctx: Context, ps: seq<Param>, qs: seq<Param>)
    requires !Truthy(ctx.botToken)
    ensures Validate(ctx, ps) == Validate(ctx, qs) == Rejected(BotTokenUnset)
  {
  }

  /** A payload without a non-empty `hash` is refused whatever the hash
      primitives compute: the decision is reached before any HMAC. */
  lemma MissingHashNeedsNoHmac(ctx: Context, other: Crypto, ps: seq<Param>)
    requires Truthy(ctx.botToken) && !Truthy(Get(ps, "hash"))
    ensures Validate(ctx, ps) == Validate(ctx.(crypto := other), ps) == Rejected(HashMissing)
  {
  }

  /** A missing or empty `auth_date` counts as the epoch, 0. */
  lemma MissingAuthDateIsZero(ps: seq<Param>)
    requires !Truthy(Get(ps, "auth_date"))
    ensures AuthDate(ps) == Some(0)
  {
    ParseIntDecimalString(0);
    assert DecimalString(0) == "0";
  }

  /** The freshness window for a payload whose `auth_date` is the numeral of
      `date`: accepted exactly when it is at most 86400 seconds old, so
      exactly 86400 seconds is accepted, 86401 is refused, and any future
      date is accepted. */
  lemma FreshnessWindow(ctx: Context, ps: seq<Param>, date: int)
    requires Truthy(ctx.botToken) && Truthy(Get(ps, "hash"))
    requires Get(ps, "hash").value == ExpectedHash(ctx.crypto, ctx.botToken.value, ps)
    requires UserField(ctx.parseUser, ps).Some?
    requires Get(ps, "auth_date") == Some(DecimalString(date))
    ensures Validate(ctx, ps).Accepted? <==> ctx.now - date <= MaxAge
    ensures Validate(ctx, ps).Rejected? ==> Validate(ctx, ps).reason == Expired
    ensures date == ctx.now - 86400 ==> Validate(ctx, ps).Accepted?
    ensures date == ctx.now - 86401 ==> Validate(ctx, ps) == Rejected(Expired)
    ensures date >= ctx.now ==> Validate(ctx, ps).Accepted?
  {
    ParseIntDecimalString(date);
    assert DecimalString(date) != "" by {
      if date < 0 { assert DecimalString(date)[0] == '-'; }
    }
    assert AuthDate(ps) == Some(date);
    ValidateReadsPayload(ctx, ps);
  }

  /** An `auth_date` that `parseInt` reads as NaN is never too old: the
      comparison with NaN is false, so a signed payload with such a date is
      accepted at every time. */
  lemma NonNumericDateNeverExpires(ctx: Context, ps: seq<Param>, later: int)
    requires Truthy(ctx.botToken) && Truthy(Get(ps, "hash"))
    requires Get(ps, "hash").value == ExpectedHash(ctx.crypto, ctx.botToken.value, ps)
    requires UserField(ctx.parseUser, ps).Some?
    requires AuthDate(ps).None?
    ensures Validate(ctx.(now := later), ps).Accepted?
    ensures Validate(ctx.(now := later), ps).data.authDate.None?
  {
    var c := ctx.(now := later);
    assert c.crypto == ctx.crypto && c.botToken == ctx.botToken && c.parseUser == ctx.parseUser;
    assert !Stale(later, AuthDate(ps));
    ValidateAccepts(c, ps);
  }

  /** A `user` field that fails to parse makes the whole call fail, even
      when the signature and the date are good. */
  lemma MalformedUserRejected(ctx: Context, ps: seq<Param>)
    requires Truthy(ctx.botToken) && Truthy(Get(ps, "hash"))
    requires Get(ps, "hash").value == ExpectedHash(ctx.crypto, ctx.botToken.value, ps)
    requires !Stale(ctx.now, AuthDate(ps))
    requires Truthy(Get(ps, "user")) && ctx.parseUser(Get(ps, "user").value).None?
    ensures Validate(ctx, ps) == Rejected(UserMalformed)
  {
    ValidateReadsPayload(ctx, ps);
  }

  /** Reordering the pairs of a payload whose keys are distinct does not
      change the verdict. */
  lemma ValidateReordered(ctx: Context, ps: seq<Param>, qs: seq<Param>)
    requires DistinctKeys(ps) && multiset(ps) == multiset(qs)
    ensures Validate(ctx, ps) == Validate(ctx, qs)
  {
    ReorderedReadsAlike(ctx, ps, qs);
    ValidateReadsOnly(ctx, ps, qs);
  }

  /** Every field the verifier reads, and the data-check string, survive a
      reordering of pairs with distinct keys. */
  lemma ReorderedReadsAlike(ctx: Context, ps: seq<Param>, qs: seq<Param>)
    requires DistinctKeys(ps) && multiset(ps) == multiset(qs)
    ensures Get(ps, "hash") == Get(qs, "hash")
    ensures FieldsOf(ctx.parseUser, ps) == FieldsOf(ctx.parseUser, qs)
  {
    DataCheckStringReordered(ps, qs);
    GetReordered(ps, qs, "hash");
    AuthDateReordered(ps, qs);
    UserReordered(ctx.parseUser, ps, qs);
    GetReordered(ps, qs, "query_id");
    GetReordered(ps, qs, "start_param");
  }

  lemma AuthDateReordered(ps: seq<Param>, qs: seq<Param>)
    requires DistinctKeys(ps) && multiset(ps) == multiset(qs)
    ensures AuthDate(ps) == AuthDate(qs)
  {
    GetReordered(ps, qs, "auth_date");
  }

  lemma UserReordered(parseUser: string -> Option<User>, ps: seq<Param>, qs: seq<Param>)
    requires DistinctKeys(ps) && multiset(ps) == multiset(qs)
    ensures UserField(parseUser, ps) == UserField(parseUser, qs)
  {
    GetReordered(ps, qs, "user");
  }

  /** The verdict depends on the payload only through its `hash` and the
      fields the later checks read. */
  lemma ValidateReadsOnly(ctx: Context, ps: seq<Param>, qs: seq<Param>)
    requires Get(ps, "hash") == Get(qs, "hash")
    requires FieldsOf(ctx.parseUser, ps) == FieldsOf(ctx.parseUser, qs)
    ensures Validate(ctx, ps) == Validate(ctx, qs)
  {
    if Truthy(ctx.botToken) && Truthy(Get(ps, "hash")) {
      ValidateReadsPayload(ctx, ps);
      ValidateReadsPayload(ctx, qs);
    }
  }

  /** What a verified payload vouches for: under one bot token and one set of
      hash primitives, two unambiguous payloads with the same `hash` that are
      both accepted sign the same message; if the HMAC chain is collision-free
      on these inputs they carry the same pairs. */
  lemma AcceptedSignsItsPairs(ctx: Context, ps: seq<Param>, qs: seq<Param>)
    requires Unambiguous(ps) && Unambiguous(qs)
    requires Validate(ctx, ps).Accepted? && Validate(ctx, qs).Accepted?
    requires Validate(ctx, ps).data.hash == Validate(ctx, qs).data.hash
    requires ctx.crypto.utf8(DataCheckString(ps)) == ctx.crypto.utf8(DataCheckString(qs))
             ==> DataCheckString(ps) == DataCheckString(qs)
    requires var key := SecretKey(ctx.crypto, ctx.botToken.value);
             ctx.crypto.hmacSha256(key, ctx.crypto.utf8(DataCheckString(ps)))
               == ctx.crypto.hmacSha256(key, ctx.crypto.utf8(DataCheckString(qs)))
             ==> ctx.crypto.utf8(DataCheckString(ps)) == ctx.crypto.utf8(DataCheckString(qs))
    ensures multiset(WithoutKey(ps, "hash")) == multiset(WithoutKey(qs, "hash"))
  {
    ValidateAccepts(ctx, ps);
    ValidateAccepts(ctx, qs);
    var key := SecretKey(ctx.crypto, ctx.botToken.value);
    Hex.EncodeInjective(
      ctx.crypto.hmacSha256(key, ctx.crypto.utf8(DataCheckString(ps))),
      ctx.crypto.hmacSha256(key, ctx.crypto.utf8(DataCheckString(qs))));
    DataCheckStringInjective(ps, qs);
  }

  /** The preview reads a missing or empty `auth_date` as 0, and passes the
      payload's `query_id` through with an empty one dropped. */
  lemma PreviewDefaults(parseUser: string -> Option<User>, ps: seq<Param>)
    requires ParseUnverified(parseUser, ps).Some?
    ensures !Truthy(Get(ps, "auth_date")) ==> ParseUnverified(parseUser, ps).value.authDate == Some(0)
    ensures ParseUnverified(parseUser, ps).value.queryId.Some? <==> Truthy(Get(ps, "query_id"))
    ensures Truthy(Get(ps, "query_id")) ==> ParseUnverified(parseUser, ps).value.queryId == Get(ps, "query_id")
  {
    if !Truthy(Get(ps, "auth_date")) {
      MissingAuthDateIsZero(ps);
    }
  }

  /** The unverified parse agrees with the verified one on every field they
      share, so it never refuses what the verifier accepts. */
  lemma UnverifiedAgreesWithVerified(ctx: Context, ps: seq<Param>)
    requires Validate(ctx, ps).Accepted?
    ensures var d := Validate(ctx, ps).data;
      ParseUnverified(ctx.parseUser, ps) == Some(PartialInitData(d.queryId, d.user, d.authDate, d.hash))
  {
    ValidateAccepts(ctx, ps);
  }

  /** The unverified parse accepts payloads the verifier refuses: any
      unsigned payload without a `user` field. */
  lemma UnverifiedIgnoresSignature(ctx: Context, ps: seq<Param>)
    requires Truthy(ctx.botToken) && !Truthy(Get(ps, "user"))
    requires Truthy(Get(ps, "hash"))
    requires Get(ps, "hash").value != ExpectedHash(ctx.crypto, ctx.botToken.value, ps)
    ensures Validate(ctx, ps) == Rejected(HashMismatch)
    ensures ParseUnverified(ctx.parseUser, ps).Some?
  {
    ValidateReadsPayload(ctx, ps);
  }
}
