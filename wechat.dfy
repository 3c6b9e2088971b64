/**
 * The WeChat API client (src/wechat/wechat.service.ts): a cached access token
 * and the requests that create a QR-code ticket and fetch its image.
 *
 * The network is replaced by values: every call that would go over HTTP takes
 * the reply it gets as a parameter (`Failure` for a transport error), and the
 * service keeps the log `sent` of the requests it issued, so that what goes
 * out, and in which order, can be stated. `Date.now()` becomes parameters too.
 */
module Wechat {
  import opened Wrappers

  type byte = b: int | 0 <= b < 256

  /** The four QR-code kinds of src/constants/enum.constants.ts. */
  datatype QRCodeAction = QR_SCENE | QR_STR_SCENE | QR_LIMIT_SCENE | QR_LIMIT_STR_SCENE

  /** The arguments of `getTicket`; a field the caller leaves out is None. */
  datatype GetTicketParams = GetTicketParams(
    action: QRCodeAction,
    sceneId: Option<int>,
    sceneStr: Option<string>,
    expireSeconds: Option<int>)

  /** The JSON body posted to the ticket endpoint; None fields are dropped by JSON serialisation. */
  datatype Scene = Scene(scene_id: Option<int>, scene_str: Option<string>)
  datatype ActionInfo = ActionInfo(scene: Scene)
  datatype TicketBody = TicketBody(expire_seconds: Option<int>, action_name: QRCodeAction, action_info: ActionInfo)

  /** The ticket endpoint's reply data; `ticket` is None when the reply carries none (an error reply). */
  datatype GetTicketResult = GetTicketResult(ticket: Option<string>, expire_seconds: Option<int>, url: Option<string>)

  /** The token endpoint's reply data; `errcode` is 0 when the reply has no error code. */
  datatype TokenReply = TokenReply(errcode: int, errmsg: string, access_token: string, expires_in: int)

  /** An HTTP request the service issues. */
  datatype Request = Get(url: string) | Post(url: string, body: TicketBody)

  const TokenEndpoint: string := "https://api.weixin.qq.com/cgi-bin/token?grant_type=client_credential&appid="
  const TicketEndpoint: string := "https://api.weixin.qq.com/cgi-bin/qrcode/create?access_token="
  const ShowQrCodeEndpoint: string := "https://mp.weixin.qq.com/cgi-bin/showqrcode?ticket="

  /** The URL that exchanges the app credentials for an access token. */
  function TokenUrl(appId: string, appSecret: string): (url: string)
    ensures StripPrefix(url, TokenEndpoint) == Some(appId + "&secret=" + appSecret)
  {
    StripPrefixOfConcat(TokenEndpoint, appId + "&secret=" + appSecret);
    TokenEndpoint + (appId + "&secret=" + appSecret)
  }

  /** The URL a ticket is requested from, carrying the access token. */
  function TicketUrl(accessToken: string): (url: string)
    ensures StripPrefix(url, TicketEndpoint) == Some(accessToken)
  {
    StripPrefixOfConcat(TicketEndpoint, accessToken);
    TicketEndpoint + accessToken
  }

  /** The URL of a ticket's QR image; `encodeUri` stands for `encodeURIComponent`. */
  function ShowQrCodeUrl(ticket: string, encodeUri: string -> string): (url: string)
    ensures StripPrefix(url, ShowQrCodeEndpoint) == Some(encodeUri(ticket))
  {
    StripPrefixOfConcat(ShowQrCodeEndpoint, encodeUri(ticket));
    ShowQrCodeEndpoint + encodeUri(ticket)
  }

  /** Percent-encoding never maps two strings to one; under that, two tickets share no image URL. */
  lemma ShowQrCodeUrlInjective(encodeUri: string -> string, t1: string, t2: string)
    requires forall a, b :: encodeUri(a) == encodeUri(b) ==> a == b
    requires ShowQrCodeUrl(t1, encodeUri) == ShowQrCodeUrl(t2, encodeUri)
    ensures t1 == t2
  {
    assert Some(encodeUri(t1)) == StripPrefix(ShowQrCodeUrl(t1, encodeUri), ShowQrCodeEndpoint);
  }

  /** The body `getTicket` posts: every field is copied from the parameters. */
  function TicketBodyOf(p: GetTicketParams): (b: TicketBody)
    ensures ParamsOf(b) == p
  {
    TicketBody(p.expireSeconds, p.action, ActionInfo(Scene(p.sceneId, p.sceneStr)))
  }

  /** What the receiving end reads back out of a ticket body. */
  function ParamsOf(b: TicketBody): GetTicketParams
  {
    GetTicketParams(b.action_name, b.action_info.scene.scene_id, b.action_info.scene.scene_str, b.expire_seconds)
  }

  /** Two different parameter sets never produce the same body. */
  lemma TicketBodyInjective(p: GetTicketParams, q: GetTicketParams)
    requires TicketBodyOf(p) == TicketBodyOf(q)
    ensures p == q
  {
    calc {
      p;
      ParamsOf(TicketBodyOf(p));
      ParamsOf(TicketBodyOf(q));
      q;
    }
  }

  // ---------------------------------------------------------------------------
  // The access-token cache as a state machine over (currentToken, tokenExpireTime).

  datatype Cache = Cache(token: string, expireTime: int)

  /** The field initialisers: an empty token that expired at time 0. */
  const InitialCache: Cache := Cache("", 0)

  /** The cache answers a call at `now` without a fetch (the expiry instant itself included). */
  predicate Serves(c: Cache, now: int)
  {
    now <= c.expireTime && c.token != ""
  }

  /** What one call of `getAccessToken` returns, the cache it leaves, and whether it fetched. */
  datatype TokenOutcome = TokenOutcome(result: Result<string, HttpError>, cache: Cache, fetched: bool)

  /** "获取access_token失败: " followed by the provider's message. */
  function TokenError(errmsg: string): HttpError
  {
    HttpError(InternalServerError, "\U{83B7}\U{53D6}access_token\U{5931}\U{8D25}: " + errmsg)
  }

  /**
   * One call of `getAccessToken` at time `now`; `reply` is what the token
   * endpoint answers if it is asked and `arrivedAt` the clock when it answers.
   */
  function AccessTokenStep(c: Cache, now: int, reply: Result<TokenReply, HttpError>, arrivedAt: int): (o: TokenOutcome)
    ensures o.fetched <==> !Serves(c, now)
    ensures !o.fetched ==> o.cache == c
    ensures o.result.Failure? ==> o.cache == c
    ensures o.result.Success? ==> o.result.value == o.cache.token
  {
    if Serves(c, now) then TokenOutcome(Success(c.token), c, false)
    else
      match reply
      case Failure(e) => TokenOutcome(Failure(e), c, true)
      case Success(d) =>
        if d.errcode != 0 then TokenOutcome(Failure(TokenError(d.errmsg)), c, true)
        else TokenOutcome(Success(d.access_token), Cache(d.access_token, arrivedAt + d.expires_in * 1000), true)
  }

  /** A hit returns the cached token and changes nothing. */
  lemma HitReturnsCachedToken(c: Cache, now: int, reply: Result<TokenReply, HttpError>, arrivedAt: int)
    requires Serves(c, now)
    ensures AccessTokenStep(c, now, reply, arrivedAt) == TokenOutcome(Success(c.token), c, false)
  {
  }

  /** The first call after start-up always fetches, whatever the clock says. */
  lemma InitialCacheFetches(now: int, reply: Result<TokenReply, HttpError>, arrivedAt: int)
    ensures AccessTokenStep(InitialCache, now, reply, arrivedAt).fetched
  {
  }

  /** A reply with an error code fails the call and leaves the cache as it was. */
  lemma ErrorCodeKeepsCache(c: Cache, now: int, d: TokenReply, arrivedAt: int)
    requires !Serves(c, now) && d.errcode != 0
    ensures AccessTokenStep(c, now, Success(d), arrivedAt) == TokenOutcome(Failure(TokenError(d.errmsg)), c, true)
  {
  }

  /** A successful fetch stores the new token with its expiry and returns it. */
  lemma FetchStoresToken(c: Cache, now: int, d: TokenReply, arrivedAt: int)
    requires !Serves(c, now) && d.errcode == 0
    ensures AccessTokenStep(c, now, Success(d), arrivedAt)
         == TokenOutcome(Success(d.access_token), Cache(d.access_token, arrivedAt + d.expires_in * 1000), true)
  {
  }

  /**
   * After a fetch of a non-empty token that arrived at `arrivedAt`, every call
   * up to and including `arrivedAt + expires_in * 1000` is served from the cache,
   * and the first call after that instant fetches again.
   */
  lemma FetchedTokenServedUntilExpiry(c: Cache, now: int, d: TokenReply, arrivedAt: int,
                                      later: int, reply: Result<TokenReply, HttpError>, laterArrival: int)
    requires !Serves(c, now) && d.errcode == 0 && d.access_token != ""
    ensures var c' := AccessTokenStep(c, now, Success(d), arrivedAt).cache;
            var o := AccessTokenStep(c', later, reply, laterArrival);
            (later <= arrivedAt + d.expires_in * 1000 ==> o == TokenOutcome(Success(d.access_token), c', false))
            && (later > arrivedAt + d.expires_in * 1000 ==> o.fetched)
  {
  }

  /** The requests one token resolution issues: the token GET when it fetches. */
  function TokenRequests(o: TokenOutcome, appId: string, appSecret: string): seq<Request>
  {
    if o.fetched then [Get(TokenUrl(appId, appSecret))] else []
  }

  /** The requests `getTicket` issues: the token resolution's, then the ticket POST if a token was obtained. */
  function TicketRequests(o: TokenOutcome, appId: string, appSecret: string, params: GetTicketParams): (rs: seq<Request>)
    ensures |rs| == (if o.fetched then 1 else 0) + (if o.result.Success? then 1 else 0)
    ensures o.result.Failure? ==> forall i :: 0 <= i < |rs| ==> rs[i] == Get(TokenUrl(appId, appSecret))
    ensures o.result.Success? ==>
              |rs| > 0 && rs[|rs| - 1] == Post(TicketUrl(o.result.value), TicketBodyOf(params))
              && ParamsOf(rs[|rs| - 1].body) == params
              && forall i :: 0 <= i < |rs| - 1 ==> rs[i] == Get(TokenUrl(appId, appSecret))
  {
    TokenRequests(o, appId, appSecret)
      + if o.result.Success? then [Post(TicketUrl(o.result.value), TicketBodyOf(params))] else []
  }

  class WechatService {
    const appId: string
    const appSecret: string
    var tokenExpireTime: int
    var currentToken: string
    /** The HTTP requests issued so far, oldest first. */
    var sent: seq<Request>

    function CacheState(): Cache
      reads this
    {
      Cache(currentToken, tokenExpireTime)
    }

    constructor (appId: string, appSecret: string)
      ensures this.appId == appId && this.appSecret == appSecret
      ensures CacheState() == InitialCache && sent == []
    {
      this.appId := appId;
      this.appSecret := appSecret;
      tokenExpireTime := 0;
      currentToken := "";
      sent := [];
    }

    /** `getAccessToken`: serve the cached token, or fetch, check the error code and store. */
    method GetAccessToken(now: int, reply: Result<TokenReply, HttpError>, arrivedAt: int)
      returns (r: Result<string, HttpError>)
      modifies this
      ensures var o := AccessTokenStep(old(CacheState()), now, reply, arrivedAt);
              r == o.result && CacheState() == o.cache
              && sent == old(sent) + TokenRequests(o, appId, appSecret)
    {
      if now <= tokenExpireTime && currentToken != "" {
        return Success(currentToken);
      }
      sent := sent + [Get(TokenUrl(appId, appSecret))];
      if reply.Failure? {
        return Failure(reply.error);
      }
      var data := reply.value;
      if data.errcode != 0 {
        return Failure(TokenError(data.errmsg));
      }
      currentToken := data.access_token;
      tokenExpireTime := arrivedAt + data.expires_in * 1000;
      return Success(data.access_token);
    }

    /** `getTicket`: resolve the access token first, then post the ticket body and hand back the reply. */
    method GetTicket(params: GetTicketParams, now: int, tokenReply: Result<TokenReply, HttpError>, arrivedAt: int,
                     ticketReply: Result<GetTicketResult, HttpError>)
      returns (r: Result<GetTicketResult, HttpError>)
      modifies this
      ensures var o := AccessTokenStep(old(CacheState()), now, tokenReply, arrivedAt);
              CacheState() == o.cache
              && sent == old(sent) + TicketRequests(o, appId, appSecret, params)
              && r == if o.result.Failure? then Failure(o.result.error) else ticketReply
    {
      var token := GetAccessToken(now, tokenReply, arrivedAt);
      if token.Failure? {
        return Failure(token.error);
      }
      sent := sent + [Post(TicketUrl(token.value), TicketBodyOf(params))];
      return ticketReply;
    }

    /** `getQrCodeByTicket`: one GET of the image URL; the access token is not involved. */
    method GetQrCodeByTicket(ticket: string, reply: Result<seq<byte>, HttpError>, encodeUri: string -> string)
      returns (r: Result<seq<byte>, HttpError>)
      modifies this
      ensures r == reply && CacheState() == old(CacheState())
      ensures sent == old(sent) + [Get(ShowQrCodeUrl(ticket, encodeUri))]
    {
      sent := sent + [Get(ShowQrCodeUrl(ticket, encodeUri))];
      return reply;
    }
  }

  /**
   * Two calls on a freshly constructed service, the second within the lifetime
   * of the token the first one fetched: one fetch, the same token twice.
   */
  method TwoCallsWithinLifetime(appId: string, appSecret: string, first: int, d: TokenReply, arrivedAt: int,
                                second: int, secondReply: Result<TokenReply, HttpError>, secondArrival: int)
    returns (r1: Result<string, HttpError>, r2: Result<string, HttpError>, fetches: nat)
    requires d.errcode == 0 && d.access_token != ""
    requires second <= arrivedAt + d.expires_in * 1000
    ensures r1 == r2 == Success(d.access_token)
    ensures fetches == 1
  {
    var service := new WechatService(appId, appSecret);
    InitialCacheFetches(first, Success(d), arrivedAt);
    r1 := service.GetAccessToken(first, Success(d), arrivedAt);
    r2 := service.GetAccessToken(second, secondReply, secondArrival);
    fetches := |service.sent|;
  }
}
