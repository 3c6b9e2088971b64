/**
 * The QR-login session store of `AuthService` (src/auth/service/auth.service.ts).
 *
 * The service keeps `sessionMap`, from a session id to the session's SSE
 * response and the expiry timer armed for it. Responses are objects whose
 * `frames` record what was written to them. Timers are handles; the table
 * `timers` holds the ones armed and neither cleared nor fired, each with the
 * callback it would run, and `FireTimer` runs one. Base64 and
 * `encodeURIComponent` are parameters, and so are the WeChat replies and the clock.
 */
module Auth {
  import opened Wrappers
  import opened Wechat

  /** An Express response used as an SSE stream. */
  class Response {
    /** Everything written to the stream, in order. */
    var frames: seq<string>

    constructor ()
      ensures frames == []
    {
      frames := [];
    }

    method Write(chunk: string)
      modifies this
      ensures frames == old(frames) + [chunk]
    {
      frames := frames + [chunk];
    }
  }

  type TimerHandle = nat

  /** A session: its SSE response and the expiry timer armed for it, if any. */
  datatype Session = Session(response: Response, timer: Option<TimerHandle>)

  /** The callback of an armed expiry timer: the id it cleans up, the response it writes to, its delay. */
  datatype Expiry = Expiry(sessionId: string, response: Response, delayMs: int)

  /** The session map together with the table of pending timers. */
  datatype Store = Store(sessions: map<string, Session>, timers: map<TimerHandle, Expiry>)

  /** The QR code's lifetime in seconds (`qrCodeExpireTime`). */
  const QrCodeExpireTime: int := 60

  const SessionIdRequired: HttpError := HttpError(BadGateway, "sessionId is required")

  /** "获取 ticket 失败". */
  const TicketFailed: HttpError := HttpError(InternalServerError, "\U{83B7}\U{53D6} ticket \U{5931}\U{8D25}")

  const DataUriPrefix: string := "data:image/jpeg;base64,"

  /** `AuthSSEMessage.QRCODE_EXPIRED` of src/constants/enum.constants.ts. */
  const QrCodeExpired: string := "qrcode-expired"

  /** The SSE frame written when a QR code expires: `data: {"message":"qrcode-expired"}` and a blank line. */
  const ExpiredFrame: string := "data: {\"message\":\"" + QrCodeExpired + "\"}\n\n"

  /** The replies the WeChat endpoints give if they are asked: token, ticket, image. */
  datatype Upstream = Upstream(
    token: Result<TokenReply, HttpError>,
    ticket: Result<GetTicketResult, HttpError>,
    image: Result<seq<byte>, HttpError>)

  /** The data URI returned for a QR image whose bytes encode to `base64`. */
  function DataUri(base64: string): (uri: string)
    ensures StripPrefix(uri, DataUriPrefix) == Some(base64)
  {
    StripPrefixOfConcat(DataUriPrefix, base64);
    DataUriPrefix + base64
  }

  /** A `sessionId` header that JavaScript treats as present: given and non-empty. */
  predicate HasId(header: Option<string>)
  {
    header.Some? && header.value != ""
  }

  /** A ticket reply that carries a non-empty ticket. */
  predicate HasTicket(t: GetTicketResult)
  {
    t.ticket.Some? && t.ticket.value != ""
  }

  /** The ticket request for a login: a string scene holding the session id, valid for 60 seconds. */
  function QrTicketParams(id: string): (p: GetTicketParams)
    ensures TicketBodyOf(p).action_name == QR_STR_SCENE
    ensures TicketBodyOf(p).action_info.scene.scene_id == None
    ensures TicketBodyOf(p).action_info.scene.scene_str == Some(id)
    ensures TicketBodyOf(p).expire_seconds == Some(QrCodeExpireTime)
  {
    GetTicketParams(QR_STR_SCENE, None, Some(id), Some(QrCodeExpireTime))
  }

  /** The image request `getQrCode` issues: only once a token and a ticket were obtained. */
  function ImageRequests(o: TokenOutcome, net: Upstream, encodeUri: string -> string): (rs: seq<Request>)
    ensures |rs| <= 1
    ensures |rs| == 1 <==> o.result.Success? && net.ticket.Success? && HasTicket(net.ticket.value)
    ensures |rs| == 1 ==> rs[0] == Get(ShowQrCodeUrl(net.ticket.value.ticket.value, encodeUri))
  {
    if o.result.Success? && net.ticket.Success? && HasTicket(net.ticket.value) then
      [Get(ShowQrCodeUrl(net.ticket.value.ticket.value, encodeUri))]
    else []
  }

  /** What `getQrCode` answers for a valid id, given the token resolution `o` and the replies. */
  function QrResult(o: TokenOutcome, net: Upstream, base64: seq<byte> -> string): (r: Result<string, HttpError>)
    ensures r.Success? <==>
              o.result.Success? && net.ticket.Success? && HasTicket(net.ticket.value) && net.image.Success?
    ensures r.Success? ==> StripPrefix(r.value, DataUriPrefix) == Some(base64(net.image.value))
    ensures o.result.Failure? ==> r == Failure(o.result.error)
    ensures o.result.Success? && net.ticket.Failure? ==> r == Failure(net.ticket.error)
    ensures o.result.Success? && net.ticket.Success? && !HasTicket(net.ticket.value) ==> r == Failure(TicketFailed)
    ensures o.result.Success? && net.ticket.Success? && HasTicket(net.ticket.value) && net.image.Failure? ==>
              r == Failure(net.image.error)
  {
    if o.result.Failure? then Failure(o.result.error)
    else if net.ticket.Failure? then Failure(net.ticket.error)
    else if !HasTicket(net.ticket.value) then Failure(TicketFailed)
    else if net.image.Failure? then Failure(net.image.error)
    else Success(DataUri(base64(net.image.value)))
  }

  /** `cleanupSession`: cancel the session's timer, if it has one, and delete the entry. */
  function AfterCleanup(s: Store, id: string): Store
  {
    if id in s.sessions then
      var timers := if s.sessions[id].timer.Some? then s.timers - {s.sessions[id].timer.value} else s.timers;
      Store(s.sessions - {id}, timers)
    else s
  }

  /** Cleanup removes exactly the entry for `id`; every other entry is unchanged. */
  lemma CleanupRemovesOnlyId(s: Store, id: string)
    ensures AfterCleanup(s, id).sessions.Keys == s.sessions.Keys - {id}
    ensures forall k :: k in AfterCleanup(s, id).sessions ==> AfterCleanup(s, id).sessions[k] == s.sessions[k]
  {
  }

  /** Cleanup cancels the timer of the removed session, if it had one, and no other timer. */
  lemma CleanupCancelsTimer(s: Store, id: string)
    ensures id in s.sessions && s.sessions[id].timer.Some? ==>
              AfterCleanup(s, id).timers == s.timers - {s.sessions[id].timer.value}
    ensures !(id in s.sessions && s.sessions[id].timer.Some?) ==> AfterCleanup(s, id).timers == s.timers
  {
  }

  /** Cleanup of an id without an entry changes nothing, so a second cleanup is a no-op. */
  lemma CleanupIdempotent(s: Store, id: string)
    ensures id !in s.sessions ==> AfterCleanup(s, id) == s
    ensures AfterCleanup(AfterCleanup(s, id), id) == AfterCleanup(s, id)
  {
  }

  class AuthService {
    const wechat: WechatService
    var sessionMap: map<string, Session>
    /** The pending timers: armed, and neither cleared nor fired. */
    var timers: map<TimerHandle, Expiry>
    /** The next handle the timer runtime gives out. */
    var nextHandle: TimerHandle

    function State(): Store
      reads this
    {
      Store(sessionMap, timers)
    }

    /**
     * Handles are never reused, and a session's timer, while pending, is the
     * 60-second expiry of that same session and response.
     */
    ghost predicate Valid()
      reads this
    {
      && (forall h :: h in timers ==> h < nextHandle)
      && (forall id :: id in sessionMap && sessionMap[id].timer.Some? ==>
            var h := sessionMap[id].timer.value;
            h < nextHandle
            && (h in timers ==> timers[h] == Expiry(id, sessionMap[id].response, QrCodeExpireTime * 1000)))
    }

    constructor (wechat: WechatService)
      ensures Valid() && this.wechat == wechat
      ensures sessionMap == map[] && timers == map[]
    {
      this.wechat := wechat;
      sessionMap := map[];
      timers := map[];
      nextHandle := 0;
    }

    /** `cleanupSession`. */
    method CleanupSession(sessionId: string)
      requires Valid()
      modifies this
      ensures Valid() && nextHandle == old(nextHandle)
      ensures State() == AfterCleanup(old(State()), sessionId)
    {
      if sessionId in sessionMap {
        var session := sessionMap[sessionId];
        if session.timer.Some? {
          timers := timers - {session.timer.value};
        }
        sessionMap := sessionMap - {sessionId};
      }
    }

    /** `sse`: the stored response of the session named by the `session-id` header. */
    method Sse(sessionId: Option<string>) returns (r: Result<Response, HttpError>)
      ensures r.Success? <==> sessionId.Some? && sessionId.value in sessionMap
      ensures r.Success? ==> r.value == sessionMap[sessionId.value].response
      ensures r.Failure? ==> r.error == SessionIdRequired
    {
      if sessionId.None? || sessionId.value !in sessionMap {
        return Failure(SessionIdRequired);
      }
      return Success(sessionMap[sessionId.value].response);
    }

    /**
     * `getQrCode`: check the id, obtain a ticket and its image from WeChat,
     * arm the expiry timer of an existing session, and return the image as a
     * data URI. No entry is ever added.
     */
    method GetQrCode(sessionId: Option<string>, now: int, arrivedAt: int, net: Upstream,
                     encodeUri: string -> string, base64: seq<byte> -> string)
      returns (r: Result<string, HttpError>)
      requires Valid()
      modifies this, wechat
      ensures Valid()
      ensures sessionMap.Keys == old(sessionMap.Keys)
      ensures !HasId(sessionId) ==> r == Failure(SessionIdRequired) && unchanged(this) && unchanged(wechat)
      ensures HasId(sessionId) ==>
                var o := AccessTokenStep(old(wechat.CacheState()), now, net.token, arrivedAt);
                && wechat.CacheState() == o.cache
                && wechat.sent == old(wechat.sent)
                                  + TicketRequests(o, wechat.appId, wechat.appSecret, QrTicketParams(sessionId.value))
                                  + ImageRequests(o, net, encodeUri)
                && r == QrResult(o, net, base64)
      ensures HasId(sessionId) && r.Success? && sessionId.value in old(sessionMap) ==>
                var id, h := sessionId.value, old(nextHandle);
                && h !in old(timers)
                && timers == old(timers)[h := Expiry(id, old(sessionMap)[id].response, QrCodeExpireTime * 1000)]
                && sessionMap == old(sessionMap)[id := Session(old(sessionMap)[id].response, Some(h))]
      ensures !(HasId(sessionId) && r.Success? && sessionId.value in old(sessionMap)) ==>
                sessionMap == old(sessionMap) && timers == old(timers) && nextHandle == old(nextHandle)
    {
      if sessionId.None? || sessionId.value == "" {
        return Failure(SessionIdRequired);
      }
      var id := sessionId.value;
      var ticketResult := wechat.GetTicket(QrTicketParams(id), now, net.token, arrivedAt, net.ticket);
      if ticketResult.Failure? {
        return Failure(ticketResult.error);
      }
      if !HasTicket(ticketResult.value) {
        return Failure(TicketFailed);
      }
      var image := wechat.GetQrCodeByTicket(ticketResult.value.ticket.value, net.image, encodeUri);
      if image.Failure? {
        return Failure(image.error);
      }
      var encoded := base64(image.value);
      if id in sessionMap {
        var session := sessionMap[id];
        var h := nextHandle;
        timers := timers[h := Expiry(id, session.response, QrCodeExpireTime * 1000)];
        nextHandle := nextHandle + 1;
        sessionMap := sessionMap[id := session.(timer := Some(h))];
      }
      return Success(DataUri(encoded));
    }

    /**
     * The runtime fires the pending timer `h`: its callback writes the expiry
     * frame to the captured response, then cleans up the session id. A handle
     * that is not pending (cleared, or fired already) does nothing.
     */
    method FireTimer(h: TimerHandle)
      requires Valid()
      modifies this, if h in timers then {timers[h].response} else {}
      ensures Valid() && nextHandle == old(nextHandle)
      ensures h !in old(timers) ==> State() == old(State())
      ensures h in old(timers) ==>
                var cb := old(timers)[h];
                && cb.response.frames == old(cb.response.frames) + [ExpiredFrame]
                && State() == AfterCleanup(Store(old(sessionMap), old(timers) - {h}), cb.sessionId)
    {
      if h !in timers {
        return;
      }
      var cb := timers[h];
      timers := timers - {h};
      cb.response.Write(ExpiredFrame);
      CleanupSession(cb.sessionId);
    }
  }

  /**
   * From a freshly constructed service, a QR-code request followed by opening
   * the SSE stream with the same id (the two routes read it from different
   * headers, `sessionId` and `session-id`): the stream is never found, because
   * no operation inserts into the session map.
   */
  method QrCodeThenSse(appId: string, appSecret: string, sessionId: Option<string>, now: int, arrivedAt: int,
                       net: Upstream, encodeUri: string -> string, base64: seq<byte> -> string)
    returns (qr: Result<string, HttpError>, channel: Result<Response, HttpError>)
    ensures channel == Failure(SessionIdRequired)
    ensures qr.Success? ==> net.image.Success? && qr.value == DataUri(base64(net.image.value))
    ensures !HasId(sessionId) ==> qr == Failure(SessionIdRequired)
  {
    var wechat := new WechatService(appId, appSecret);
    var auth := new AuthService(wechat);
    qr := auth.GetQrCode(sessionId, now, arrivedAt, net, encodeUri, base64);
    channel := auth.Sse(sessionId);
  }
}
