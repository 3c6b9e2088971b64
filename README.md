# nest-auth QR login, modelled in Dafny

A model of the logic in a small NestJS back end for logging in by WeChat QR code. The model has four parts:

- **Session store** (`Auth`, auth.dfy). `AuthService` keeps `sessionMap`, which maps a session id to the session's SSE response and its expiry timer. `cleanupSession` cancels the timer and deletes the entry. `sse` looks a session up. `getQrCode` checks the id, gets a ticket and its image from WeChat, arms a 60-second expiry timer on a session that already exists, and returns the image as a `data:image/jpeg;base64,` URI. The timer callback writes one `qrcode-expired` SSE frame and then cleans the session up. Responses are objects whose `frames` log what was written to them. Timers are handles in a table of pending callbacks. `FireTimer` is the runtime firing one of them.
- **Server handshake** (`Signature`, signature.dfy). `checkSignature` sorts the app token, timestamp and nonce, concatenates them, hashes the result with SHA-1 and compares the digest with the signature.
- **WeChat client** (`Wechat`, wechat.dfy). `getAccessToken` is a cache over `currentToken` and `tokenExpireTime`. `getTicket` resolves a token and then posts the ticket body. `getQrCodeByTicket` requests the image URL. The network is replaced by input values: each call receives the reply it would get. The service logs the requests it sends in `sent`, so the model can state what goes out and in what order.
- **Directory tree** (`DirTree`, dir_tree.dfy). `getDirectoryTree` filters a directory tree. The file system becomes an input tree, and each regular expression becomes a test on root-relative paths.

`Wrappers` (wrappers.dfy) holds `Option`, `Result`, the HTTP error value and a prefix-stripping helper.

Four behaviours of the code are worth stating plainly, because they are easy to misread:

- A cached token is still served at its expiry instant: the hit test is `now <= tokenExpireTime` (src/wechat/wechat.service.ts:40).
- Nothing in the code inserts into `sessionMap`. From its empty start the map therefore stays empty, so `sse` always fails and no expiry timer is ever armed. The model proves this: every method keeps the key set or shrinks it, and `QrCodeThenSse` runs the login flow on a fresh service. A client sends the id under two different headers: the QR-code route reads `sessionId` (src/auth/controller/auth.controller.ts:55), while `sse` reads `session-id` (src/auth/service/auth.service.ts:57). The model takes each as an optional string argument.
- When `getQrCode` re-arms a session, it overwrites `session.timer` without clearing the old timer. The old timer stays pending in the model too.
- The comment at src/dir-tree.ts:89 says a directory that matches an include pattern keeps all its children. The code does not: line 84 builds the children with the same include patterns, so a file under a matching directory is dropped unless it matches a pattern itself. The model follows the code, and `DirTree.BuildNodeFilesIncluded` states it: every file in the result matches an include pattern.

## Model

| member | source | states |
|---|---|---|
| `Wechat.TokenUrl` | src/wechat/wechat.service.ts:44 | the token URL is the token endpoint followed by the app id and `&secret=` with the secret |
| `Wechat.TicketUrl` | src/wechat/wechat.service.ts:76 | the ticket URL is the create endpoint followed by the access token, which can be read back from it |
| `Wechat.ShowQrCodeUrl` | src/wechat/wechat.service.ts:101-102 | the image URL is the showqrcode endpoint followed by the percent-encoded ticket |
| `Wechat.ShowQrCodeUrlInjective` | src/wechat/wechat.service.ts:101-102 | with an injective encoder, different tickets give different image URLs |
| `Wechat.TicketBodyOf` | src/wechat/wechat.service.ts:79-88 | the posted body gives back exactly the parameters: expire_seconds, action_name, scene_id and scene_str are copied unchanged |
| `Wechat.TicketBodyInjective` | src/wechat/wechat.service.ts:79-88 | different parameters never produce the same body |
| `Wechat.Serves` | src/wechat/wechat.service.ts:40 | the hit test: the cache answers at `now` when `now` is at or before the expiry and the token is non-empty; its properties are stated by `AccessTokenStep`, `HitReturnsCachedToken`, `InitialCacheFetches` and `FetchedTokenServedUntilExpiry` |
| `Wechat.TokenError` | src/wechat/wechat.service.ts:60-63 | the `HttpException` for a non-zero errcode: status 500 and `获取access_token失败: ` followed by the provider's errmsg; `ErrorCodeKeepsCache` states when it is raised |
| `Wechat.AccessTokenStep` | src/wechat/wechat.service.ts:39-69 | a call fetches iff the cache does not serve `now`; a hit and a failure leave the cache unchanged; a returned token is always the cached one |
| `Wechat.HitReturnsCachedToken` | src/wechat/wechat.service.ts:40-42 | when `now <= tokenExpireTime` and the token is non-empty, the cached token is returned with no fetch and no state change |
| `Wechat.InitialCacheFetches` | src/wechat/wechat.service.ts:25-40 | the initial state (empty token, expiry 0) forces a fetch on the first call at any time |
| `Wechat.ErrorCodeKeepsCache` | src/wechat/wechat.service.ts:57-64 | a reply with a non-zero errcode fails with status 500 and the provider's message, and the cache is unchanged |
| `Wechat.FetchStoresToken` | src/wechat/wechat.service.ts:66-68 | a successful fetch stores `access_token` with expiry `arrival + expires_in*1000` and returns it |
| `Wechat.FetchedTokenServedUntilExpiry` | src/wechat/wechat.service.ts:40-67 | after a fetch of a non-empty token, every call up to and including its expiry returns that token without a fetch; the first later call fetches |
| `Wechat.TokenRequests` | src/wechat/wechat.service.ts:44-54 | the token GET one resolution issues: the token URL when it fetched, nothing on a hit; used by the contracts of `TicketRequests` and `WechatService.GetAccessToken` |
| `Wechat.TicketRequests` | src/wechat/wechat.service.ts:74-91 | getTicket sends one token GET when the resolution fetched and none on a cache hit; with no token it sends nothing else; otherwise it then sends exactly one POST, to the URL carrying the token just obtained, with a body that gives back the parameters |
| `Wechat.WechatService.constructor` | src/wechat/wechat.service.ts:25-34 | a new service has an empty token, expiry 0 and no requests sent |
| `Wechat.WechatService.GetAccessToken` | src/wechat/wechat.service.ts:39-69 | result, new cache and requests sent are those of `AccessTokenStep` (one token GET when it fetches, none on a hit) |
| `Wechat.WechatService.GetTicket` | src/wechat/wechat.service.ts:74-95 | the token is resolved first; a token failure is propagated; otherwise the ticket body is posted and the ticket reply is returned |
| `Wechat.WechatService.GetQrCodeByTicket` | src/wechat/wechat.service.ts:100-109 | one GET of the image URL for the encoded ticket; returns the reply; the token cache is untouched |
| `Wechat.TwoCallsWithinLifetime` | src/wechat/wechat.service.ts:39-69 | on a fresh service, two calls where the second falls within the fetched token's lifetime issue exactly one fetch and return the same token |
| `Signature.AtMost` | src/auth/service/auth.service.ts:41 | the comparison of the default `sort()`: character by character, a proper prefix first; its order properties are stated by `AtMostTotal`, `AtMostAntisymmetric` and `AtMostTransitive`, and it defines `Sorted` in the contracts of `Insert`, `Sort` and `SortedUnique` |
| `Signature.AtMostTotal` | src/auth/service/auth.service.ts:40-41 | the default string order used by `sort` is total |
| `Signature.AtMostAntisymmetric` | src/auth/service/auth.service.ts:40-41 | two strings that each sort no later than the other are equal |
| `Signature.AtMostTransitive` | src/auth/service/auth.service.ts:40-41 | the string order is transitive |
| `Signature.Insert` | src/auth/service/auth.service.ts:40-41 | inserting into a sorted sequence keeps it sorted and adds exactly the one string |
| `Signature.Sort` | src/auth/service/auth.service.ts:40-41 | `sort()` returns a sorted permutation of its input |
| `Signature.SortedUnique` | src/auth/service/auth.service.ts:40-41 | two sorted sequences with the same elements are equal, so the sorted order does not depend on the input order |
| `Signature.Join` | src/auth/service/auth.service.ts:42 | `join('')`: the strings one after another with no separator; used by `SignedString`, whose order independence `SignedStringSymmetric` states |
| `Signature.SignedString` | src/auth/service/auth.service.ts:40-42 | the string that is hashed: token, timestamp and nonce sorted and joined with no separator; `Sort` states the sort and `SignedStringSymmetric` states the result's independence of argument order |
| `Signature.CheckSignature` | src/auth/service/auth.service.ts:38-52 | returns `echostr` iff SHA-1 of the sorted, concatenated token, timestamp and nonce equals the signature, and `false` otherwise |
| `Signature.SignedStringSymmetric` | src/auth/service/auth.service.ts:40-42 | the hashed string is the same for any arrangement of the three values |
| `Signature.CheckSignaturePermutationInvariant` | src/auth/service/auth.service.ts:38-52 | permuting token, timestamp and nonce never changes the verdict |
| `Auth.DataUri` | src/auth/service/auth.service.ts:96 | the result is `data:image/jpeg;base64,` followed by the base64 text, which can be read back from it |
| `Auth.HasId` | src/auth/service/auth.service.ts:65 | the negation of `!sessionId`: the header is present and non-empty; used by the contracts of `AuthService.GetQrCode` and `QrCodeThenSse` |
| `Auth.QrTicketParams` | src/auth/service/auth.service.ts:68-72 | the ticket body posted for a login has action_name `QR_STR_SCENE` (a temporary string-scene code), no scene_id, the session id as scene_str and a 60-second lifetime |
| `Auth.HasTicket` | src/auth/service/auth.service.ts:74 | the negation of `!ticketResult?.ticket`: the reply carries a non-empty ticket; used by the contracts of `ImageRequests` and `QrResult` |
| `Auth.ImageRequests` | src/auth/service/auth.service.ts:79-81 | the image is requested at most once, exactly when a token and a non-empty ticket were obtained, and that request is the GET of the showqrcode URL for the obtained ticket |
| `Auth.QrResult` | src/auth/service/auth.service.ts:64-96 | succeeds iff a token, a non-empty ticket and the image were all obtained, and then answers the data URI of that image's base64; a token, ticket or image failure is propagated unchanged; a ticket reply without a ticket fails with the "ticket failed" 500 error |
| `Auth.AfterCleanup` | src/auth/service/auth.service.ts:28-36 | the store after `cleanupSession`: the entry deleted and its timer, if any, cancelled, or the store unchanged when the id is absent; stated by `CleanupRemovesOnlyId`, `CleanupCancelsTimer` and `CleanupIdempotent` |
| `Auth.CleanupRemovesOnlyId` | src/auth/service/auth.service.ts:28-36 | after cleanup the map has no entry for the id and every other entry is unchanged |
| `Auth.CleanupCancelsTimer` | src/auth/service/auth.service.ts:31-34 | cleanup cancels the removed session's timer, if it has one, and no other timer |
| `Auth.CleanupIdempotent` | src/auth/service/auth.service.ts:29-35 | cleanup of an absent id changes nothing, so a second cleanup equals the first |
| `Auth.Response.Write` | src/auth/service/auth.service.ts:88-92 | a write appends exactly that chunk to the stream |
| `Auth.AuthService.constructor` | src/auth/service/auth.service.ts:19-25 | the session map and the timer table start empty |
| `Auth.AuthService.CleanupSession` | src/auth/service/auth.service.ts:28-36 | the new map and timer table are those of `AfterCleanup`; the store invariant is kept |
| `Auth.AuthService.Sse` | src/auth/service/auth.service.ts:56-63 | fails with 502 "sessionId is required" iff the header is missing or has no entry; otherwise returns that entry's response; nothing changes |
| `Auth.AuthService.GetQrCode` | src/auth/service/auth.service.ts:64-97 | a missing or empty id fails before any upstream call; the answer and the requests sent are those of `QrResult` and `TicketRequests`/`ImageRequests`; on success an existing entry gets a fresh 60 000 ms timer; no entry is ever added or removed |
| `Auth.AuthService.FireTimer` | src/auth/service/auth.service.ts:87-94 | a pending timer appends exactly the `qrcode-expired` frame to its captured response and then cleans its session id up; a cleared or fired handle does nothing |
| `Auth.QrCodeThenSse` | src/auth/service/auth.service.ts:20-97 | on a fresh service, a QR-code request followed by opening the SSE stream always fails to find the session, because nothing inserts into the map |
| `DirTree.WithDefaults` | src/dir-tree.ts:30 | the options with their defaults applied: a given option is used, a missing one takes its default; `DefaultSettings` states the defaults |
| `DirTree.DefaultSettings` | src/dir-tree.ts:30 | with no options, node_modules is excluded, there is no depth limit and there are no patterns |
| `DirTree.PathMatchesAny` | src/dir-tree.ts:52-54 | true iff some pattern accepts the path (`shouldExclude` applies it to the exclude patterns) |
| `DirTree.ShouldExclude` | src/dir-tree.ts:41-44 | true iff some exclude pattern accepts the root-relative path |
| `DirTree.TooDeep` | src/dir-tree.ts:63 | the depth cut `depth > maxDepth`, never true for an infinite limit; used by `BuildNode`, and its effect is stated by `BuildNodeWithinDepth` and `DepthLimitAboveHeightCutsNothing` |
| `DirTree.BuildNode` | src/dir-tree.ts:62-121 | `buildDirectoryNode`: the node for an entry, or None where the source returns null; stated by the `BuildNode*` lemma rows below (`BuildNodePrunes`, `BuildNodeWithinDepth`, `BuildNodeOutsideNodeModules`, `BuildNodeUnexcluded`, `BuildNodeFilesIncluded`, `BuildNodeWitnessed`, `KeptWithoutIncludePatterns`, `DirectoryKeptWithIncludePatterns`) |
| `DirTree.BuildChildren` | src/dir-tree.ts:82-85 | each listed entry built at its joined path one level deeper, nulls dropped, in listing order; stated by the `BuildChildren*` lemma rows below (`BuildChildrenPrune`, `BuildChildrenAreTheSurvivors`, and the depth, node_modules, exclude and include lemmas) |
| `DirTree.BuildNodePrunes` | src/dir-tree.ts:62-121 | a built node is a pruning of its entry: same name, path and kind; a file keeps its size; directory children come from the entry's children in listing order |
| `DirTree.BuildChildrenPrune` | src/dir-tree.ts:82-85 | the children embed in the listing in order, each at its parent's path joined with its own name |
| `DirTree.BuildChildrenAreTheSurvivors` | src/dir-tree.ts:82-85 | every listed child that survives is among the children, and every child is the node of some listed entry |
| `DirTree.BuildNodeWithinDepth` | src/dir-tree.ts:63 | with a finite limit, no node lies deeper below the root than `maxDepth` |
| `DirTree.BuildChildrenWithinDepth` | src/dir-tree.ts:84 | the depth bound for the children, which are built one level deeper |
| `DirTree.DepthLimitAboveHeightCutsNothing` | src/dir-tree.ts:63 | a limit at or above the tree's height gives the same result as no limit (Infinity) |
| `DirTree.ChildrenDepthLimitAboveHeight` | src/dir-tree.ts:82-85 | the same for a list of children |
| `DirTree.BuildNodeOutsideNodeModules` | src/dir-tree.ts:72-74 | with `excludeNodeModules`, no node_modules directory and nothing beneath one appears |
| `DirTree.BuildChildrenOutsideNodeModules` | src/dir-tree.ts:82-85 | the same for the children of a directory not inside node_modules |
| `DirTree.BuildNodeUnexcluded` | src/dir-tree.ts:77-117 | no node appears whose own relative path, or that of a directory above it, matches an exclude pattern |
| `DirTree.BuildChildrenUnexcluded` | src/dir-tree.ts:82-85 | the same for the children of a directory that was not excluded |
| `DirTree.BuildNodeFilesIncluded` | src/dir-tree.ts:107-111 | with include patterns, every file in the result matches one, at any depth, even under a matching directory |
| `DirTree.BuildChildrenFilesIncluded` | src/dir-tree.ts:82-85 | the same for the children |
| `DirTree.BuildNodeWitnessed` | src/dir-tree.ts:88-99 | with include patterns, every kept node matches one or has a kept node below it that does |
| `DirTree.BuildChildrenWitnessed` | src/dir-tree.ts:82-85 | the same for the children |
| `DirTree.KeptWithoutIncludePatterns` | src/dir-tree.ts:62-120 | without include patterns, a directory is kept with its built children and a file with its size, unless it is too deep, a node_modules directory or excluded; other entries are dropped |
| `DirTree.DirectoryKeptWithIncludePatterns` | src/dir-tree.ts:88-100 | with include patterns, an eligible directory is kept iff it matches one or at least one child survived |
| `DirTree.GetDirectoryTree` | src/dir-tree.ts:29-125 | `getDirectoryTree`: the root's built children when the root survives as a directory, otherwise empty; stated by `DirectoryTreeProperties` |
| `DirTree.DirectoryTreeProperties` | src/dir-tree.ts:123-125 | empty when the root is not a directory or is dropped; otherwise every child entry that survives the filter is in the returned array and every element comes from a child entry; and the array has all the properties above |

## Left out

- HTTP transport (axios, `lastValueFrom`, the 5-second timeout, redirects). Each upstream call becomes the reply it receives, with `Failure` for a transport error, and the service keeps a log of the requests it sends.
- `Date.now()` becomes parameters. `getAccessToken` reads the clock twice: once for the cache check (`now`) and once when the reply arrives (`arrivedAt`).
- The library primitives are parameters and not modelled: SHA-1 (FIPS 180-4) as a hex digest, Base64 (section 4 of RFC 4648), `encodeURIComponent` (percent-encoding, section 2.1 of RFC 3986), `RegExp.test`, and `path.relative`/`join`/`basename` (paths are a base plus a list of names, with no normalisation).
- Real timers and SSE streams. A timer is a handle in a table of pending callbacks, and firing is the explicit `FireTimer`. A response is an object with a log of written frames. The timer's due time is recorded as its delay but not scheduled against a clock.
- Concurrency between timer callbacks and request handlers. Only sequential interleavings of whole method calls are modelled.
- JavaScript numbers are modelled as unbounded integers, so float rounding of `expires_in * 1000` and non-integer `maxDepth` values are not modelled.
- Strings compare by Unicode scalar value. JavaScript compares UTF-16 code units, which differs only for characters outside the Basic Multilingual Plane.
- Config values (`WECHAT_APPID`, `WECHAT_APPSECRET`, `WECHAT_APP_TOKEN`) are plain strings, so an undefined config value is not modelled.
- Console logging is not modelled: the comparison result in `checkSignature` (auth.service.ts:44), the token URL with the app secret in it (wechat.service.ts:45), the token reply (wechat.service.ts:55) and the ticket URL (wechat.service.ts:77).
- Missing values: a `sessionId` header that is absent is `None`. A reply without `errcode` has errcode 0. A ticket reply whose data is missing has no ticket. A token reply with errcode 0 always carries an `access_token` string and an integer `expires_in`. A reply without them, where JavaScript would store `undefined` or a `NaN` expiry, is not modelled.
- Stateful regular expressions (a `g` or `y` flag makes `test` depend on `lastIndex`) are not modelled, because a pattern is a pure test. Converting string patterns to `RegExp` is not modelled either.
- `fs.statSync` errors (an entry removed during the walk, permission errors) are not modelled. Symbolic links are followed by `statSync` and appear as whatever they point to.
- The pass-through endpoints `sendTemplateMessage`, `getTemplateList`, `getUserInfo` (in both services) and `eventPush` are not part of this model. They have no logic: `eventPush` only throws.
- The controller, module wiring, bootstrap and DTO validation files are not part of this model.
