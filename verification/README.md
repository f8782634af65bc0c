# Group-buying front end: a Dafny model of its client logic

This project models the decision logic and state updates of the React
front end of a neighbourhood group-buying site ("알뜰모아"). Users log in
with a password, Kakao or Google; browse and filter sharing posts; like a
post and join its chat room; edit their own posts on a my-page view; and an
administrator sees a dashboard.

Each core source file becomes one Dafny module:

- `UserSlice`: the identity store.
- `HttpClient`: the authenticated request client with its refresh-once rule.
- `ChatModal`: the chat window with its single STOMP client.
- `BoardDetail`: the post detail view.
- `MyPage`: the my-page post editor.
- `BoardWrite`: the write page.
- `PostsPage`: the public post list.
- `AdminPage`: the admin dashboard.
- `Login`: the login view.
- `OauthRedirect`, `KakaoRedirect` and `GoogleRedirect`: the three OAuth landing pages.
- `Header`: the site header.

Shared modules:

- `Wrappers` holds `Option`, the model of a missing value where `null` and `undefined` behave alike, and `Nullable`, which keeps them apart where strict equality (`===`) can tell them apart.
- `Strings` holds the JavaScript string operations the views use: `split`, `join`, `trim`, `includes`, `startsWith`, `endsWith`, ASCII `toLowerCase` and number printing.
- `Seqs` holds `filter`, `map`, "drop index k" and counting.
- `Cookies` is the cookie jar.
- `Effects` holds the ordered browser effects a handler performs and their interpreter.
- `ImageList` holds the preview/file pairing and main-index rules that the my-page editor and the write page share.

Where a view mutates state in place, the model is a class:

- the store;
- the request config and its `_retry` flag;
- the chat modal and its client slot;
- the detail, my-page, write-page and header views;
- the OAuth handler's run-once ref.

Each class method's ensures give the new value of every field it may change, in terms of pure specification functions of the old state. `UserSlice.UserStore` and `MyPage.MyPageView` state this through a `State()` record of all their fields. Handlers that do a fixed sequence of browser actions return an ordered trace of `Effects.Effect`. `Effects.Apply` interprets that trace, so lemmas can state what the page, cookies and store hold afterwards.

Foreign libraries become inputs:

- `jwtDecode` is a function `decode: string -> Option<Claims>`, where `None` means the token could not be decoded.
- Server calls are reduced to their outcome: success, failure or status code.
- `URL.createObjectURL` is a function from file to URL.

The store as `userSlice.ts` defines it:

- It has no loading flag, no `setNickname` and no unread counters. The views that read them (myPage.tsx:57, Header/index.tsx:42-51) get them as inputs here.
- The header reads `role`, `unreadCount` and the unread-room functions from the store, but the store does not define them. Here they are inputs.
- The store's `memberRoleList` takes only the singular `role` claim.

## Model

| member | source | states |
|---|---|---|
| UserSlice.Hydrated | vite-project/src/store/userSlice.ts:25-41 | a decoded token sets email, nickname and role from the claims and marks the session authenticated; the email is `undefined` when the token has no `sub`, and `null` exactly when the decode fails, which gives the logged-out session |
| UserSlice.Step | vite-project/src/store/userSlice.ts:25-52 | after either action `isAuthenticated` is defined; it is true exactly for a successful decode, and exactly when the email is not `null`; false means every identity field is null |
| UserSlice.RunSettles | vite-project/src/store/userSlice.ts:25-52 | once any action has run, `isAuthenticated` is never null again |
| UserSlice.RunIsLastAction | vite-project/src/store/userSlice.ts:28-33 | the state after a run of actions depends only on the last action: no earlier identity is merged in |
| UserSlice.LogoutIdempotent | vite-project/src/store/userSlice.ts:44-52 | logging out twice equals logging out once, and gives the anonymous state |
| UserSlice.UserStore.constructor | vite-project/src/store/userSlice.ts:18-23 | the store starts with every field null, including `isAuthenticated` |
| UserSlice.UserStore.SetUserFromToken | vite-project/src/store/userSlice.ts:25-41 | the new state is `Step` of the old one, and is `Hydrated(decode(token))` |
| UserSlice.UserStore.Logout | vite-project/src/store/userSlice.ts:44-52 | the state becomes anonymous and the `accessToken` cookie is removed, nothing else in the jar |
| Cookies.CookieJar.Get | vite-project/src/apis/axiosInstance.ts:20 | a cookie is read exactly when it is set, with its stored value |
| Cookies.CookieJar.Set | vite-project/src/views/Member/login.tsx:52-55 | one cookie is written with its options; the others are unchanged |
| Cookies.CookieJar.Remove | vite-project/src/store/userSlice.ts:45 | one cookie is dropped; the others are unchanged |
| Effects.Perform | vite-project/src/views/oauth/kakao.tsx:28-46 | the one interpreter of the browser actions every handler's trace uses (cookie set, store call, `history.replaceState`, `navigate`, `alert`; the cited Kakao handler does the first four in a row): each effect changes exactly its own part of the page state |
| Effects.ApplyAppend | vite-project/src/views/Member/login.tsx:52-78 | running two effect sequences one after the other is running their concatenation |
| Effects.ApplyKeepsSession | vite-project/src/views/Member/login.tsx:80-85 | a trace without a store hydration leaves the session as it was |
| Login.Head | vite-project/src/views/Member/login.tsx:67-69 | a list role gives its first element (none for an empty list), a scalar role gives itself |
| Login.ResolveRole | vite-project/src/views/Member/login.tsx:66-69 | the `roles` claim is used when truthy, else `role`; a list gives its head |
| Login.PostLoginRoute | vite-project/src/views/Member/login.tsx:70-78 | the route is `/admin` exactly when the token decodes and its resolved role is `ADMIN`, otherwise `/` |
| Login.PluralClaimWins | vite-project/src/views/Member/login.tsx:66 | a plural `roles` list headed by ADMIN routes to `/admin` even when the scalar `role` says USER |
| Login.LoginErrorMessage | vite-project/src/views/Member/login.tsx:82-85 | the server's message when present and non-empty, else the fixed default |
| Login.SubmitEffects | vite-project/src/views/Member/login.tsx:52-85 | a rejected login only alerts; an issued token is written to the cookie first; a truthy token then hydrates the store, shows the success alert and navigates by role, in that order, and an empty one does nothing more |
| Login.SubmitOutcome | vite-project/src/views/Member/login.tsx:52-78 | after a login with a truthy token the cookie holds it, the store holds its identity and the page is on the role's route |
| Login.RejectedKeepsSession | vite-project/src/views/Member/login.tsx:80-85 | a failed login changes neither cookies nor identity |
| Login.InputChanged | vite-project/src/views/Member/login.tsx:26-32 | only the named field changes: to `checked` for a checkbox, to the value otherwise |
| OauthRedirect.Decide | vite-project/src/views/Member/OauthRedirectHandler.tsx:22-52 | error together with message takes precedence; otherwise a token signs in; with neither, the visit is rejected |
| OauthRedirect.RedirectEffects | vite-project/src/views/Member/OauthRedirectHandler.tsx:26-52 | sign-in sets the cookie, hydrates, then replaces the route by role; both other branches alert, then replace the route with `/login` |
| OauthRedirect.ErrorIgnoresToken | vite-project/src/views/Member/OauthRedirectHandler.tsx:26-29 | with an error and a message, a token in the query changes no cookie and no identity, and the page ends on `/login` |
| OauthRedirect.SignInOutcome | vite-project/src/views/Member/OauthRedirectHandler.tsx:30-47 | a token ends with the store hydrated from it and the page on the role route (`/` when it does not decode) |
| OauthRedirect.OauthRedirectHandler.constructor | vite-project/src/views/Member/OauthRedirectHandler.tsx:13 | the run-once ref starts unset, so the first effect run redirects |
| OauthRedirect.OauthRedirectHandler.RunEffect | vite-project/src/views/Member/OauthRedirectHandler.tsx:18-20 | once the ref is set the effect does nothing; otherwise it performs the redirect |
| OauthRedirect.OauthRedirectHandler.Cleanup | vite-project/src/views/Member/OauthRedirectHandler.tsx:55-57 | cleanup sets the run-once ref |
| OauthRedirect.MountTwice | vite-project/src/views/Member/OauthRedirectHandler.tsx:18-57 | effect, cleanup, effect: the redirect happens on the first run and the second run does nothing |
| KakaoRedirect.KakaoRoute | vite-project/src/views/oauth/kakao.tsx:40-50 | `/admin` exactly when the token decodes with the scalar role `ADMIN`, else `/` |
| KakaoRedirect.ListRoleIsNotUnwrapped | vite-project/src/views/oauth/kakao.tsx:40-46 | a list role `["ADMIN"]` routes to `/` here, unlike on the login page |
| KakaoRedirect.ScalarRoleAgrees | vite-project/src/views/oauth/kakao.tsx:40-46 | for tokens with only a scalar role, the Kakao route is the login page's route |
| KakaoRedirect.RedirectEffects | vite-project/src/views/oauth/kakao.tsx:18-53 | nothing unless the query mentions `accessToken`; a non-empty token sets the cookie, hydrates, strips the query and navigates by role, in that order; an empty one navigates to `/login` |
| KakaoRedirect.NoTokenNoChange | vite-project/src/views/oauth/kakao.tsx:18-20 | without `accessToken` in the query the page state is unchanged |
| GoogleRedirect.RedirectEffects | vite-project/src/views/oauth/GoogleRedirectHandler.tsx:13-38 | the Kakao shape, but a token always navigates to `/` |
| GoogleRedirect.AlwaysHome | vite-project/src/views/oauth/GoogleRedirectHandler.tsx:20-34 | a token ends on `/` whatever its role, with the cookie set, the store hydrated and the query stripped |
| HttpClient.Bearer | vite-project/src/apis/axiosInstance.ts:22 | the header is `Bearer ` followed by exactly the token |
| HttpClient.OnRequest | vite-project/src/apis/axiosInstance.ts:18-24 | `Authorization` is set to the bearer token only for a truthy cookie token; otherwise the headers are unchanged; `_retry` is never touched |
| HttpClient.Decide | vite-project/src/apis/axiosInstance.ts:55-73 | a refresh is re-issued exactly for a 401 without `_retry` and a successful refresh; a 401 whose refresh fails redirects to `/login`; everything else is rejected unchanged |
| HttpClient.OnResponseError | vite-project/src/apis/axiosInstance.ts:49-74 | `_retry` is set for a 401; on re-issue, the cookie and the header both carry the new token; otherwise neither changes |
| HttpClient.RetryAfter | vite-project/src/apis/axiosInstance.ts:55-56 | the flag is set exactly when it already was or the status is 401 |
| HttpClient.ReissuedAtMostOnce | vite-project/src/apis/axiosInstance.ts:55-66 | over any sequence of failures of one request, the request is re-issued at most once, and never if it was already retried |
| ChatModal.SenderLabel | vite-project/src/views/Chat/chat-modal.tsx:143-146 | `나` for one's own messages; otherwise the text before the first `@`, or the whole address without one |
| ChatModal.FromDto | vite-project/src/views/Chat/chat-modal.tsx:140-150 | a received message keeps its text, gets the sender label and the given id, and is not a system message |
| ChatModal.WithHistory | vite-project/src/views/Chat/chat-modal.tsx:140-152 | the first (welcome) message is kept, then the history mapped with ids `index+2` |
| ChatModal.HistoryReplacesTail | vite-project/src/views/Chat/chat-modal.tsx:152 | a second history load discards everything after the welcome message, including what an earlier load and live messages added |
| ChatModal.StompClient.Activate | vite-project/src/views/Chat/chat-modal.tsx:211 | the client becomes active |
| ChatModal.StompClient.Deactivate | vite-project/src/views/Chat/chat-modal.tsx:216-222 | the client becomes inactive |
| ChatModal.ClientSlot.TearDownIfActive | vite-project/src/views/Chat/chat-modal.tsx:111-114 | an active client is deactivated and the slot cleared; afterwards no client ever built is active |
| ChatModal.ClientSlot.Install | vite-project/src/views/Chat/chat-modal.tsx:159-211 | a fresh client for the room, with the bearer header, becomes the only active one |
| ChatModal.ClientSlot.Release | vite-project/src/views/Chat/chat-modal.tsx:216-222 | the slot is cleared and no client is active |
| ChatModal.AtMostOneActive | vite-project/src/views/Chat/chat-modal.tsx:106-114 | two active clients are the same client |
| ChatModal.LeaveNotice | vite-project/src/views/Chat/chat-modal.tsx:282-289 | the leave notice is a system message from `시스템` saying the user left |
| ChatModal.ChatModalView.constructor | vite-project/src/views/Chat/chat-modal.tsx:71-80 | the message list starts with the welcome message alone; the input is empty and the user is participating |
| ChatModal.ChatModalView.ConnectEffect | vite-project/src/views/Chat/chat-modal.tsx:106-211 | any active client is torn down first; a client is created and activated exactly when the modal is open, the email is known and the room id is positive |
| ChatModal.ChatModalView.OnConnect | vite-project/src/views/Chat/chat-modal.tsx:168-198 | on connect: fetch history, subscribe to the room topic, mark read, in that order and for the client's room |
| ChatModal.ChatModalView.OnHistory | vite-project/src/views/Chat/chat-modal.tsx:129-156 | a loaded history replaces the list after the welcome message; a failure changes nothing |
| ChatModal.ChatModalView.OnLiveMessage | vite-project/src/views/Chat/chat-modal.tsx:173-191 | a live message is appended and nothing else changes |
| ChatModal.ChatModalView.SendMessage | vite-project/src/views/Chat/chat-modal.tsx:226-258 | it publishes only with a known email, non-empty trimmed text, participation and an active client; the list never changes; the input is cleared only when publishing did not throw |
| ChatModal.ChatModalView.LeaveChat | vite-project/src/views/Chat/chat-modal.tsx:260-295 | a successful leave stops participation, reports -1, deactivates the client and appends one system notice; a failure changes none of these |
| ChatModal.ChatModalView.Cleanup | vite-project/src/views/Chat/chat-modal.tsx:216-222 | cleanup leaves no active client |
| ChatModal.Clamp | vite-project/src/views/Chat/chat-modal.tsx:316-329 | below 16 gives 16; above a bound of at least 16 gives the bound; inside the range the value is unchanged; the result is never below 16 |
| ChatModal.ModalSize | vite-project/src/views/Chat/chat-modal.tsx:312-315 | below 640 px the modal is the window less 32 by the window less 100; otherwise it is 384 by 600 |
| ChatModal.DragPosition | vite-project/src/views/Chat/chat-modal.tsx:312-329 | each coordinate is at least 16 and at most the window less the modal less 16, whenever that is at least 16 |
| BoardDetail.PrevIndex | vite-project/src/views/Board/Detail/index.tsx:112-117 | 0 wraps to the last index, otherwise one back; stays in `[0, n)` |
| BoardDetail.NextIndex | vite-project/src/views/Board/Detail/index.tsx:119-124 | the last index wraps to 0, otherwise one on; stays in `[0, n)` |
| BoardDetail.PrevNextInverse | vite-project/src/views/Board/Detail/index.tsx:112-124 | next undoes prev and prev undoes next |
| BoardDetail.NextTimesAdvances | vite-project/src/views/Board/Detail/index.tsx:119-124 | k presses of next from i reach i+k, wrapping once past the end |
| BoardDetail.FullCycle | vite-project/src/views/Board/Detail/index.tsx:119-124 | n presses of next return to the starting image |
| BoardDetail.IsAuthor | vite-project/src/views/Board/Detail/index.tsx:62 | `===` on `post?.writerEmail` and the store email: a present writer matches only the same present email; no post or no writer (`undefined`) matches only an `undefined` email (a token without `sub`); a `null` email (not logged in) never matches |
| BoardDetail.BoardDetailView.constructor | vite-project/src/views/Board/Detail/index.tsx:32-36 | no post loaded, not liked, chat closed, first image |
| BoardDetail.ShowAuthorControls | vite-project/src/views/Board/Detail/index.tsx:62 | edit and delete show exactly for an authenticated session viewing a loaded post whose writer email strictly equals the session email, so a token without `sub` matches a post without a writer; a `null` email never shows them |
| BoardDetail.AfterLike | vite-project/src/views/Board/Detail/index.tsx:98-104 | the like count moves by -1 when it was liked and +1 otherwise; nothing else changes |
| BoardDetail.LikeTwiceRestores | vite-project/src/views/Board/Detail/index.tsx:98-104 | like then unlike gives back the original post |
| BoardDetail.ChatOpenDecision | vite-project/src/views/Board/Detail/index.tsx:127-180 | not logged in: login prompt; no post or room id at most 0: abort; otherwise the join is called, and only a 500 failure keeps the modal closed |
| BoardDetail.NonServerFailureOpens | vite-project/src/views/Board/Detail/index.tsx:148-165 | a join failure other than 500 is treated as a successful join |
| BoardDetail.BoardDetailView.HandleLike | vite-project/src/views/Board/Detail/index.tsx:86-110 | not logged in: no call; success toggles `isLiked` and adjusts the count; failure changes nothing |
| BoardDetail.BoardDetailView.HandlePrevImage | vite-project/src/views/Board/Detail/index.tsx:112-117 | the index moves by `PrevIndex` and stays in range |
| BoardDetail.BoardDetailView.HandleNextImage | vite-project/src/views/Board/Detail/index.tsx:119-124 | the index moves by `NextIndex` and stays in range |
| BoardDetail.BoardDetailView.HandleChatOpen | vite-project/src/views/Board/Detail/index.tsx:127-180 | the outcome is `ChatOpenDecision`; the modal opens exactly when it says so; nothing else changes |
| ImageList.MainAfterRemoval | vite-project/src/views/Member/myPage.tsx:849-853 | main goes to 0 when the main image is removed, to main-1 when an earlier one is, and is otherwise unchanged |
| ImageList.RemovalKeepsMain | vite-project/src/views/Board/Write/index.tsx:41-45 | removing another image leaves the same image as the main one |
| ImageList.RemovalKeepsMainInRange | vite-project/src/views/Member/myPage.tsx:846-853 | after any removal, the main index still points into a non-empty list |
| ImageList.FileIndex | vite-project/src/views/Member/myPage.tsx:839-841 | the file position behind preview i is the number of blob previews before i |
| ImageList.RemovalKeepsPairing | vite-project/src/views/Member/myPage.tsx:836-848 | removing a blob preview and the file at its file index keeps every remaining blob preview paired with its file, in order |
| ImageList.AppendKeepsPairing | vite-project/src/views/Member/myPage.tsx:797-802 | appending files and their object URLs keeps the pairing |
| MyPage.ExtractSigungu | vite-project/src/views/Member/myPage.tsx:35-53 | `지역 미정` for an empty address; a second word ending in 시/군/구 is returned; otherwise the first word, or `지역 정보 없음` when it is empty |
| MyPage.ExtractSigunguIsSimple | vite-project/src/views/Member/myPage.tsx:46-48 | the 시/도 test on the first word never changes the result |
| MyPage.WithParticipantDefaults | vite-project/src/views/Member/myPage.tsx:114-120 | missing or zero counts become 1 and 4; present counts and all other fields are unchanged |
| MyPage.DefaultsIdempotent | vite-project/src/views/Member/myPage.tsx:114-120 | filling defaults twice equals once |
| MyPage.WithDefaults | vite-project/src/views/Member/myPage.tsx:114-123 | an absent body gives the empty list; otherwise every post, in order, with defaults |
| MyPage.ExistingUrls | vite-project/src/views/Member/myPage.tsx:233-235 | the kept URLs are exactly the non-blob previews, in order |
| MyPage.Without | vite-project/src/views/Member/myPage.tsx:242 | every copy of the main URL is removed and every other element kept |
| MyPage.WithoutKeepsOrder | vite-project/src/views/Member/myPage.tsx:242 | `filter` keeps the survivors in their original order |
| MyPage.WithoutCounts | vite-project/src/views/Member/myPage.tsx:242 | `filter` keeps each other URL as often as it occurs and drops every copy of the main URL |
| MyPage.PutFirst | vite-project/src/views/Member/myPage.tsx:239-243 | `m` first, then exactly the other elements of the list, with their multiplicity and in their order |
| MyPage.OrderedImageUrls | vite-project/src/views/Member/myPage.tsx:233-243 | as written: the main preview's URL first, then the kept and uploaded URLs in their order and with their multiplicity, every copy of the main URL removed |
| MyPage.NewMainImageSentAsBlob | vite-project/src/views/Member/myPage.tsx:239-243 | with a newly added main image, the list sent starts with a local `blob:` URL and the uploaded copy comes second |
| MyPage.MainUrl | vite-project/src/views/Member/myPage.tsx:239 | the server URL of the main image: the preview itself, or the upload of the file behind a blob preview |
| MyPage.OrderedImageUrlsFixed | vite-project/src/views/Member/myPage.tsx:233-243 | corrected: the main image's server URL first and only once, then every other kept and uploaded URL in order with its multiplicity, and no blob URL when the uploads are server URLs |
| MyPage.FixAgreesForUploadedMain | vite-project/src/views/Member/myPage.tsx:239-243 | when the main image is already on the server, the correction sends exactly what the code sends |
| MyPage.ParseHashtags | vite-project/src/views/Member/myPage.tsx:252-257 | the space-separated tokens starting with `#` and longer than 1, in order and none dropped |
| MyPage.ParseJoinedHashtags | vite-project/src/views/Member/myPage.tsx:252-257 | hashtags joined with spaces parse back to themselves |
| MyPage.HashtagsToSend | vite-project/src/views/Member/myPage.tsx:252-257 | as written: typed text is parsed; a list is sent as it is |
| MyPage.TypedHashtagsSentRaw | vite-project/src/views/Member/myPage.tsx:774-777 | typing `#a  b` stores `["#a", "", "b"]`, which is sent as it is, while the text branch would send `["#a"]` |
| MyPage.HashtagsToSendFixed | vite-project/src/views/Member/myPage.tsx:252-257 | corrected: only hashtag tokens are sent, in order; typed text is parsed as before and a list keeps every hashtag it holds |
| MyPage.FixedParsesTypedText | vite-project/src/views/Member/myPage.tsx:774-777 | with the correction, what the editor stores for typed text is sent as the text branch would parse it |
| MyPage.FixAgreesForHashtagLists | vite-project/src/views/Member/myPage.tsx:252-257 | a list of well-formed hashtags is sent unchanged, as the code sends it |
| MyPage.ReplaceById | vite-project/src/views/Member/myPage.tsx:272-276 | the length and ids are kept; exactly the entries with the returned id are replaced |
| MyPage.ReplaceByIdIdempotent | vite-project/src/views/Member/myPage.tsx:272-276 | replacing twice equals replacing once |
| MyPage.RemoveById | vite-project/src/views/Member/myPage.tsx:322-323 | exactly the posts with that id are removed; the rest keep their order (a subsequence) and their multiplicities |
| MyPage.RemoveByIdIdempotent | vite-project/src/views/Member/myPage.tsx:322-323 | deleting twice equals deleting once |
| MyPage.AddressFromPost | vite-project/src/views/Member/myPage.tsx:196-201 | sido is the address before the first space and sigungu the second word; the full address is kept |
| MyPage.MyPageView.constructor | vite-project/src/views/Member/myPage.tsx:61-86 | both lists empty, nothing edited, a blank address, no images and main 0 |
| MyPage.MyPageView.LoadPosts | vite-project/src/views/Member/myPage.tsx:112-141 | each list is the fetched list with defaults, or empty when its request failed; no other field changes |
| MyPage.MyPageView.EditPost | vite-project/src/views/Member/myPage.tsx:176-204 | the editor starts on the post's images with no pending files and main 0; non-list hashtags become empty |
| MyPage.MyPageView.EditTitle | vite-project/src/views/Member/myPage.tsx:750-756 | only the edited post's title changes, and only while a post is being edited; every other field is as it was |
| MyPage.MyPageView.EditHashtags | vite-project/src/views/Member/myPage.tsx:770-779 | the typed text is stored split on spaces as a list, never as text; every other field is as it was |
| MyPage.MyPageView.SetAddress | vite-project/src/views/Member/myPage.tsx:300-306 | the picked address's parts replace the address fields, a missing part giving `''`; no other field changes |
| MyPage.MyPageView.AddImages | vite-project/src/views/Member/myPage.tsx:792-803 | all or none: rejected when more than 5 previews would result, else files and object URLs appended; the pairing is kept; only files and previews change |
| MyPage.MyPageView.RemoveImage | vite-project/src/views/Member/myPage.tsx:834-853 | preview i and, for a blob, its file go; the main index follows its image; the pairing is kept; only files, previews and the main index change |
| MyPage.MyPageView.SetMainImage | vite-project/src/views/Member/myPage.tsx:812 | the clicked preview becomes main; no other field changes |
| MyPage.MyPageView.CloseEditModal | vite-project/src/views/Member/myPage.tsx:287-298 | editing stops, previews and files are cleared; the lists, the address and the main index are left as they were |
| MyPage.MyPageView.DeletePost | vite-project/src/views/Member/myPage.tsx:317-331 | a null id or a failed request changes nothing; success removes the id from both lists, keeping the rest in order (`RemoveById`), and changes nothing else |
| MyPage.MyPageView.SavePost | vite-project/src/views/Member/myPage.tsx:220-285 | the outcome is SaveDecision on the editor's state before the call; success replaces the post by id, closes the editor and changes nothing else; any other outcome changes no field |
| MyPage.MyPageView.AfterUpdate | vite-project/src/views/Member/myPage.tsx:272-279 | the returned post replaces its namesakes in my posts, editing stops, and no other field changes |
| MyPage.SaveDecision | vite-project/src/views/Member/myPage.tsx:220-285 | no post aborts; no image aborts; a failed upload aborts; otherwise the request carries the id, title, full address, only hashtag tokens and the corrected image list whose first URL is the main image's server URL; it is Saved exactly when the update succeeds |
| MyPage.SaveDecisionAsWritten | vite-project/src/views/Member/myPage.tsx:220-258 | the same outcomes as SaveDecision, but the request carries the hashtags as stored and the image list headed by the main preview itself |
| MyPage.SaveFixAgreesAsWritten | vite-project/src/views/Member/myPage.tsx:230-258 | when the main preview is a server URL and every stored tag is a hashtag, the corrected and the as-written save give the same outcome and request |
| BoardWrite.KeptFiles | vite-project/src/views/Board/Write/index.tsx:25 | the first five of the old files followed by the new ones, i.e. `(old ++ new)[..5]` |
| BoardWrite.BoardWriteView.constructor | vite-project/src/views/Board/Write/index.tsx:4-15 | six empty form fields, no images, main 0 |
| BoardWrite.BoardWriteView.InputChanged | vite-project/src/views/Board/Write/index.tsx:17-19 | only the named field changes |
| BoardWrite.BoardWriteView.HandleImageChange | vite-project/src/views/Board/Write/index.tsx:21-30 | no files: no change; otherwise at most five files are kept, old ones first, with one preview per file |
| BoardWrite.BoardWriteView.RemoveImage | vite-project/src/views/Board/Write/index.tsx:32-46 | index i leaves both lists, the rest keep their order, and the main index follows its image |
| BoardWrite.BoardWriteView.SetAsMainImage | vite-project/src/views/Board/Write/index.tsx:48-50 | the chosen preview becomes main |
| PostsPage.FilteredPosts | vite-project/src/views/Posts/PostsPage.tsx:50-64 | exactly the posts passing search (title, ignoring case), location (`all` or contained) and hashtag (none, or some tag containing it), in their order and with every copy of a passing post kept |
| PostsPage.NoFiltersKeepAll | vite-project/src/views/Posts/PostsPage.tsx:51-63 | empty search, `all` and no hashtag list every post |
| PostsPage.FiltersIgnoreCase | vite-project/src/views/Posts/PostsPage.tsx:52-61 | lower-casing the typed search and hashtag lists the same posts |
| PostsPage.AllTags | vite-project/src/views/Posts/PostsPage.tsx:67 | every tag of every post, and nothing else |
| PostsPage.Dedup | vite-project/src/views/Posts/PostsPage.tsx:67 | the same elements, each once, in order of first occurrence |
| PostsPage.AllHashtags | vite-project/src/views/Posts/PostsPage.tsx:66-68 | every tag of every post exactly once, nothing else, in the order of first appearance |
| PostsPage.CardImage | vite-project/src/views/Posts/PostsPage.tsx:91-93 | the first image, or `/no-image.png` when there is none |
| PostsPage.ShownTags | vite-project/src/views/Posts/PostsPage.tsx:109 | the first three tags, or all of them when there are fewer |
| AdminPage.RemainingTime | vite-project/src/views/Admin/indes.tsx:43-64 | expired when the difference is not positive; whole days if at least one; else hours in 1..23; else minutes in 0..59; each is the floor |
| AdminPage.DeadlineText | vite-project/src/views/Admin/indes.tsx:48-63 | `마감됨` when expired, else the count followed by `일 남음`, `시간 남음` or `분 남음` |
| AdminPage.TimeUntilDeadline | vite-project/src/views/Admin/indes.tsx:43-64 | expired exactly when the deadline is not after now |
| AdminPage.RemainingMonotone | vite-project/src/views/Admin/indes.tsx:52-63 | less time never shows more days, and never a coarser unit |
| AdminPage.FilteredUsers | vite-project/src/views/Admin/indes.tsx:121-125 | exactly the users whose name or email contains the search, ignoring case, in order, every copy kept |
| AdminPage.FilteredPosts | vite-project/src/views/Admin/indes.tsx:127-131 | exactly the posts whose title or author contains the search, ignoring case, in order, every copy kept |
| AdminPage.EmptySearchKeepsAll | vite-project/src/views/Admin/indes.tsx:121-131 | an empty search lists all users and all posts |
| AdminPage.ReportedCount | vite-project/src/views/Admin/indes.tsx:222 | the number of posts with a report; 0 exactly when none is reported, all exactly when all are |
| AdminPage.SafeStats | vite-project/src/views/Admin/indes.tsx:145-150 | the fetched stats, else zero for the four totals the fallback defines |
| Header.IsAuthPage | vite-project/src/layouts/Header/index.tsx:36-39 | exactly `/login`, `/signup` and `/create-post` |
| Header.BadgeText | vite-project/src/layouts/Header/index.tsx:150-154 | no badge for a count of 0 or less; the digit up to 9; `9+` above |
| Header.DisplayNickname | vite-project/src/layouts/Header/index.tsx:107 | the nickname when non-empty, else `회원` |
| Header.ShowMemberLinks | vite-project/src/layouts/Header/index.tsx:142 | the bell and my-page link are hidden exactly for ADMIN |
| Header.HeaderView.constructor | vite-project/src/layouts/Header/index.tsx:53-54 | the dropdown starts closed and the remembered count is the count at mount |
| Header.HeaderView.OnUnreadCountChange | vite-project/src/layouts/Header/index.tsx:80-87 | the sound plays exactly on a rise; the previous count becomes the current one |
| Header.HeaderView.OnBellClick | vite-project/src/layouts/Header/index.tsx:100-105 | rooms are fetched only when opening; the dropdown flips |
| Header.HeaderView.OnRoomClick | vite-project/src/layouts/Header/index.tsx:166-179 | a truthy board id navigates there and closes the dropdown; otherwise the dropdown is unchanged |
| Header.BellTwice | vite-project/src/layouts/Header/index.tsx:100-105 | two clicks restore the dropdown and fetch exactly once |
| Header.SameCountTwice | vite-project/src/layouts/Header/index.tsx:80-87 | the same count seen twice plays at most once |
| Header.HandleLogout | vite-project/src/layouts/Header/index.tsx:89-97 | whatever the server answers, the store is logged out, the token cookie dropped and the route is `/` |
| Strings.Split | vite-project/src/views/Member/myPage.tsx:37 | `split(' ')`: at least one piece, none containing the separator |
| Strings.JoinSplit | vite-project/src/views/Member/myPage.tsx:37 | joining the pieces of a split gives the string back |
| Strings.SplitJoin | vite-project/src/views/Member/myPage.tsx:255 | splitting separator-free pieces joined by the separator gives the pieces back |
| Strings.Before | vite-project/src/views/Chat/chat-modal.tsx:146 | `split('@')[0]`: the longest prefix without the separator |
| Strings.Lower | vite-project/src/views/Posts/PostsPage.tsx:52 | each character lower-cased, the length kept |
| Strings.Trim | vite-project/src/views/Chat/chat-modal.tsx:233 | a slice of the input with only white space before and after it, neither starting nor ending with white space; empty exactly for all-whitespace input |
| Strings.ContainsIffOccurs | vite-project/src/views/Posts/PostsPage.tsx:55 | `includes` holds exactly when the text occurs at some offset |
| Seqs.Filter | vite-project/src/views/Admin/indes.tsx:121 | `filter`: only elements passing the test, and every passing element |
| Seqs.FilterCounts | vite-project/src/views/Admin/indes.tsx:121 | `filter` keeps each passing element exactly as often as it occurs and adds nothing |
| Seqs.CountBounds | vite-project/src/views/Admin/indes.tsx:222 | a `filter(p).length` is 0 exactly when no element passes and the full length exactly when every element does |
| Seqs.FilterRemoveAt | vite-project/src/views/Member/myPage.tsx:839-848 | dropping index k drops, from the filtered list, the element at the count of passing elements before k |

## Left out

- Rendering, CSS, routing tables and static pages are not modelled: Main, Footer, App routing and the chat modal wrapper.
- Transport is abstracted to outcomes: axios, the STOMP/SockJS client and its reconnect delay, and the server APIs.
- `jwtDecode` is an abstract decode function. Timers are not modelled: the header's unread-count polling, and the unawaited history and read calls inside the chat connect callback, which are taken in program order.
- Dates, `toLocaleString` and `Math.random` modal placement are left out. The deadline function takes the millisecond difference as an integer, so an unparsable date (NaN) is not modelled.
- `Strings.Lower` models `toLowerCase` on ASCII letters only. Hangul has no case.
- Cookie `path` scoping is kept only as recorded options.
- `decodeURIComponent` of the OAuth error message is not modelled.
- Browser history, `alert` and audio playback appear only as effects or returned flags.
- `URL.revokeObjectURL` is not modelled; `URL.createObjectURL` is a fixed function of the file.
- `Board/Update/index.tsx` is entirely commented out. `signup.tsx`, the profile edit on the my-page view and `vite.config.ts` are not part of this model.
- The write page's `handleSubmit` and the admin dashboard's user and post action handlers only log to the console. They change no state, so they have no member.
- MyPage.SaveDecision: models the corrected request (see Findings); `MyPage.SaveDecisionAsWritten` is the request as written, and `MyPage.SaveFixAgreesAsWritten` says where the two agree.
- MyPage.MyPageView.SavePost: models the corrected image ordering and the corrected hashtag filtering (see Findings). It requires the editor invariants the other methods keep: files paired with blob previews, and the main index inside the list. The upload step is one input, `None` when any upload throws.
- MyPage.MyPageView.SetMainImage: a click can only name a shown preview, so the main index stays in range. The method does not require this; the invariant holds only for such an index.
- BoardWrite.BoardWriteView.RemoveImage and BoardWrite.BoardWriteView.SetAsMainImage: require an index of a shown preview, since the buttons exist only for those.
- The edit modal's content, total price and participant inputs are not modelled: the post record here carries only the title, address, hashtags and images. The title and hashtag inputs are `MyPage.MyPageView.EditTitle` and `MyPage.MyPageView.EditHashtags`.
- Mouse positions, window sizes and drag offsets are JavaScript numbers (doubles); the chat modal's size and position functions take integers, so fractional pixels are not modelled.
- Header.ShowMemberLinks: takes `role` as an input, as `Header.BadgeText` and `Header.HeaderView.OnUnreadCountChange` take `unreadCount`, because the store does not define these fields. With the store as written, `role` is always undefined and ADMIN users would still see the bell.

## Findings

| source | as written | input that shows it | evidently intended | confidence | as-written member | corrected member |
|---|---|---|---|---|---|---|
| vite-project/src/views/Member/myPage.tsx:239-243 | the image list sent on save starts with `imagePreviewUrls[mainImageIndex]`, which for a newly added main image is a page-local `blob:` URL, and the uploaded copy of that image is sent again as a sub-image | previews `["blob:a"]`, main 0, uploads `["https://x/a.png"]` sends `["blob:a", "https://x/a.png"]` | send the uploaded URL of the main image first, once, and no blob URL | not executed | MyPage.NewMainImageSentAsBlob | MyPage.OrderedImageUrlsFixed |
| vite-project/src/views/Member/myPage.tsx:774-777 | the hashtag box stores `e.target.value.split(' ')`, a list, so the save's `typeof === 'string'` parsing never runs and words without `#`, a lone `#` and empty pieces are sent | typing `#a  b` sends `["#a", "", "b"]` | send only the `#` tokens, as the text branch would | not executed | MyPage.TypedHashtagsSentRaw | MyPage.HashtagsToSendFixed |
