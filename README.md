# FitStream core, modelled in Dafny

FitStream is a Next.js fitness-community progressive web app. Most of it is page
layout. The logic this project models is spread over a dozen files:

- the **route guard** that sends visitors to `/login` or `/comunidade` from one cookie;
- the **authentication context**: the signed-in user, the flag, the copy kept in local
  storage and the auth cookie, under mount, the three sign-in variants, signup, logout
  and profile updates;
- the **Brazilian phone mask** `(DD) DDDDD-DDDD`, which the signup and profile pages
  both carry;
- the **community page's local feed** (publish and like);
- the **feed data layer** over the hosted database: posts, likes and comments, with
  authentication and ownership checks, counts and orderings;
- the **workout catalogue** filters and their option lists;
- the **login error texts** and the **e-mail confirmation callback** decision table;
- the **service worker's cache policy**;
- the **PWA install** page and banner.

One Dafny module per source file:

- `RouteGuard`: `src/middleware.ts`
- `Auth`: `src/contexts/AuthContext.tsx`
- `PhoneMask`: the `formatPhone` shared by `src/app/cadastro/page.tsx` and `src/app/perfil/page.tsx`
- `SignupPage`: `src/app/cadastro/page.tsx`
- `ProfilePage`: `src/app/perfil/page.tsx`
- `CommunityFeed`: `src/app/comunidade/page.tsx`
- `PostStore`: `src/lib/posts.ts`
- `WorkoutCatalog`: `src/app/treinos/page.tsx`
- `LoginPage`: `src/app/login/page.tsx`
- `EmailConfirmation`: `src/app/auth/callback/page.tsx`
- `ServiceWorker`: `public/sw.js`
- `InstallPage`: `src/app/install/page.tsx`
- `InstallPrompt`: `src/components/PWAInstallPrompt.tsx`

Two helper modules support them:

- `Common` holds Option/Result, JavaScript's `startsWith`/`includes`/truthiness, and decimal rendering of `Date.now()`.
- `Sorting` is the ORDER BY of the backend, as an insertion sort proved sorted and a permutation.

Code whose source changes state step by step is modelled as classes with `modifies` clauses:

- the auth provider;
- the form pages;
- the feed;
- the data store;
- the service worker;
- the install screens.

Decisions written as expressions are modelled as functions, with lemmas beside them.

Modelling choices:

- **Environment as parameters.** Browser and backend inputs become method parameters: the
  current time, the user agent, `matchMedia`, the network's answers, and each backend
  failure the code checks for. Local storage and the cookie become fields. `router.push`
  becomes a recorded navigation target.
- **Backend tables as sequences.** The hosted database is three row sequences (posts, likes,
  comments) inside `PostStore.Store`.
- **`.single()`.** It succeeds on exactly one matching row. So `user_has_liked` means "exactly
  one like row by the viewer".
- **Post ids.** A post id that is already taken makes the insert fail, as a primary key does.
  So post ids stay distinct without any precondition.
- **Duplicate likes.** No uniqueness constraint on likes is visible in the repository. A second
  like by the same user is rejected only if the backend says so, through the fault parameter.
  If the backend accepts it, `user_has_liked` reads false again (`PostStore.LikeVisibility`).
- **Unlike as written.** `unlikePost` is commented "Descurtir post" (unlike post) and is the
  counterpart of `likePost`, yet its body only selects the caller's like and errors when there
  is none. The model keeps that behaviour and adds the evident intent beside it. See Findings.

## Model

| member | source | states |
|---|---|---|
| RouteGuard.Middleware | src/middleware.ts:22-76 | the decision is pass-through, redirect to /login or redirect to /comunidade, nothing else |
| RouteGuard.IsPublicRoute | src/middleware.ts:5-11 | a path is public when it equals or starts with a listed route (its consequences: EveryAbsolutePathIsPublic, EmptyPathIsNeither) |
| RouteGuard.IsProtectedRoute | src/middleware.ts:14-20 | a path is protected when it starts with a listed route (its consequences: PrefixIsProtected, NotProtected) |
| RouteGuard.MiddlewareTable | src/middleware.ts:49-75 | redirect to /login iff signed out on a protected path; redirect to /comunidade iff signed in on exactly /login or /cadastro; pass-through otherwise |
| RouteGuard.CookieValueIrrelevant | src/middleware.ts:28-29 | only the presence of the fitstream_auth cookie matters, never its value |
| RouteGuard.EveryAbsolutePathIsPublic | src/middleware.ts:5-11 | every path starting with "/" counts as public, because "/" is in the list and matched by prefix |
| RouteGuard.EmptyPathIsNeither | src/middleware.ts:37-40 | the empty path is neither public nor protected |
| RouteGuard.PrefixIsProtected | src/middleware.ts:14-20 | protected matching is by prefix: /perfil-x, /premium/abc, /comunidade… are protected |
| RouteGuard.NotProtected | src/middleware.ts:14-20 | /login and /cadastro are not protected routes |
| RouteGuard.RedirectsMatchAuthentication | src/middleware.ts:49-60 | a signed-in request is never sent to /login, a signed-out one never to /comunidade |
| RouteGuard.LoginSubpathNotBounced | src/middleware.ts:56-60 | only the exact /login is bounced for a signed-in user: /login/x passes |
| Auth.EmailUser | src/contexts/AuthContext.tsx:63-73 | e-mail sign-in builds user "1" carrying the given e-mail and the default avatar |
| Auth.ProviderUser | src/contexts/AuthContext.tsx:94-104 | Google/Apple users get the decimal current time as id and fixed name and e-mail |
| Auth.NewUser | src/contexts/AuthContext.tsx:165-172 | signup copies name, e-mail, phone and unit, uses the default avatar and the time as id |
| Auth.Apply | src/contexts/AuthContext.tsx:212 | `{ ...user, ...data }`, whose key-by-key meaning ApplyOverwritesSuppliedKeys states |
| Auth.SignupIgnoresPassword | src/contexts/AuthContext.tsx:165-172 | the password never reaches the created user |
| Auth.SignupIdsDistinct | src/contexts/AuthContext.tsx:166 | users created at different instants get different ids |
| Auth.ApplyOverwritesSuppliedKeys | src/contexts/AuthContext.tsx:212 | for each of the six keys: a supplied value wins, an absent one keeps the user's; an empty patch changes nothing |
| Auth.UseAuth | src/contexts/AuthContext.tsx:243-249 | outside a provider the hook fails with its message; inside it returns the context |
| Auth.CookieJar | src/contexts/AuthContext.tsx:56 | the cookie the provider sets is exactly what the route guard reads as authenticated |
| Auth.AuthProvider.constructor | src/contexts/AuthContext.tsx:37-38 | starts signed out, with isAuthenticated false and no user |
| Auth.AuthProvider.Mount | src/contexts/AuthContext.tsx:41-61 | restores the stored user and authenticates and sets the cookie iff one is stored |
| Auth.AuthProvider.SignIn | src/contexts/AuthContext.tsx:82-91 | user set, authenticated, stored copy equals user, cookie set, navigation to /comunidade |
| Auth.AuthProvider.Login | src/contexts/AuthContext.tsx:63-92 | signs in the e-mail user and keeps the flag/user invariant |
| Auth.AuthProvider.LoginWithGoogle | src/contexts/AuthContext.tsx:94-123 | signs in the Google user; stored copy equals user; cookie set |
| Auth.AuthProvider.LoginWithApple | src/contexts/AuthContext.tsx:125-154 | signs in the Apple user; stored copy equals user; cookie set |
| Auth.AuthProvider.Signup | src/contexts/AuthContext.tsx:156-191 | signs in the new user built from the form |
| Auth.AuthProvider.Logout | src/contexts/AuthContext.tsx:193-207 | clears user, flag, stored copy and cookie, navigates to /login |
| Auth.AuthProvider.UpdateUser | src/contexts/AuthContext.tsx:209-225 | merges the patch into the user and stores it; signed out, nothing changes |
| Auth.SignedInPassesGuard | src/contexts/AuthContext.tsx:84-88 | after any sign-in the route guard never sends the visitor to /login |
| Auth.SignedOutIsBounced | src/contexts/AuthContext.tsx:197-203 | after logout every protected page redirects to /login |
| Common.DecimalString | src/contexts/AuthContext.tsx:98 | `toString()` of a time: non-empty, all digits, no leading zero |
| Common.DecimalRoundTrip | src/contexts/AuthContext.tsx:98 | reading the rendered digits back gives the number |
| Common.DecimalStringInjective | src/contexts/AuthContext.tsx:129 | different times render differently |
| Common.ContainsWrapped | src/app/login/page.tsx:42 | `includes` finds a phrase wherever it sits in the text |
| PhoneMask.StripNonDigits | src/app/cadastro/page.tsx:24 | `replace(/\D/g, "")` leaves only digits and keeps an all-digit string unchanged |
| PhoneMask.FindSixDigitRun | src/app/cadastro/page.tsx:28 | finds the leftmost run of six digits, as the unanchored regex does |
| PhoneMask.WrapAreaCode | src/app/cadastro/page.tsx:27 | the anchored area-code replace keeps exactly the digits and adds at most three characters |
| PhoneMask.HyphenateFirstRun | src/app/cadastro/page.tsx:28 | the hyphen replace keeps exactly the digits and adds at most one character |
| PhoneMask.FormatPhone | src/app/cadastro/page.tsx:23-31 | up to 11 digits the output holds exactly the typed digits; above 11 the current phone is returned unchanged |
| PhoneMask.NoRunThroughSpace | src/app/cadastro/page.tsx:27-28 | no six-digit run crosses the space after the area code |
| PhoneMask.RegexChainIsMask | src/app/cadastro/page.tsx:26-28 | the two replaces give the closed form: 0-2 digits bare, 3-7 with area code, 8-11 with hyphen |
| PhoneMask.StripConcat | src/app/cadastro/page.tsx:24 | stripping a concatenation strips each part |
| PhoneMask.StripAreaCode | src/app/cadastro/page.tsx:27 | the area-code decoration adds no digits |
| PhoneMask.StripHyphenated | src/app/cadastro/page.tsx:28 | the hyphen adds no digits |
| PhoneMask.MaskKeepsDigits | src/app/cadastro/page.tsx:24-28 | removing the mask's punctuation gives the digits back |
| PhoneMask.FormatIsMask | src/app/cadastro/page.tsx:23-31 | up to 11 digits, formatPhone is the mask of the input's digits |
| PhoneMask.FormatLength | src/app/cadastro/page.tsx:159 | up to 11 digits the output fits maxLength 15 (at most 4 added characters) |
| PhoneMask.ElevenDigitsShape | src/app/cadastro/page.tsx:158 | 11 digits give exactly `(DD) DDDDD-DDDD` |
| PhoneMask.FormatWellFormed | src/app/cadastro/page.tsx:23-31 | from a well-formed phone, formatting always yields a well-formed phone |
| PhoneMask.FormatIdempotent | src/app/cadastro/page.tsx:23-31 | formatting an already formatted value again changes nothing |
| SignupPage.SignupForm.constructor | src/app/cadastro/page.tsx:13 | the phone field starts empty and well formed |
| SignupPage.SignupForm.HandlePhoneChange | src/app/cadastro/page.tsx:33-37 | the field becomes formatPhone of the input, keeps the digits, fits 15, or stays above 11 digits |
| SignupPage.SignupForm.HandleSubmit | src/app/cadastro/page.tsx:39-58 | the form's fields, with the masked phone, go to signup |
| ProfilePage.Initial | src/app/perfil/page.tsx:14-17 | a form field starts from the user's value, or "" without a user |
| ProfilePage.SavePatch | src/app/perfil/page.tsx:35-40 | the saved patch carries exactly name, e-mail, phone and unit |
| ProfilePage.SaveKeepsIdentity | src/app/perfil/page.tsx:34-40 | saving keeps the id and avatar and replaces the four edited fields |
| ProfilePage.ProfileForm.constructor | src/app/perfil/page.tsx:13-17 | modal closed; fields from the user, or empty |
| ProfilePage.ProfileForm.HandlePhoneChange | src/app/perfil/page.tsx:19-32 | the profile copy of formatPhone: same function, same >11-digit rule |
| ProfilePage.ProfileForm.HandleSave | src/app/perfil/page.tsx:34-42 | user gets the four fields with id and avatar kept, stored copy follows, navigation to /comunidade |
| ProfilePage.ProfileForm.HandlePasswordChange | src/app/perfil/page.tsx:44-48 | only closes the modal |
| CommunityFeed.ComposedPost | src/app/comunidade/page.tsx:158-172 | new post: time id, "agora", zero counts, user's name/avatar/unit, untrimmed caption, kind and isVideo from the media type, image or placeholder |
| CommunityFeed.Liked | src/app/comunidade/page.tsx:198-204 | exactly the posts with the id get one more like; length, order and everything else unchanged |
| CommunityFeed.LikeAddsOnePerMatch | src/app/comunidade/page.tsx:198-204 | the feed's like total grows by the number of posts carrying the id |
| CommunityFeed.LikeUnknownId | src/app/comunidade/page.tsx:198-204 | an unknown id changes nothing |
| CommunityFeed.LikeTwice | src/app/comunidade/page.tsx:198-204 | no toggle: two likes add two |
| CommunityFeed.Feed.constructor | src/app/comunidade/page.tsx:101-104 | starts from the given posts with an empty composer |
| CommunityFeed.Feed.HandleCaptionChange | src/app/comunidade/page.tsx:101 | the composer's caption takes the typed text |
| CommunityFeed.Feed.HandleMediaLoaded | src/app/comunidade/page.tsx:120-143 | signed in, the loaded media and its type are selected; signed out, nothing changes |
| CommunityFeed.Feed.HandlePublish | src/app/comunidade/page.tsx:145-188 | signed out, blank caption or no user: nothing changes; otherwise the composed post is prepended and the composer reset |
| CommunityFeed.Feed.HandleLike | src/app/comunidade/page.tsx:190-205 | signed out nothing changes; otherwise the feed is Liked |
| Sorting.InsertBy | src/lib/posts.ts:126 | inserting into a sorted list keeps it sorted and adds exactly that row |
| Sorting.SortBy | src/lib/posts.ts:126 | ORDER BY: sorted by the key and a permutation of the rows |
| Sorting.SortKeepsMembers | src/lib/posts.ts:293 | sorting keeps exactly the rows it was given |
| PostStore.PostsWithId | src/lib/posts.ts:93-97 | the select by id returns rows with that id only, none iff no post has it |
| PostStore.IsOwner | src/lib/posts.ts:93-101 | the `.single()` select finds one row and the caller wrote it (OwnerIsAuthor gives its meaning) |
| PostStore.SingleWithDistinctIds | src/lib/posts.ts:184-185 | with distinct ids the select finds exactly the one row |
| PostStore.HasPostSingle | src/lib/posts.ts:184-185 | an existing id is found exactly once |
| PostStore.NoOtherWithId | src/lib/posts.ts:93-97 | when no post has the id, the select by id returns no rows |
| PostStore.WithoutPost | src/lib/posts.ts:103-106 | the delete removes every row with the id and keeps every other row |
| PostStore.WithoutKeepsDistinct | src/lib/posts.ts:103-106 | deleting keeps post ids distinct |
| PostStore.CountLikesPositive | src/lib/posts.ts:134-137 | the like count is positive iff some like row names the post |
| PostStore.CountLikes | src/lib/posts.ts:134-138 | the `count` of like rows for the post (properties: CountLikesPositive, CountLikesAppend) |
| PostStore.CountComments | src/lib/posts.ts:140-144 | the `count` of comment rows for the post (property: CountCommentsAppend) |
| PostStore.CountLikesAppend | src/lib/posts.ts:230-235 | one inserted like adds one to its post's count and none to others |
| PostStore.CountLikesByAppend | src/lib/posts.ts:230-235 | one inserted like adds one to the viewer's count for that post only |
| PostStore.CountLikesByAtMost | src/lib/posts.ts:146-156 | the viewer's likes of a post never exceed the post's like count |
| PostStore.LikeVisibility | src/lib/posts.ts:146-156 | a first like shows as liked and counts one more; a second like by the same viewer makes it read as not liked |
| PostStore.CountCommentsAppend | src/lib/posts.ts:266-272 | one inserted comment adds one to its post's comment count |
| PostStore.Enrich | src/lib/posts.ts:131-164 | counts equal the matching like and comment rows and liked iff a viewer holds exactly one like row; a failed count shows 0 and a failed like lookup shows not liked |
| PostStore.LostNeverOverstates | src/lib/posts.ts:155-161 | an ignored follow-up failure can only lower a count or hide a like, and with none the values are exact |
| PostStore.EnrichAll | src/lib/posts.ts:131-165 | every post is enriched, in order, with its own follow-up failures |
| PostStore.NewestFirst | src/lib/posts.ts:126 | created_at descending, and a permutation of the posts |
| PostStore.CommentsFor | src/lib/posts.ts:292 | exactly that post's comments, as many as its comment count |
| PostStore.InsertedPost | src/lib/posts.ts:64-76 | the inserted row is owned by the caller, keeps the given fields, is_video defaults to false |
| PostStore.Store.constructor | src/lib/posts.ts:1-45 | an empty store with distinct post ids |
| PostStore.Store.CreatePost | src/lib/posts.ts:48-82 | no user: not authenticated, store unchanged; a backend error or taken id is re-thrown, store unchanged; otherwise exactly one row appended |
| PostStore.Store.DeletePost | src/lib/posts.ts:85-109 | no user: not authenticated; missing, unreadable or foreign post: permission error; backend error re-thrown; owner: only that post removed, likes and comments untouched |
| PostStore.Store.LikePost | src/lib/posts.ts:223-238 | no user or a backend error: error and likes unchanged; otherwise one like row keyed by the caller |
| PostStore.Store.AddComment | src/lib/posts.ts:259-278 | no user or a backend error: error and comments unchanged; otherwise one comment row keyed by the caller |
| PostStore.Store.GetPosts | src/lib/posts.ts:112-168 | all posts newest first, a permutation of the table; each with its like and comment counts (0 when that count query failed) and liked iff its like lookup succeeded and the viewer holds exactly one like; the main select's error is re-thrown |
| PostStore.Store.GetPost | src/lib/posts.ts:171-220 | the post with the id, its counts (0 on a failed count) and liked iff its lookup succeeded and the viewer holds exactly one like; the single-row error when absent |
| PostStore.GetPostAgreesWithFeed | src/lib/posts.ts:112-220 | `getPost` of any listed post returns exactly the entry `getPosts` shows for it |
| PostStore.Store.UnlikePost | src/lib/posts.ts:241-256 | no user: not authenticated; otherwise succeeds iff the viewer holds exactly one like; never changes the store |
| PostStore.Store.GetPostComments | src/lib/posts.ts:281-297 | exactly that post's comments, each as often as stored (same multiset), oldest first |
| PostStore.WithoutLikesBy | src/lib/posts.ts:241-256 | deleting the viewer's likes leaves none of them and lowers the post's count by exactly their number |
| PostStore.UnlikeUndoesLike | src/lib/posts.ts:223-256 | like then delete-the-like gives back the table as it was |
| PostStore.Store.RemoveLike | src/lib/posts.ts:241-256 | the intended unlike: auth and backend errors as in the source, otherwise the caller's likes of the post are deleted |
| PostStore.UnlikeKeepsLike | src/lib/posts.ts:248-255 | as written, unlike reports success while the like stays counted and shown |
| PostStore.OwnerIsAuthor | src/lib/posts.ts:93-101 | with distinct ids the ownership check is "the post exists and the caller wrote it" |
| WorkoutCatalog.FilteredVideos | src/app/treinos/page.tsx:34-38 | a video is listed iff it is in the catalogue and matches both selections |
| WorkoutCatalog.Matches | src/app/treinos/page.tsx:35-36 | "all" or an equal, present value, for both selections |
| WorkoutCatalog.FilterConcat | src/app/treinos/page.tsx:34-38 | the filter keeps order: it distributes over concatenation |
| WorkoutCatalog.FilterSingle | src/app/treinos/page.tsx:34-38 | one video is kept iff it matches |
| WorkoutCatalog.AllShowsEverything | src/app/treinos/page.tsx:35-36 | "all"/"all" lists every video in order |
| WorkoutCatalog.FilterIdempotent | src/app/treinos/page.tsx:34-38 | filtering the filtered list changes nothing |
| WorkoutCatalog.TruthyValues | src/app/treinos/page.tsx:41 | `filter(Boolean)` keeps exactly the present non-empty values |
| WorkoutCatalog.Dedup | src/app/treinos/page.tsx:41 | the Set keeps each value once and loses none |
| WorkoutCatalog.FirstIndex | src/app/treinos/page.tsx:41 | the first position of a value |
| WorkoutCatalog.FirstIndexExtend | src/app/treinos/page.tsx:41 | appending does not move a first occurrence |
| WorkoutCatalog.FirstIndexLast | src/app/treinos/page.tsx:41 | a value appended for the first time is first found at the end |
| WorkoutCatalog.DedupOrderStep | src/app/treinos/page.tsx:41 | one insertion into the Set keeps first-occurrence order |
| WorkoutCatalog.DedupFirstOccurrenceOrder | src/app/treinos/page.tsx:41 | the distinct values come in the order of their first occurrence |
| WorkoutCatalog.Levels | src/app/treinos/page.tsx:41 | "all" then each distinct truthy level exactly once |
| WorkoutCatalog.Categories | src/app/treinos/page.tsx:42 | "all" then each distinct truthy category exactly once |
| WorkoutCatalog.OfferedLevelIsNonEmpty | src/app/treinos/page.tsx:34-41 | every offered level, with all categories, lists at least one video |
| WorkoutCatalog.CountLabel | src/app/treinos/page.tsx:124 | singular label iff exactly one video, plural otherwise |
| WorkoutCatalog.CountLabelInjective | src/app/treinos/page.tsx:124 | different counts give different labels |
| WorkoutCatalog.EmptyStateIffNoMatch | src/app/treinos/page.tsx:127-129 | the empty-state message shows iff no video matches |
| LoginPage.LoginErrorMessage | src/app/login/page.tsx:42-50 | the first phrase found, in the order credentials, confirmation, user, picks the text; otherwise or without a message the generic text |
| LoginPage.ErrorMessageIsKnown | src/app/login/page.tsx:42-50 | every failure shows one of the four non-empty texts |
| LoginPage.PhraseAnywhereIsRecognised | src/app/login/page.tsx:42 | the credentials phrase is recognised wherever it sits in the message |
| LoginPage.NotFoundLosesToUnconfirmed | src/app/login/page.tsx:44-46 | with both phrases present, the one tested first wins |
| LoginPage.LoginForm.constructor | src/app/login/page.tsx:13-14 | no error, not loading |
| LoginPage.LoginForm.OnAuthenticationChange | src/app/login/page.tsx:16-22 | a signed-in visitor is sent to /comunidade |
| LoginPage.LoginForm.BeginEmailLogin | src/app/login/page.tsx:26-27 | the error is cleared and loading is on during the attempt |
| LoginPage.LoginForm.FinishEmailLogin | src/app/login/page.tsx:37-53 | loading is off afterwards; a failure shows the mapped text |
| LoginPage.LoginForm.HandleEmailLogin | src/app/login/page.tsx:24-54 | success: no error, user signed in; failure: mapped non-empty text, provider untouched; never loading at the end |
| LoginPage.LoginForm.HandleGoogleLogin | src/app/login/page.tsx:56-65 | error cleared; success signs the Google user in with stored copy, cookie and navigation to /comunidade; a failure shows the fixed Google text and leaves the provider unchanged |
| LoginPage.LoginForm.HandleAppleLogin | src/app/login/page.tsx:67-76 | error cleared; success signs the Apple user in with stored copy, cookie and navigation to /comunidade; a failure shows the fixed Apple text and leaves the provider unchanged |
| EmailConfirmation.ErrorParamMessage | src/app/auth/callback/page.tsx:35-39 | expired access_denied gives the expired text; otherwise the description or a default |
| EmailConfirmation.Confirm | src/app/auth/callback/page.tsx:14-95 | the full decision table: error param (5000 ms to /login), confirmation kinds by session, invalid link, unexpected exception |
| EmailConfirmation.ByKind | src/app/auth/callback/page.tsx:49-88 | the part after the error test: the session decides only for "signup"/"email" links (stated by FeedOnlyWithSession, SuccessMeansConfirmed) |
| EmailConfirmation.AccessTokenIgnored | src/app/auth/callback/page.tsx:18 | the access token never affects the outcome |
| EmailConfirmation.ErrorWins | src/app/auth/callback/page.tsx:31-46 | an error parameter wins over type and session |
| EmailConfirmation.FeedOnlyWithSession | src/app/auth/callback/page.tsx:63-81 | the redirect goes to /comunidade iff a confirmation link has a live session; otherwise to /login |
| EmailConfirmation.SuccessMeansConfirmed | src/app/auth/callback/page.tsx:49-81 | success iff a confirmation link without error whose session lookup answered |
| EmailConfirmation.EmptyErrorIsNoError | src/app/auth/callback/page.tsx:31 | an empty error parameter counts as none |
| EmailConfirmation.ExpiredLink | src/app/auth/callback/page.tsx:35-36 | "expired" anywhere in an access_denied description gives the expired text |
| EmailConfirmation.CallbackPage.constructor | src/app/auth/callback/page.tsx:10-11 | starts loading with no message |
| EmailConfirmation.CallbackPage.HandleEmailConfirmation | src/app/auth/callback/page.tsx:13-95 | status, message and timed redirect are the decision table's, never loading afterwards |
| ServiceWorker.Resolve | public/sw.js:19 | a relative path resolved against the origin: the origin followed by the path |
| ServiceWorker.PrecacheKeys | public/sw.js:6-13 | the six precache paths resolved against the origin, the home page first |
| ServiceWorker.Open | public/sw.js:18 | opening creates the cache, after the others, only when missing |
| ServiceWorker.Put | public/sw.js:55 | a put changes only that URL of that cache |
| ServiceWorker.PutAll | public/sw.js:19 | a complete addAll stores each listed URL's response and keeps other entries |
| ServiceWorker.IsOk | public/sw.js:19 | the 2xx statuses `addAll` accepts |
| ServiceWorker.Match | public/sw.js:61-67 | match answers iff some cache holds the URL |
| ServiceWorker.MatchIsFirstHolder | public/sw.js:61 | the answer comes from the first cache, in creation order, holding the URL |
| ServiceWorker.MatchFindsHeld | public/sw.js:61-67 | a held URL always gets an answer |
| ServiceWorker.Kept | public/sw.js:29-31 | activation keeps exactly the caches named fitstream-v1 or fitstream-runtime |
| ServiceWorker.KeptDistinct | public/sw.js:29-31 | pruning keeps cache names distinct |
| ServiceWorker.Intercepts | public/sw.js:40-47 | GET requests whose absolute URL contains none of "/api/", "supabase", "vercel" |
| ServiceWorker.ProviderHostInterceptsNothing | public/sw.js:43-47 | when the origin's host contains "vercel", none of the app's own requests is intercepted |
| ServiceWorker.Fallback | public/sw.js:59-68 | offline: the cached request, else the cached home page (the origin's "/"), else nothing |
| ServiceWorker.InstallFillsPrecache | public/sw.js:6-22 | a complete install puts all six resolved URLs in fitstream-v1 |
| ServiceWorker.OfflineAlwaysAnswers | public/sw.js:16-68 | after install and activate every offline request gets an answer |
| ServiceWorker.StoredResponseServedOffline | public/sw.js:54-63 | a stored 200 response is served offline when no other cache holds the URL; a stale runtime copy it replaces does not matter |
| ServiceWorker.EarlierCopyShadowsFresh | public/sw.js:54-63 | a copy in an older cache wins offline over a fresher runtime copy |
| ServiceWorker.Worker.constructor | public/sw.js:1-13 | a worker for an origin, starting over the caches earlier versions left |
| ServiceWorker.Worker.Install | public/sw.js:16-22 | installed iff every precache fetch is ok; then precache filled and skipWaiting; otherwise only the empty cache |
| ServiceWorker.Worker.Activate | public/sw.js:25-35 | other caches deleted, the two current kept, clients claimed |
| ServiceWorker.Worker.Fetch | public/sw.js:38-72 | on the absolute request URL: non-GET and API/provider URLs pass through; online the response is returned and stored iff 200; offline the fallback |
| ServiceWorker.Worker.Message | public/sw.js:75-79 | only SKIP_WAITING triggers skipWaiting |
| InstallPage.Lower | src/app/install/page.tsx:13 | lower-cases an ASCII letter and leaves other characters |
| InstallPage.ToLower | src/app/install/page.tsx:13 | lower-cases every character |
| InstallPage.ToLowerIdempotent | src/app/install/page.tsx:13 | lower-casing twice is lower-casing once |
| InstallPage.Classify | src/app/install/page.tsx:13-23 | iOS iff iphone/ipad/ipod; Android iff android and not iOS; desktop otherwise |
| InstallPage.ClassifyIgnoresCase | src/app/install/page.tsx:13 | an agent and its lower-cased form classify alike |
| InstallPage.IosBeforeAndroid | src/app/install/page.tsx:17-19 | an agent naming an iPad and Android is iOS |
| InstallPage.InstallScreen.constructor | src/app/install/page.tsx:7-9 | desktop, no prompt, not installable |
| InstallPage.InstallScreen.DetectDevice | src/app/install/page.tsx:12-23 | the device type is the classification of the agent |
| InstallPage.InstallScreen.OnBeforeInstallPrompt | src/app/install/page.tsx:26-30 | the event is kept and installation offered |
| InstallPage.InstallScreen.HandleInstallPWA | src/app/install/page.tsx:39-51 | without a prompt nothing happens; otherwise prompted, then cleared and not installable |
| InstallPrompt.Banner.constructor | src/components/PWAInstallPrompt.tsx:7-8 | hidden, no prompt, not listening |
| InstallPrompt.Banner.Mount | src/components/PWAInstallPrompt.tsx:10-31 | listens iff not standalone and not dismissed before |
| InstallPrompt.Banner.OnBeforeInstallPrompt | src/components/PWAInstallPrompt.tsx:20-24 | only a registered listener keeps the prompt and shows the banner |
| InstallPrompt.Banner.HandleInstall | src/components/PWAInstallPrompt.tsx:33-45 | without a prompt nothing; otherwise prompted, hidden and cleared |
| InstallPrompt.Banner.HandleDismiss | src/components/PWAInstallPrompt.tsx:47-50 | the flag "true" is stored and the banner hidden |
| InstallPrompt.SuppressedLoad | src/components/PWAInstallPrompt.tsx:12-17 | standalone or dismissed before: the banner never shows |
| InstallPrompt.FreshLoad | src/components/PWAInstallPrompt.tsx:10-24 | otherwise the first prompt brings the banner up holding that prompt |

## Left out

- Page layout, styling, themes, icons, `alert`, `console` logging, the share sheet and sidebar, and the static example posts (passed to `CommunityFeed.Feed.constructor`).
- The community, signup and login pages' redirect effects other than the login page's: they only call the router on the authenticated flag.
- The profile page's plain `setName`/`setEmail`/`setUnit` input handlers and the modal open/close buttons: single assignments with no logic.
- `FileReader` in `handleMediaSelect`: its result is the `dataUrl` parameter of `CommunityFeed.Feed.HandleMediaLoaded`; a missing file does nothing and is not modelled.
- `setTimeout`: the callback's redirect and delay are recorded, not run.
- The hosted database's query semantics beyond the checks written in `src/lib/posts.ts`: the joined `user` column, `updated_at`, row-level security (a backend fault) and the exact error codes (`PostStore.Message` gives representative texts). Failures of the per-post count and like queries, which the code ignores, are modelled by `PostStore.Lost`.
- The `Promise.all` fan-out and all async ordering: operations run one after another.
- `PostStore.Store.GetPost`: `.single()` on several rows with one id is not reachable because post ids are kept distinct.
- `PostStore.Store.CreatePost`: the ids and timestamps the database assigns are parameters; comment and like ids are not checked for collisions.
- `InstallPage.Lower`: only ASCII letters are lower-cased; `toLowerCase` on other scripts cannot change whether "iphone", "ipad", "ipod" or "android" occur.
- `LoginPage.LoginForm.HandleEmailLogin`: the provider's e-mail login never fails, so the thrown-error parameter models what the page would do if it did.
- `LoginPage.LoginForm.HandleGoogleLogin`: the provider's Google and Apple sign-ins never fail, so `throws` models what the page would do if they did, with the provider left as it was.
- `ServiceWorker.Worker.Fetch`: the origin is taken without a trailing slash and request URLs as already absolute; query strings, fragments and `Vary` matching are not modelled. Responses are values, so `clone()` and body streams are not modelled; `respondWith` given nothing is modelled as an answer with no response.
- JSON encoding in local storage is taken as the identity; the storage is a field.
- The route guard's `config.matcher` is framework configuration, not part of the decision.
- The thin query wrappers in `src/lib/api/` and the database setup script are not part of this model.

## Findings

| source | as written | input that shows it | evidently intended | confidence | as-written member | corrected member |
|---|---|---|---|---|---|---|
| src/lib/posts.ts:241-256 | `unlikePost` only selects the caller's like with `.single()` and throws if that fails; it never deletes anything | a user likes a post (one like row), then unlikes it: the call succeeds and the post still counts one like, shown as liked | delete the caller's like rows for the post, so that liking then unliking restores the likes table (modelled by `PostStore.Store.RemoveLike`) | not executed; high, the function is named and commented as an unlike | PostStore.UnlikeKeepsLike | PostStore.UnlikeUndoesLike |
