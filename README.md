# KingdomCast in Dafny

A model of KingdomCast, a church social-media manager. The model covers its web
client and two Supabase edge functions. The client holds the signed-in user in
an auth store and the church's content in a content store. Its pages are the
calendar, the upload form, the media library, the campaigns page and the
settings page. The settings page connects social accounts through OAuth.

The two edge functions are these:

- `social-auth` exchanges an OAuth code for tokens and saves the connected account in the
  `social_accounts` table;
- `social-post` publishes to Facebook or YouTube with a saved account.

The client fans a post out to `social-post`, one call per connected account.

Each source file is one module:

| module | models |
|---|---|
| `Types` | `src/types/index.ts` |
| `AuthStore` | `src/store/authStore.ts` |
| `ContentStore` | `src/store/contentStore.ts` |
| `SocialMediaService` | `src/services/socialMediaService.ts` |
| `SocialAuth` | `supabase/functions/social-auth/index.ts` |
| `SocialPost` | `supabase/functions/social-post/index.ts` |
| `App` | `src/App.tsx` |
| `Register` | `src/pages/auth/Register.tsx` |
| `ContentUploader` | `src/pages/content/ContentUploader.tsx` |
| `ChurchIdModal` | `src/components/modals/ChurchIdModal.tsx` |
| `SocialConnect` | `src/components/settings/SocialConnect.tsx` |
| `Settings` | `src/pages/settings/Settings.tsx` |
| `Calendar` | `src/pages/calendar/Calendar.tsx` |
| `MediaLibrary` | `src/pages/media/MediaLibrary.tsx` |
| `Campaigns` | `src/pages/campaigns/Campaigns.tsx` |

Helper modules:

- `Wrappers`: `Option` and `Result`.
- `Text`: prefix, containment, trimming, ASCII lower case, join, decimal rendering and the last
  path segment.
- `Seqs`: filter, map, find, a stable insertion sort.
- `Http`: a reply's status and JSON body.
- `Credentials`: the `social_accounts` table as a class over a sequence of rows.
- `ClientStorage`: the browser's `localStorage` as a class over a map.

Conventions:

- Code that changes state in place is a Dafny `class`, whose methods state their new state
  through pure functions. This covers the stores, the form components, the credential table and
  `localStorage`.
- Code that only computes is a function.
- Everything outside the program is a parameter: the Supabase client, `fetch`, the
  platform APIs, the clock and `Math.random`. A call takes the reply it receives or the error
  it reports.
- JavaScript truthiness is written out: `''`, `null` and `undefined` are false.
- An `a || b` on strings is `OrElse`.

## Model

| member | source | states |
|---|---|---|
| Types.ParsePlatform | src/types/index.ts:3 | only the four platform literals are read as platforms, and a read platform's name is the text read |
| Types.PlatformNamesRoundTrip | src/types/index.ts:3 | every platform's literal reads back as that platform; the platform list has no repeats |
| Types.LiteralsDistinct | src/types/index.ts:1-7 | the role, content-type and status literals are pairwise distinct, so each union is in bijection with its names |
| AuthStore.ToUser | src/store/authStore.ts:55-66 | the profile row's snake_case columns land in the `User` fields of the same meaning, `church_id` in `churchId` |
| AuthStore.GetUser | src/store/authStore.ts:23-77 | never leaves `loading` raised; there is a user iff there is a session user with a profile row, and then no error; an error is recorded iff the auth service failed or the profile query failed with a code other than PGRST116 |
| AuthStore.MissingProfileIsNotAnError | src/store/authStore.ts:36-52 | a missing profile, whether PGRST116 or an empty reply, signs the user out without an error |
| AuthStore.Failed | src/store/authStore.ts:92-98 | a failed sign-in or sign-up clears the user, drops `loading`, records the message or the fallback, and rethrows |
| AuthStore.SignIn | src/store/authStore.ts:79-100 | nothing is thrown iff the password check returned a user, and then the state is the profile load's; otherwise the user is cleared and an error recorded |
| AuthStore.SignUp | src/store/authStore.ts:102-136 | a `viewer` profile with the given names and church id is inserted iff the account was created; nothing is thrown iff that insert also succeeded, and then the state is the profile load's |
| AuthStore.SignOut | src/store/authStore.ts:138-159 | success resets the store; a failure keeps the user, records the message or 'Failed to sign out' and rethrows |
| AuthStore.OnAuthEvent | src/store/authStore.ts:161-171 | SIGNED_IN reloads the profile, SIGNED_OUT resets the store, any other event leaves it as it is |
| AuthStore.SignOutIsIdempotent | src/store/authStore.ts:138-171 | signing out, or receiving SIGNED_OUT, twice leaves the same signed-out store as once |
| AuthStore.SignInThenEventAgree | src/store/authStore.ts:79-100 | the SIGNED_IN event after a successful sign-in changes nothing further |
| AuthStore.Store.constructor | src/store/authStore.ts:16-19 | the store starts without user, loading flag or error |
| AuthStore.Store.Set | src/store/authStore.ts:16-19 | the store holds exactly the given state |
| AuthStore.Store.ClearError | src/store/authStore.ts:21 | only the error is cleared |
| AuthStore.Store.GetUserFrom | src/store/authStore.ts:23-77 | the store takes the state `GetUser` describes |
| AuthStore.Store.SignInWith | src/store/authStore.ts:79-100 | the store and the rethrown error are those `SignIn` describes |
| AuthStore.Store.SignUpWith | src/store/authStore.ts:102-136 | the store, the inserted profile and the rethrown error are those `SignUp` describes |
| AuthStore.Store.SignOutWith | src/store/authStore.ts:138-159 | the store is `SignOut` of its old state; the service's error is rethrown |
| AuthStore.Store.HandleAuthEvent | src/store/authStore.ts:161-171 | the store is `OnAuthEvent` of its old state |
| ContentStore.Merge | src/store/contentStore.ts:74-78 | each field present in the patch replaces the item's, every absent one is kept, `updatedAt` is the current time; an empty patch only touches the time |
| ContentStore.UpdateItems | src/store/contentStore.ts:74-78 | the list keeps its length and order; exactly the items with the id are merged |
| ContentStore.ScheduleItems | src/store/contentStore.ts:119-125 | the list keeps its length and order; exactly the items with the id get the schedule time, status `scheduled` and the current time |
| ContentStore.DeleteItems | src/store/contentStore.ts:96-97 | an item stays iff it was there and has another id; other items keep their multiplicity |
| ContentStore.ChurchRowsKeepsRows | src/store/contentStore.ts:21-37 | the fetched list is a permutation of the church's rows |
| ContentStore.ChurchRowsOrdered | src/store/contentStore.ts:21-37 | scheduled rows come first in ascending time order, unscheduled rows last |
| ContentStore.UpdateTouchesOnlyId | src/store/contentStore.ts:60-83 | items with another id are unchanged; the edited ones carry the new time and keep their id unless the patch sets one |
| ContentStore.DeleteRemovesExactlyId | src/store/contentStore.ts:85-102 | after a delete no item has the id, the rest stay in order, and deleting again changes nothing |
| ContentStore.ScheduleIsUpdate | src/store/contentStore.ts:104-130 | scheduling is the update whose patch sets the time and the `scheduled` status |
| ContentStore.Store.constructor | src/store/contentStore.ts:17-19 | the store starts empty, not loading, without error |
| ContentStore.Store.Fail | src/store/contentStore.ts:33-36 | a failed action keeps the list, drops `loading` and records the message |
| ContentStore.Store.GetContents | src/store/contentStore.ts:21-37 | on success the list is the church's rows in schedule order; on failure the list is kept and the error recorded |
| ContentStore.Store.CreateContent | src/store/contentStore.ts:39-58 | the inserted record is the new content stamped with the creation time; after a successful insert the list is reloaded; any failure is recorded and not rethrown |
| ContentStore.Store.UpdateContent | src/store/contentStore.ts:60-83 | on success the list is `UpdateItems` of the old one; on failure it is kept and the error recorded |
| ContentStore.Store.DeleteContent | src/store/contentStore.ts:85-102 | on success the list is `DeleteItems` of the old one; on failure it is kept and the error recorded |
| ContentStore.Store.ScheduleContent | src/store/contentStore.ts:104-130 | on success the list is `ScheduleItems` of the old one; on failure it is kept and the error recorded |
| SocialMediaService.Settle | src/services/socialMediaService.ts:40-52 | a call is fulfilled iff its reply is 2xx; a rejection carries the reply's `message` or 'Failed to post to <platform>' |
| SocialMediaService.Reasons | src/services/socialMediaService.ts:55-58 | there are no reasons iff every call was fulfilled |
| SocialMediaService.Results | src/services/socialMediaService.ts:26-53 | one settled result per account, each from that account's own reply |
| SocialMediaService.FanOut | src/services/socialMediaService.ts:26-62 | one call per account, in order, each naming the account and carrying the session token; the post succeeds iff every reply is 2xx, otherwise the error is the prefix followed by the reasons joined with ', ' |
| SocialMediaService.PostToSocialMedia | src/services/socialMediaService.ts:11-69 | no user: 'Not authenticated' and no call; a failed account query: its message and no call; otherwise one call per matching account; a success means every call's reply was 2xx |
| SocialMediaService.NotAuthenticated | src/services/socialMediaService.ts:13-15 | without a user nothing is called and the error is 'Not authenticated' |
| SocialMediaService.OneCallPerMatchedAccount | src/services/socialMediaService.ts:17-37 | exactly the user's rows on a requested platform are called, in row order; requested platforms without an account are skipped |
| SocialMediaService.FailsUpFrontOnlyWithoutAccounts | src/services/socialMediaService.ts:22-24 | 'No connected social accounts found' is reported iff no account matches |
| SocialMediaService.AllSucceed | src/services/socialMediaService.ts:55-62 | when every reply is 2xx the result is one fulfilled value per account, in order |
| SocialMediaService.OneFailureFailsAll | src/services/socialMediaService.ts:55-60 | a single failed call fails the whole post, and the message names that call's reason |
| SocialMediaService.ReasonsAreFailures | src/services/socialMediaService.ts:55-58 | the reasons are exactly the rejected results' reasons, in order |
| SocialMediaService.ReasonWithoutMessage | src/services/socialMediaService.ts:45-49 | a failed reply without a `message` field, which is every `social-post` error, is reported with the fixed text |
| SocialAuth.Thrown | supabase/functions/social-auth/index.ts:198-211 | a thrown error is answered with its message and status 401 iff the message contains 'Missing', otherwise 500 |
| SocialAuth.Check | supabase/functions/social-auth/index.ts:29-87 | the request passes iff it has a bearer token of a known user, a matching `x-user-id` and a truthy code; refusals are 401, except 400 for a missing code |
| SocialAuth.StoredPlatformOfSegments | supabase/functions/social-auth/index.ts:187 | `facebook-auth` and `youtube-auth` are stored as `facebook` and `youtube` |
| SocialAuth.FacebookExchange | supabase/functions/social-auth/index.ts:93-123 | a credential is saved iff both Facebook secrets are set and the token and page-list replies are both ok; a saved one belongs to the caller, is for Facebook and carries the save time |
| SocialAuth.FacebookFailureReplies | supabase/functions/social-auth/index.ts:106-120 | a failed token reply is answered with its error message or 'Failed to get Facebook access token' after the one exchange call; a failed page reply with its message or 'Failed to get Facebook pages' after both calls; neither saves |
| SocialAuth.YouTubeExchange | supabase/functions/social-auth/index.ts:125-175 | a credential is saved iff both YouTube secrets are set, the token reply is ok with an `expires_in`, and the channel listing is ok with at least one channel; a saved one belongs to the caller, is for YouTube and carries the save time |
| SocialAuth.YouTubeFailureReplies | supabase/functions/social-auth/index.ts:147-172 | a failed token reply is answered with `error_description`, else `error`, else 'Failed to get YouTube access token'; a missing `expires_in` with 'Invalid time value'; a failed listing with its message or 'Failed to get YouTube channel info'; an empty one with 'No YouTube channels found for this account'; the calls stop at the failing step and nothing is saved |
| SocialAuth.Decide | supabase/functions/social-auth/index.ts:23-187 | OPTIONS gets the bare preflight reply; a request failing a check gets that check's reply with no call; a save happens only on the facebook-auth or youtube-auth segment (the rest of the handler is in the lemmas below) |
| SocialAuth.AfterSave | supabase/functions/social-auth/index.ts:187-211 | a successful save is answered 200 `{success: true}`, a failed one with the database's message |
| SocialAuth.PreflightSkipsChecks | supabase/functions/social-auth/index.ts:24-26 | OPTIONS is answered bare, before any check or call |
| SocialAuth.FailedCheckStopsEarly | supabase/functions/social-auth/index.ts:29-87 | a refused request makes no platform call and saves nothing |
| SocialAuth.UnsupportedSegment | supabase/functions/social-auth/index.ts:177-184 | any other segment is answered 400 'Unsupported platform: <segment>' without a call |
| SocialAuth.SaveOnlyAfterExchange | supabase/functions/social-auth/index.ts:89-187 | a row is saved only for an authorised request with a code, under the caller's id and the segment's platform |
| SocialAuth.FacebookSavesPages | supabase/functions/social-auth/index.ts:93-123 | a successful Facebook exchange saves the exchanged token with the pages it lists |
| SocialAuth.YouTubeSavesChannels | supabase/functions/social-auth/index.ts:125-175 | a successful YouTube exchange saves the tokens, the expiry and the channels |
| SocialAuth.NoChannelsNoSave | supabase/functions/social-auth/index.ts:170-172 | an account without channels is refused with 'No YouTube channels found for this account' and nothing is saved |
| SocialAuth.MissingSecretsAre401 | supabase/functions/social-auth/index.ts:94-128 | a missing Facebook app id or app secret, or a missing YouTube client id or client secret, is reported with status 401 and the platform's 'Missing … credentials' message before any call |
| SocialAuth.Serve | supabase/functions/social-auth/index.ts:23-237 | the table changes only by the upsert of the planned credential, and then keeps one row per (user, platform) |
| SocialPost.AccountFor | supabase/functions/social-post/index.ts:41-50 | a found account is a row with that id owned by the caller |
| SocialPost.OwnRowIsFound | supabase/functions/social-post/index.ts:41-46 | with unique ids, the caller's own row is always found |
| SocialPost.UniqueIdMatches | supabase/functions/social-post/index.ts:41-46 | with unique ids, exactly one row matches the id and the owner, so `.single()` succeeds |
| SocialPost.Caller | supabase/functions/social-post/index.ts:25-35 | the caller is known iff the header is a bearer token the identity service accepts, and then it is that user |
| SocialPost.Dispatch | supabase/functions/social-post/index.ts:52-103 | at most one platform request, which carries the account's token; a 200 reply means the request was made; the reply is 200 or 500 |
| SocialPost.Handle | supabase/functions/social-post/index.ts:19-104 | every non-preflight request is answered 200 or 500 with a JSON body without `message`, after at most one platform call |
| SocialPost.PreflightOnly | supabase/functions/social-post/index.ts:20-22 | OPTIONS is answered bare, without a call |
| SocialPost.CallsOnlyForOwnAccount | supabase/functions/social-post/index.ts:25-50 | a platform request is made only for an authenticated caller and an account row that caller owns |
| SocialPost.UnknownAccount | supabase/functions/social-post/index.ts:48-50 | a missing or foreign account is answered 500 'Social account not found' without a call |
| SocialPost.FacebookEndpoint | supabase/functions/social-post/index.ts:106-127 | a Facebook post for an account with pages makes one request, addressed to the id of the first page (`pages[0].id`): `/photos` with `url` when a media URL is given, otherwise `/feed` without `url`; both carry the message and the account's token |
| SocialPost.YouTubeNeedsVideo | supabase/functions/social-post/index.ts:129-133 | a YouTube post without a video URL fails before any request |
| SocialPost.YouTubeMetadataFixed | supabase/functions/social-post/index.ts:135-150 | the upload metadata is the message as title and as description; no tags, category 22, public, not made for kids |
| SocialPost.UnsupportedPlatform | supabase/functions/social-post/index.ts:63-65 | any other platform segment is answered 500 'Unsupported platform: <segment>' without a call |
| SocialPost.PlatformRefusal | supabase/functions/social-post/index.ts:120-124 | a refused platform request is answered 500 with the platform's message or the fallback |
| App.ProtectedRoute | src/App.tsx:23-61 | a spinner iff loading; the page iff not loading, no error and a user; a redirect, always to /login, iff not loading, no error and no user; otherwise the error screen with the store's message |
| App.AuthLayout | src/layouts/AuthLayout.tsx:6-39 | the sign-in and registration forms show a spinner iff the store loads, a redirect to `/` iff it has settled with a user, and the form iff it has settled without one |
| App.Route | src/App.tsx:79-109 | the routing table: login and register go through the auth layout, the five protected paths go through the guard, settings is open, the root redirects by the user, anything else is not found |
| App.Screen | src/App.tsx:63-109 | while the store loads with neither user nor error the whole app shows the spinner; otherwise the route decides |
| App.RedirectsSettle | src/App.tsx:79-109 | redirects settle within two steps; the only two-step chain is a signed-in user on login or register, sent to `/` by the layout and then to /dashboard; every other redirect leads to a path that does not redirect again |
| App.PagesFollowTheUser | src/App.tsx:23-109 | a protected page is shown only to a signed-in user who is not loading; a signed-in user on login or register never sees the form: the spinner while loading, else the redirect to `/` |
| App.SettingsUnguarded | src/App.tsx:97 | the settings page is shown without a user |
| App.FailedSignInShowsError | src/App.tsx:41-52 | after a failed sign-in a protected path shows the error, not the page |
| App.SignedInGoesToDashboard | src/App.tsx:84-103 | after a sign-in that loads a profile, /login redirects to `/`, `/` redirects to /dashboard, and /dashboard shows its page |
| Register.Submit | src/pages/auth/Register.tsx:21-36 | 'Please fill in all fields' iff a field is empty; the length message iff all are filled and the password is shorter than 6; otherwise sign-up is called with a `church-<ms>` id |
| Register.AfterSignUp | src/pages/auth/Register.tsx:36-41 | the dashboard iff sign-up threw nothing, else the message or 'Failed to create account' |
| Register.ChurchNameNotPassed | src/pages/auth/Register.tsx:24-36 | the church name is only checked for being non-empty; it never reaches the sign-up call |
| Register.ChurchIdsDiffer | src/pages/auth/Register.tsx:35 | generated ids start with `church-` and differ for different instants |
| ContentUploader.Toggle | src/pages/content/ContentUploader.tsx:43-49 | the platform is selected afterwards iff it was not before; others are unchanged; no duplicates appear |
| ContentUploader.ToggleTwice | src/pages/content/ContentUploader.tsx:43-49 | toggling twice restores the selection as a set, and gives back the very same list when the platform was not selected |
| ContentUploader.AddTag | src/pages/content/ContentUploader.tsx:51-56 | a trimmed, non-empty, new tag is appended and the input cleared; otherwise nothing changes; tags stay trimmed, non-empty and unique |
| ContentUploader.RemoveTag | src/pages/content/ContentUploader.tsx:58-60 | the tag is gone, every other tag keeps its multiplicity, and the list stays well formed |
| ContentUploader.AddThenRemove | src/pages/content/ContentUploader.tsx:51-60 | adding a fresh tag and removing it gives back the list |
| ContentUploader.TypeForFile | src/pages/content/ContentUploader.tsx:30-41 | an image MIME type selects image, a video one video, anything else keeps the type |
| ContentUploader.Decide | src/pages/content/ContentUploader.tsx:62-108 | not logged in iff no user; the church-id modal iff the user's church id is falsy; otherwise the checks in order, then the record built from every form field, as `scheduled` or `draft`, and an immediate post iff not scheduling |
| ContentUploader.CheckOrder | src/pages/content/ContentUploader.tsx:75-88 | the title is checked first, then the platforms, then the schedule time |
| ContentUploader.PublishMessage | src/pages/content/ContentUploader.tsx:111-118 | an immediate post uses the description, or the title when the description is empty, with the form's platforms and media |
| ContentUploader.AsWrittenAlwaysAsksForChurchId | src/pages/content/ContentUploader.tsx:70 | as written, every signed-in user is sent to the church-id modal, whatever the profile holds |
| ContentUploader.CorrectedGatePassesWithChurchId | src/store/authStore.ts:61 | reading `churchId`, a user whose profile has a church id gets past the gate and a valid form proceeds |
| ContentUploader.Uploader.constructor | src/pages/content/ContentUploader.tsx:14-28 | the form starts empty, type image, not scheduling, not posting |
| ContentUploader.Uploader.TogglePlatform | src/pages/content/ContentUploader.tsx:43-49 | the selection becomes `Toggle` of the old one; every other form field, the tag input and the posting and modal flags are unchanged |
| ContentUploader.Uploader.AddHashtag | src/pages/content/ContentUploader.tsx:51-56 | the tags and input become `AddTag` of the old ones; every other form field and the posting and modal flags are unchanged |
| ContentUploader.Uploader.RemoveHashtag | src/pages/content/ContentUploader.tsx:58-60 | the tags become `RemoveTag` of the old ones; every other form field, the tag input and the flags are unchanged |
| ContentUploader.Uploader.HandleFileChange | src/pages/content/ContentUploader.tsx:30-41 | a chosen file is kept and sets the type by `TypeForFile`; no file changes nothing; every other field is unchanged |
| ContentUploader.Uploader.Submit | src/pages/content/ContentUploader.tsx:62-150 | the decision is `Decide` on the form, reading the church id from the given user property: with `church_id`, as written, it is always the church-id modal (`AsWrittenAlwaysAsksForChurchId`); with `churchId`, the corrected reading, a user with a church id gets past it; the modal opens on a missing church id; the store changes only when proceeding, and then ends not loading, holding the reloaded church rows, or its old list with the insert's or the reload's error; the form and the tag input are unchanged; navigation to /calendar iff proceeding, even when the insert failed |
| ChurchIdModal.Accepted | src/components/modals/ChurchIdModal.tsx:19-28 | an accepted id is the trimmed input and is not empty |
| ChurchIdModal.AcceptedIffNotBlank | src/components/modals/ChurchIdModal.tsx:19-22 | the input is refused iff it is all white space; an accepted id is already trimmed |
| ChurchIdModal.Dialog.constructor | src/components/modals/ChurchIdModal.tsx:13-14 | the dialog starts with empty input, not loading |
| ChurchIdModal.Dialog.SetInput | src/components/modals/ChurchIdModal.tsx:66 | typing replaces the input and leaves loading and the toast as they were |
| ChurchIdModal.Dialog.Begin | src/components/modals/ChurchIdModal.tsx:16-29 | a blank input is refused with 'Please enter a church ID' and no update, leaving loading as it was; otherwise loading rises and the trimmed id is written for the auth user; the handler has no guard against a second submit while loading |
| ChurchIdModal.Dialog.Finish | src/components/modals/ChurchIdModal.tsx:31-40 | success is reported iff the update had no error; loading falls either way; an error is shown with its message or the fallback |
| ClientStorage.LocalStorage.constructor | src/pages/settings/Settings.tsx:50 | storage starts empty |
| ClientStorage.LocalStorage.GetItem | src/pages/settings/Settings.tsx:50 | an item is found iff its key is stored, and it is the stored value |
| ClientStorage.LocalStorage.SetItem | src/components/settings/SocialConnect.tsx:105 | only the key's value changes |
| ClientStorage.LocalStorage.RemoveItem | src/pages/settings/Settings.tsx:55 | only the key is removed |
| Credentials.KeyIndex | supabase/functions/social-auth/index.ts:223-233 | a found index holds a row of that (user, platform) key; none is found iff no row has it |
| Credentials.UpsertRows | supabase/functions/social-auth/index.ts:223-233 | the table keeps one row per key; the key's row carries the new credential; rows under other keys are kept and none is added |
| Credentials.ReconnectKeepsOneRow | supabase/functions/social-auth/index.ts:223-233 | connecting twice leaves one row for the pair, holding the second credential |
| Credentials.KeyIsUnique | supabase/functions/social-auth/index.ts:223-233 | in a well-keyed table two rows with the same key are the same row |
| Credentials.DeleteRemovesOnlyThePair | src/components/settings/SocialConnect.tsx:181-186 | deleting removes the pair's row, keeps every other row in order, and is idempotent |
| Credentials.Single | supabase/functions/social-post/index.ts:41-46 | `.single()` yields a row iff exactly one matches |
| Credentials.CredentialTable.constructor | supabase/functions/social-auth/index.ts:223-233 | the table starts empty and well keyed |
| Credentials.CredentialTable.Upsert | supabase/functions/social-auth/index.ts:223-237 | a successful upsert changes the rows as `UpsertRows` says; a failure changes nothing and is reported |
| Credentials.CredentialTable.Delete | src/components/settings/SocialConnect.tsx:181-186 | a successful delete changes the rows as `DeleteRows` says; a failure changes nothing and is reported |
| SocialConnect.StateValue | src/components/settings/SocialConnect.tsx:104 | the OAuth state starts with `<platform>_` and carries the random suffix after it |
| SocialConnect.Lookup | src/components/settings/SocialConnect.tsx:113-149 | a parameter is found iff one has that name |
| SocialConnect.AuthorizationUrl | src/components/settings/SocialConnect.tsx:108-152 | an error iff the platform's client id is not configured, or the platform is not Facebook or YouTube; otherwise the first parameters are client id and encoded redirect URI, and the last is the state |
| SocialConnect.FacebookUrl | src/components/settings/SocialConnect.tsx:113-123 | the Facebook dialog URL, with exactly client_id, redirect_uri, scope and state, in that order |
| SocialConnect.FacebookRendered | src/components/settings/SocialConnect.tsx:119-123 | the rendered Facebook URL, character for character |
| SocialConnect.YouTubeUrl | src/components/settings/SocialConnect.tsx:125-149 | the Google URL has the eight parameters in order, with response type `code`, offline access, incremental grant and consent prompt |
| SocialConnect.YouTubeScopeRequested | src/components/settings/SocialConnect.tsx:130-138 | the requested scope names each of the seven YouTube scopes |
| SocialConnect.AccountName | src/components/settings/SocialConnect.tsx:209-212 | '' without pages, else the first page's name, else its username, else '' |
| SocialConnect.Card.constructor | src/components/settings/SocialConnect.tsx:19-23 | a card starts idle, without error or account |
| SocialConnect.Card.HandleConnect | src/components/settings/SocialConnect.tsx:91-171 | without a user, 'Not authenticated' and storage untouched; otherwise the state is stored under the platform's key before the platform check, so it stays stored even when no URL can be built, and the redirect or error is `AuthorizationUrl`'s |
| SocialConnect.Card.HandleDisconnect | src/components/settings/SocialConnect.tsx:173-207 | disconnected iff there is a user and the delete succeeded; then the pair's row is gone and the account info cleared; otherwise the table and the account info are unchanged and the error shown |
| Settings.PageName | src/pages/settings/Settings.tsx:84-86 | the first page's name when there is a first page with a name; the empty string when there are no pages or the first has no name |
| Settings.Refresh | src/pages/settings/Settings.tsx:80-87 | the four cards keep their platforms; a card is connected iff a row of its platform exists; a disconnected card has no name |
| Settings.RefreshNamesFirstRow | src/pages/settings/Settings.tsx:82-86 | a connected card shows the name of the first row of its platform |
| Settings.RefreshConnectedIffKey | src/pages/settings/Settings.tsx:80-87 | over the user's rows, a card is connected iff the table holds the (user, platform) pair |
| Settings.RefreshNamesTheRow | src/pages/settings/Settings.tsx:80-87 | in a well-keyed table a connected card shows the name of that pair's row |
| Settings.DisconnectThenRefresh | src/pages/settings/Settings.tsx:148-169 | after deleting a pair and reloading, that card is disconnected with no name, and every card of another platform is what a reload before the delete would have shown |
| Settings.CallbackDecision | src/pages/settings/Settings.tsx:41-63 | nothing happens unless platform, code and state are all present; a state that is not stored, or differs, is refused; otherwise the exchange proceeds for that user |
| Settings.ConnectThenCallback | src/pages/settings/Settings.tsx:41-63 | the state a card stores on connect is accepted by the callback for the same platform |
| Settings.ForeignStateRefused | src/pages/settings/Settings.tsx:48-56 | a state other than the stored one is refused |
| Settings.OAuthCallback | src/pages/settings/Settings.tsx:96-130 | the exchange is called iff the session has a token, with the user and code; errors are the session's, 'No access token available', the body's error or the fallback, and 'Failed to connect account' for an unsuccessful reply |
| Settings.ExchangeSegmentRoundTrip | src/pages/settings/Settings.tsx:102 | the function segment the client calls is stored by `social-auth` under the same platform |
| Settings.SettingsPage.constructor | src/pages/settings/Settings.tsx:25-30 | the page starts with the four disconnected platforms, loading |
| Settings.SettingsPage.FetchConnectedAccounts | src/pages/settings/Settings.tsx:65-94 | loading is false afterwards on every path, the early return included; without a user the cards are unchanged; a successful load sets the cards to `Refresh` of the user's rows, and a failure keeps them |
| Settings.SettingsPage.CheckCallback | src/pages/settings/Settings.tsx:41-63 | on an accepted callback the state is removed and the page goes back to /settings; otherwise storage is untouched |
| Settings.SettingsPage.CompleteCallback | src/pages/settings/Settings.tsx:96-130 | a successful exchange reloads the cards and clears the loading flag (the cards stay as they were when the reload fails); a failure keeps the cards and the flag |
| Settings.SettingsPage.HandleDisconnect | src/pages/settings/Settings.tsx:148-169 | a successful delete removes the pair's row, reloads the cards (kept when the reload fails) and clears the loading flag; a failure changes neither the table, the cards nor the flag |
| Settings.CardThenPageDelete | src/pages/settings/Settings.tsx:414-420 | the card's delete followed by the page's delete leaves the table as the card's delete alone |
| Calendar.MonthLength | src/pages/calendar/Calendar.tsx:63-65 | every month has between 28 and 31 days |
| Calendar.YearLength | src/pages/calendar/Calendar.tsx:63-65 | the month lengths add up to 365, or 366 in a leap year |
| Calendar.ConstructorYear | src/pages/calendar/Calendar.tsx:64 | the `Date` constructor reads years 0 to 99 as 1900 to 1999 and keeps the others |
| Calendar.DaysInMonth | src/pages/calendar/Calendar.tsx:63-65 | between 28 and 31 days; 29 exactly for February of a leap year as the constructor reads the year; outside years 0 to 99 the month's own length |
| Calendar.Weekday | src/pages/calendar/Calendar.tsx:67-69 | a weekday index from 0 (Sunday) to 6 |
| Calendar.FirstDayOfMonth | src/pages/calendar/Calendar.tsx:67-69 | the weekday of the month's first day |
| Calendar.KnownWeekdays | src/pages/calendar/Calendar.tsx:67-69 | 1 January 1970 is a Thursday and 1 March 2025 a Saturday |
| Calendar.FollowingMonthWeekday | src/pages/calendar/Calendar.tsx:67-69 | a month starts on the weekday after its predecessor's first day, moved on by that month's length |
| Calendar.YearShiftStep | src/pages/calendar/Calendar.tsx:67-69 | a year moves the weekday on by one, or two after a leap year |
| Calendar.PreviousMonth | src/pages/calendar/Calendar.tsx:79-80 | January steps back to December of the year before, any other month to the one before |
| Calendar.FollowingMonth | src/pages/calendar/Calendar.tsx:105-106 | December steps on to January of the year after, any other month to the one after |
| Calendar.PreviousFollowingInverse | src/pages/calendar/Calendar.tsx:79-106 | stepping back and then on, or on and then back, returns to the month |
| Calendar.GetMonthData | src/pages/calendar/Calendar.tsx:71-120 | 42 cells: the previous month's last days up to the first weekday, the month's days in order, then the next month's first days, each marked current iff in the month |
| Calendar.CalendarView.constructor | src/pages/calendar/Calendar.tsx:21 | the view starts on the given month |
| Calendar.CalendarView.NextMonth | src/pages/calendar/Calendar.tsx:122-124 | the view moves to the following month, on the constructor's year |
| Calendar.CalendarView.PrevMonth | src/pages/calendar/Calendar.tsx:126-128 | the view moves to the previous month, on the constructor's year |
| Calendar.NavigationRoundTrip | src/pages/calendar/Calendar.tsx:122-128 | for years past 100, next then previous returns to the same month |
| Calendar.ContentForDay | src/pages/calendar/Calendar.tsx:135-144 | exactly the items on that day, in their order |
| Calendar.Upcoming | src/pages/calendar/Calendar.tsx:339-341 | the smaller of 3 and the count of items, in time order, drawn from the list: no item appears more often than it does there |
| Calendar.UpcomingAreEarliest | src/pages/calendar/Calendar.tsx:339-341 | an item earlier than the last one shown is among those shown |
| MediaLibrary.FilteredMedia | src/pages/media/MediaLibrary.tsx:83-88 | exactly the items matching the type and the case-insensitive title search, each as often as before, newest first |
| MediaLibrary.ClearedShowsEverything | src/pages/media/MediaLibrary.tsx:246-249 | with cleared filters every item is shown |
| MediaLibrary.SearchIgnoresCase | src/pages/media/MediaLibrary.tsx:84-86 | searching in another case gives the same result |
| MediaLibrary.FiltersNarrow | src/pages/media/MediaLibrary.tsx:83-88 | a type filter shows only items of that type; a search shows only items whose lower-cased title contains the lower-cased term |
| MediaLibrary.Filters.constructor | src/pages/media/MediaLibrary.tsx:22-23 | filters start cleared |
| MediaLibrary.Filters.SetSearchTerm | src/pages/media/MediaLibrary.tsx:83-88 | only the search term changes |
| MediaLibrary.Filters.SetSelectedType | src/pages/media/MediaLibrary.tsx:83-88 | only the type filter changes |
| MediaLibrary.Filters.ClearFilters | src/pages/media/MediaLibrary.tsx:246-249 | both filters are cleared |
| Campaigns.FilteredCampaigns | src/pages/campaigns/Campaigns.tsx:72-76 | exactly the campaigns with the tab's status, in their order |
| Campaigns.OneTabEach | src/pages/campaigns/Campaigns.tsx:72-76 | a campaign shows on at most one tab |
| Campaigns.CalculateProgress | src/pages/campaigns/Campaigns.tsx:83-85 | the completed share in percent, rounded half up; 0 when there are no posts |
| Campaigns.ProgressIsPercentage | src/pages/campaigns/Campaigns.tsx:83-85 | for completed counts up to the total, the progress lies in 0..100 and is 100 when all are completed |
| Campaigns.ProgressBar | src/pages/campaigns/Campaigns.tsx:209-216 | a bar is drawn iff the campaign is active, with the width `CalculateProgress` gives |

## Left out

- The React rendering, toasts, icons, date formatting and the `debugInfo` panel are left out. The model keeps the
  state each page holds and the messages it shows.
- I/O is a parameter: the Supabase client, `fetch`, the platform APIs and the identity service.
  A call's reply is an argument, and concurrent calls are modelled one after another.
  `Promise.allSettled` in `postToSocialMedia` therefore settles each call from its own reply,
  independent of order.
- A component's `loading` flag is visible only after the awaited step: methods that await are
  split at the await (`Dialog.Begin`/`Finish`) or show only the final state.
- Times are integers (milliseconds since the epoch). `toISOString`, parsing ISO strings and the
  range limits of `Date` are not modelled.
- `Date.now()` and `new Date()` are parameters. Where the source reads the clock several times in one step, the model
  uses one instant (`createContent`'s `createdAt` and `updatedAt`).
- `Math.random().toString(36)` is the `suffix` parameter of `SocialConnect.Card.HandleConnect`.
- `encodeURIComponent` is the `encode` parameter of `SocialConnect.Render`. The URL is kept
  as a list of parameters, each marked as encoded or not.
- A reply body that is not JSON is read as an empty object. The client's `response.json()` would throw
  there.
- The edge functions read their request body with `await req.json()`
  (`supabase/functions/social-auth/index.ts:78`, `supabase/functions/social-post/index.ts:37`).
  A body that is not JSON throws there and the `catch` answers with an error reply. The model's
  request holds the parsed fields, so that path is not modelled.
- A `fetch` that rejects, for example on a network failure, is not modelled. This covers the
  settings page's call to `social-auth` (`src/pages/settings/Settings.tsx:102-110`), whose
  rejection the `catch` would show as a toast. The model's reply function always returns a response.
- Strings are sequences of characters, not UTF-16 code units. `trim` removes ECMAScript white
  space and line terminators; `toLowerCase` is modelled for ASCII letters only.
- Credentials.UpsertRows: the upsert in `saveSocialAccount` names no conflict target, so the
  database resolves conflicts on the primary key. The model assumes (user_id, platform) is the
  upsert's conflict target. Otherwise, if `id` is the primary key, each connect would add a row;
  and if a separate unique constraint on (user_id, platform) exists, a reconnect would fail with a
  duplicate-key error, answered 500, and the row would not be replaced.
- `getContents` orders by `scheduledFor`. The model sorts stably, unscheduled rows last. The
  database's order among equal times is not known.
- An explicit `undefined` in an update patch is modelled as an absent field.
- `social-post`'s `details` field (the response text) and the stack in `social-auth`'s error body are
  left out. The client reads neither.
- Campaigns.CalculateProgress: JavaScript's `Math.round` on a floating-point quotient is
  modelled as exact round-half-up on rationals. Float error at a .5 boundary is not modelled.
- Calendar.Weekday: `getDay` on the local time zone is modelled as the proleptic Gregorian
  weekday of the date. Time-zone and daylight-saving effects are not modelled.
- Calendar.NavigationRoundTrip: it is stated for years above 100 only. The constructor's mapping of
  years 0 to 99 to 1900 to 1999 breaks the round trip there.
- SocialConnect's `fetchAccountInfo` (the card's own `.single()` query of the account, lines 31-63)
  is modelled only through `SocialConnect.AccountName` and `Credentials.Single`. The effect hook
  that triggers it is not modelled.
- `src/layouts/DashboardLayout.tsx` and `src/pages/dashboard/Dashboard.tsx` are not part of
  this model, including the layout's sign-out handler (`signOut()` then navigation to `/login`). The sign-in layout's decisions are `App.AuthLayout`; its markup
  is not modelled.
- The mock data arrays of the calendar, media library and campaigns pages are inputs of their
  functions, not constants.

## Findings

| source | as written | input that shows it | evidently intended | confidence | as-written member | corrected member |
|---|---|---|---|---|---|---|
| src/pages/content/ContentUploader.tsx:70 | the submit handler reads `user.church_id`, but the auth store builds the user with `churchId` (src/store/authStore.ts:61), so the property is always undefined | any signed-in user whose profile has a church id, say `church-1`, and who submits a valid form: the church-id modal opens and nothing is saved | read `user.churchId`, so a user with a church id passes to the title, platform and schedule checks | not executed | ContentUploader.AsWrittenAlwaysAsksForChurchId | ContentUploader.CorrectedGatePassesWithChurchId |
