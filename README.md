# Account profile rules of a federated microblogging client

This project models the self-contained rules inside the account-profile
component of a Mastodon-style web client (`src/components/account-info.jsx`),
and proves properties of them in Dafny. Everything that comes from the
network is passed in as a parameter: the pages a paginator yields, the
familiar-followers response, the recent statuses, the handle search answer,
and the relationship flags. The clock (`Date.now()`) is also a parameter.

- `common.dfy` (module `Common`): optional values, account summaries,
  JavaScript truthiness of optional strings, suffix tests, order-preserving
  subsequences and id lookups.
- `mute.dfy` (module `Mute`): the eight mute durations in milliseconds and
  their labels. A duration of 0 means "forever".
- `header.dfy` (module `Header`): the header-image fallback to the avatar,
  and the banner element's `onError` retry chain. The chain is a step
  function, plus a class `HeaderBanner` whose `OnError` rewrites `src` and
  `crossorigin` in place.
- `followers.dfy` (module `Followers`): the followers/following pagination.
  The class `AccountLists` holds the two cursors and the familiar-followers
  cache. The filter `WithoutIds` drops the accounts already shown; lemmas state its members, order, multiplicities and distinctness.
- `posting_stats.dfy` (module `PostingStats`): sorting recent statuses into
  boosts, replies to others and originals, and the days since the last post.
  A counting loop is proved against the reference function `PostingStatsOf`.
- `relationship.dfy` (modules `RelationshipActions` and `RelationshipTarget`):
  - which follow, block and mute request each control issues, and whether it
    asks for confirmation;
  - which account id the relationship is queried for, and when the query is
    skipped.

Three behaviours are easy to misread; the model follows the code:

- Familiar followers are merged only when the viewer is NOT on their own
  profile and the profile is on the viewer's instance. When `isSelf` holds,
  the raw page is returned.
- Blocking (not unblocking) is the action that asks for confirmation. Unblocking
  a blocked account happens at once.
- Days since the last post are `ceil((now - createdAt) / 86400000)`. `createdAt`
  is the LAST status of the fetched window.

## Model

| member | source | states |
|---|---|---|
| `Mute.MuteLabel` | src/components/account-info.jsx:45-54 | a duration has a label exactly when it is one of the offered durations |
| `Mute.MuteTableWellFormed` | src/components/account-info.jsx:35-54 | eight distinct durations; the last is 0, labelled "Forever"; the label keys are exactly the offered durations |
| `Mute.MuteDurationsAscending` | src/components/account-info.jsx:35-44 | the durations before "forever" grow strictly, up to one week in milliseconds |
| `Header.ChooseHeader` | src/components/account-info.jsx:128-138 | the avatar replaces the header exactly when the header is absent, empty or `missing.png` and the avatar is usable. The static header is replaced only by a usable static avatar. Otherwise nothing changes. The chosen header is usable iff the header or the avatar was |
| `Header.OnErrorMakesProgress` | src/components/account-info.jsx:350-363 | each load failure of an attached banner strictly lowers the number of retries left |
| `Header.RemovedAfterRetries` | src/components/account-info.jsx:350-363 | from any state, that many failures remove the element, so the retry chain never loops |
| `Header.RetryOrder` | src/components/account-info.jsx:350-364 | with a distinct static header, the attempts are: static, header without `crossorigin`, static, then removal after the fourth failure |
| `Header.RetryOrderSameStatic` | src/components/account-info.jsx:350-363 | when the static header is the header, one failure drops `crossorigin` and a second removes the element |
| `Header.HeaderBanner.constructor` | src/components/account-info.jsx:344-364 | the banner starts on the header URL, loaded cross-origin |
| `Header.HeaderBanner.OnError` | src/components/account-info.jsx:350-363 | the element's new `src`/`crossorigin`/attached state is one `OnErrorStep` of the old one, with fewer retries left |
| `Followers.WithoutIdsMembers` | src/components/account-info.jsx:178-185 | the filtered page holds exactly the page accounts whose id is not a known id |
| `Followers.WithoutIdsSubsequence` | src/components/account-info.jsx:178-185 | the filtered page is an order-preserving subsequence of the page |
| `Followers.WithoutIdsDistinct` | src/components/account-info.jsx:178-185 | a page with distinct ids stays distinct after filtering |
| `Followers.WithoutIdsCounts` | src/components/account-info.jsx:170-185 | an account whose id is not known appears as often as on the page, and an account whose id is known does not appear at all |
| `Followers.FirstPageMerge` | src/components/account-info.jsx:164-177 | the first page is the familiar list, followed by exactly the page without familiar ids (`WithoutIds`), in page order, and nothing else |
| `Followers.FirstPageNoDuplicateFamiliar` | src/components/account-info.jsx:164-177 | with distinct familiar followers, no familiar id appears twice; with a distinct page too, no id appears twice |
| `Followers.LaterPageFilter` | src/components/account-info.jsx:178-190 | a later page keeps page order, shows no cached id, and is empty when every account was cached |
| `Followers.FilterPagesEach` | src/components/account-info.jsx:178-190 | each later page shown is the matching server page without the cached ids |
| `Followers.WithoutIdsAppend` | src/components/account-info.jsx:178-185 | filtering a list in two parts gives the same result as filtering the whole list |
| `Followers.FilterPagesConcat` | src/components/account-info.jsx:178-190 | the later pages, filtered one by one and concatenated, equal the filtered concatenation of the raw pages |
| `Followers.FirstPageThenLater` | src/components/account-info.jsx:164-190 | the first page followed by later accounts filtered against the familiar list is the first page of the first and later accounts together |
| `Followers.ShownListIsFilteredServerList` | src/components/account-info.jsx:150-191 | the whole shown list (first page, then the filtered later pages) is the familiar list followed by the server's list without familiar ids |
| `Followers.ShownListHasNoDuplicates` | src/components/account-info.jsx:150-191 | when the familiar list is distinct and the server repeats no account, no id is shown twice in the whole list |
| `Followers.MergeExamples` | src/components/account-info.jsx:164-185 | familiar [A,B] with page [A,C,D] gives [A,B,C,D]; cache [A,B] with page [B,E,F] gives [E,F] |
| `Followers.AccountLists.constructor` | src/components/account-info.jsx:148-149 | no cursor and an empty familiar cache at first |
| `Followers.AccountLists.Advance` | src/components/account-info.jsx:151-155 | a first load or a missing cursor starts a fresh cursor for the profile with page size 80; otherwise the same cursor moves one page on |
| `Followers.AccountLists.FetchFollowers` | src/components/account-info.jsx:150-191 | the cursor is always reset or advanced. When self or on another instance, the page is returned unchanged and the cache is untouched. A first load caches the familiar list and returns the merged page, throwing on an empty familiar response or an undefined page. A later load keeps the cache, keeps `done`, and returns the filtered page (empty when there is no page) |
| `Followers.AccountLists.FetchFollowing` | src/components/account-info.jsx:194-202 | the following cursor is reset or advanced, and the page passes through; the followers cursor and the cache are untouched |
| `PostingStats.FamiliarPreview` | src/components/account-info.jsx:226-228 | at most three familiar followers are shown, and they are a prefix of the response |
| `PostingStats.Classify` | src/components/account-info.jsx:244-255 | a status is a boost iff it reblogs; a reply iff it does not reblog, has a non-empty `inReplyToId` and answers an account other than the viewed one; an original iff it does not reblog and is a self-reply or no reply |
| `PostingStats.CountNoneOrAll` | src/components/account-info.jsx:244-255 | a bucket count is 0 iff no status falls in the bucket, and the number of statuses iff all do |
| `PostingStats.CountsPartition` | src/components/account-info.jsx:233-255 | originals + replies + boosts equals the number of statuses |
| `PostingStats.DaysSinceLastPost` | src/components/account-info.jsx:257-262 | the result is the ceiling of the elapsed milliseconds over 86,400,000 |
| `PostingStats.PostingStatsOf` | src/components/account-info.jsx:230-265 | no stats for an empty window; otherwise total equals the number of statuses, which equals originals + replies + boosts |
| `PostingStats.StatsShownIffThreeStatuses` | src/components/account-info.jsx:208-209 | the stats are shown iff at least three statuses were fetched; then the bar shares lie within the total |
| `PostingStats.ComputePostingStats` | src/components/account-info.jsx:231-262 | the counting loop yields exactly `PostingStatsOf` for the statuses, the viewer id and `now` |
| `PostingStats.OnRelationshipChange` | src/components/account-info.jsx:211-271 | both requests are made iff the viewer does not follow the profile; the familiar preview is recorded iff the familiar response is non-empty; statistics are recorded iff the profile is unfollowed, the view is not standalone, the familiar response is non-empty and some status came back, and they are then `PostingStatsOf` the statuses |
| `PostingStats.PostingStatsShown` | src/components/account-info.jsx:208-271 | the statistics bar appears iff the profile is unfollowed, the view is not standalone, the familiar response is non-empty and at least three statuses came back |
| `PostingStats.ThreeDaysExample` | src/components/account-info.jsx:258-262 | exactly three days gives 3; one millisecond less gives 3; one millisecond more gives 4 |
| `RelationshipActions.FollowButton` | src/components/account-info.jsx:1066-1100 | confirmation is asked iff the request is unfollow, which happens iff following or requested; otherwise follow |
| `RelationshipActions.BlockItem` | src/components/account-info.jsx:993-1028 | confirmation is asked iff the request is block; unblock iff already blocking |
| `RelationshipActions.MuteItems` | src/components/account-info.jsx:910-991 | a muted account gets one unmute item; otherwise one mute item per duration in menu order; none asks for confirmation |
| `RelationshipActions.ActionsToggle` | src/components/account-info.jsx:995-1100 | once the server confirms a follow or block request, the same control offers the opposite request |
| `RelationshipActions.MuteItemsLabelled` | src/components/account-info.jsx:958-988 | every mute item's duration has a label |
| `RelationshipTarget.SearchQuery` | src/components/account-info.jsx:713-716 | the query always contains `@`: the `acct` when it names an instance, else `username@instance` |
| `RelationshipTarget.Resolve` | src/components/account-info.jsx:704-741 | see the list below |
| `RelationshipTarget.FollowTarget` | src/components/account-info.jsx:731-739 | the follow button acts on the resolved id once one other than the viewer's is found, else on the profile id |
| `RelationshipTarget.MuteBlockTarget` | src/components/account-info.jsx:1011-1023 | mute and block act on the id the search found when there is one and it is non-empty; with no search result, or an empty found id, they act on the profile id |
| `RelationshipTarget.SameInstanceUsesProfileId` | src/components/account-info.jsx:709-710 | on the viewer's own signed-in instance there is no search, and every request targets the profile id |
| `RelationshipTarget.CrossInstanceSearch` | src/components/account-info.jsx:711-736 | elsewhere, exactly one search for the full handle is made, and finding the viewer's own account marks the view as self |

`RelationshipTarget.Resolve` states:

- A search is issued iff the profile is on another instance and the viewer is
  signed in, and its query is `SearchQuery`.
- The found account is the first search result exactly when a search was issued
  and returned at least one account.
- For every input, the resolved id is the profile id on the signed-in same
  instance, else the found account's id, else none. The decision is: no target
  for no id or an empty id; self when the id is the viewer's own; a skipped
  fetch for a moved account; otherwise a relationship fetch for that id.
- On the same, signed-in instance, the profile id is fetched, or kept without a
  fetch when the account has moved.
- On the same instance without sign-in, there is no target.
- A fetch never happens for a moved account, an empty id or the viewer's own id.
- A failed or empty search gives no target.

## Left out

- Rendering, CSS variables, menus, modals, toasts, the clipboard and `navigator.share`: these are presentation only.
- Loading the account record (`fetchAccount` and the process-wide account cache): this is a network call and global state.
- Fetching and applying relationships, and the outcomes of follow/mute/block requests:
  - which toasts appear, the `loading`/`error` view state, and the global reload counter are not modelled;
  - only which request is issued, and whether it is confirmed first, is modelled.
- `AddRemoveListsSheet` list membership and `TranslatedBioSheet`: these rely on network calls and on a text converter. The converter is not part of this model.
- Header corner-colour sampling and `lightenRGB`: they rely on browser pixel access and floating-point luminance.
- `niceAccountURL` and `accountInstance`: they depend on the URL parser. Whether the profile is on the viewer's instance, and whether it is the viewer's own profile, are inputs.
- Rejected network requests inside `fetchFollowers`/`fetchFollowing` propagate to the caller unchanged. The model takes the server's responses as given and does not represent rejections.
- Stale responses written after the profile changes: this is a concurrency concern.
- `Header.HeaderBanner.OnError`: an absent static header, which the browser turns into the URL "undefined", is not modelled. `src` is compared as the given string, not as the browser's resolved absolute URL.
- `PostingStats.DaysSinceLastPost`: parsing `createdAt` dates is left out, because timestamps are integer milliseconds. Integer division replaces floating-point division; the two agree below 2^53 ms.
- Rejected familiar-followers or statuses requests are not modelled. Such a rejection lands in the handler's `catch` and skips the statistics. An empty familiar-followers response is modelled by `PostingStats.OnRelationshipChange`.
- The predicate `PostingStats.ComputesPostingStats` has no contract of its own. The statuses are requested for every unfollowed profile, but counted only outside the standalone view; `PostingStats.OnRelationshipChange` states this.
