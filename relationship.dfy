/** The viewer's relationship to a profile: which account id the relationship
    is asked about, and which follow, block and mute requests the action
    buttons and menu items issue. */
module RelationshipActions {
  import opened Common
  import Mute

  /** The relationship flags the actions depend on (the rest only label the view). */
  datatype Relationship = Relationship(following: bool, requested: bool, blocking: bool, muting: bool)

  /** A request to the server about the account `id`; `Mute` carries the
      duration in milliseconds, 0 meaning forever. */
  datatype Request =
    | Follow(id: string)
    | Unfollow(id: string)
    | Block(id: string)
    | Unblock(id: string)
    | Mute(id: string, duration: nat)
    | Unmute(id: string)

  /** A button or menu item: whether it asks for confirmation first, and the
      request it then issues. */
  datatype Action = Action(confirm: bool, request: Request)

  /** The follow button. A followed or requested account is unfollowed (or
      its request withdrawn) after confirmation; any other account is
      followed at once. */
  function FollowButton(rel: Relationship, target: string): (a: Action)
    ensures a.confirm <==> a.request.Unfollow?
    ensures a.request.Unfollow? <==> rel.following || rel.requested
    ensures a.request == Follow(target) || a.request == Unfollow(target)
  {
    if rel.following || rel.requested then Action(true, Unfollow(target))
    else Action(false, Follow(target))
  }

  /** The block menu item. Blocking asks for confirmation; unblocking a
      blocked account does not. */
  function BlockItem(rel: Relationship, target: string): (a: Action)
    ensures a.confirm <==> a.request.Block?
    ensures a.request.Unblock? <==> rel.blocking
    ensures a.request == Block(target) || a.request == Unblock(target)
  {
    Action(!rel.blocking, if rel.blocking then Unblock(target) else Block(target))
  }

  /** The mute menu: a single unmute item for a muted account, otherwise
      one mute item per offered duration, in menu order. None asks for
      confirmation. */
  function MuteItems(rel: Relationship, target: string): (items: seq<Action>)
    ensures rel.muting ==> items == [Action(false, Unmute(target))]
    ensures !rel.muting ==> |items| == |Mute.MuteDurations|
    ensures !rel.muting ==> forall i :: 0 <= i < |items| ==>
              items[i] == Action(false, Mute(target, Mute.MuteDurations[i]))
    ensures forall a :: a in items ==> !a.confirm
  {
    if rel.muting then [Action(false, Unmute(target))]
    else seq(|Mute.MuteDurations|, i requires 0 <= i < |Mute.MuteDurations| =>
               Action(false, Mute(target, Mute.MuteDurations[i])))
  }

  /** A relationship the server confirms after `request` succeeds. */
  predicate Confirms(request: Request, rel: Relationship)
  {
    match request
    case Follow(_) => rel.following || rel.requested
    case Unfollow(_) => !rel.following && !rel.requested
    case Block(_) => rel.blocking
    case Unblock(_) => !rel.blocking
    case Mute(_, _) => rel.muting
    case Unmute(_) => !rel.muting
  }

  /** Each button undoes the state it shows: once the server confirms the
      request, the same button offers the opposite request, and the
      confirmation step moves with it. */
  lemma ActionsToggle(rel: Relationship, after: Relationship, target: string)
    ensures Confirms(FollowButton(rel, target).request, after) ==>
              FollowButton(after, target).request.Follow? != FollowButton(rel, target).request.Follow?
    ensures Confirms(BlockItem(rel, target).request, after) ==>
              BlockItem(after, target).confirm == !BlockItem(rel, target).confirm
  {
  }

  /** Every mute item the menu offers has a label in the duration table. */
  lemma MuteItemsLabelled(rel: Relationship, target: string)
    ensures forall a :: a in MuteItems(rel, target) && a.request.Mute? ==>
              Mute.MuteLabel(a.request.duration).Some?
  {
    forall a | a in MuteItems(rel, target) && a.request.Mute?
      ensures Mute.MuteLabel(a.request.duration).Some?
    {
      var i :| 0 <= i < |MuteItems(rel, target)| && MuteItems(rel, target)[i] == a;
      assert a.request.duration == Mute.MuteDurations[i];
    }
  }
}

/** Which account id the relationship is asked about. A profile on the
    viewer's own instance is queried by its id; a profile elsewhere is first
    looked up from the viewer's instance by its full handle. */
module RelationshipTarget {
  import opened Common

  /** The answer to the handle search: a failed request, or the accounts found. */
  datatype SearchOutcome = SearchFailed | SearchResults(accounts: seq<Account>)

  /** What the effect does once the id is settled. */
  datatype Decision =
    | NoTarget                      // no id: nothing is asked
    | IsSelf                        // the viewer's own account: marked as self, nothing is asked
    | SkipMoved(target: string)     // a moved account: the id is kept, the relationship is not asked
    | FetchRelationship(target: string)

  /** The outcome of the resolution: the search query issued, if any, the
      account the search found, and the decision. */
  datatype Resolution = Resolution(query: Option<string>, currentInfo: Option<Account>, decision: Decision)

  /** The handle searched for: `acct` when it already names an instance,
      else `username@instance`. */
  function SearchQuery(acct: string, username: string, instance: string): (q: string)
    ensures '@' in q
    ensures '@' in acct ==> q == acct
    ensures '@' !in acct ==> |username| < |q| && q[..|username|] == username && q[|username|..] == "@" + instance
  {
    if '@' in acct then acct
    else
      var q := username + "@" + instance;
      assert q[|username|] == '@';
      q
  }

  /** The profile's facts the resolution reads. */
  datatype Profile = Profile(id: string, acct: string, username: string, moved: bool)

  /** The resolution effect. `sameInstance`: the profile is served by the
      viewer's instance; `authenticated`: the profile's instance is signed in;
      `currentAuthenticated`: the viewer's instance is signed in;
      `currentAccount`: the viewer's own id; `search`: the answer the handle
      search would get. */
  function Resolve(profile: Profile, instance: string, sameInstance: bool, authenticated: bool,
                   currentAuthenticated: bool, currentAccount: Option<string>,
                   search: SearchOutcome): (r: Resolution)
    ensures r.query.Some? <==> !sameInstance && currentAuthenticated
    ensures r.query.Some? ==> r.query.value == SearchQuery(profile.acct, profile.username, instance)
    ensures r.currentInfo.Some? ==> r.query.Some? && search.SearchResults? && |search.accounts| > 0
                                    && r.currentInfo == Some(search.accounts[0])
    ensures r.query.Some? && search.SearchResults? && |search.accounts| > 0 ==>
              r.currentInfo == Some(search.accounts[0])
    ensures var id := if sameInstance && authenticated then Some(profile.id)
                      else if r.currentInfo.Some? then Some(r.currentInfo.value.id) else None;
            r.decision == (if !Truthy(id) then NoTarget
                           else if currentAccount == id then IsSelf
                           else if profile.moved then SkipMoved(id.value)
                           else FetchRelationship(id.value))
    ensures sameInstance && authenticated && profile.id != "" && currentAccount != Some(profile.id) ==>
              r.decision == (if profile.moved then SkipMoved(profile.id) else FetchRelationship(profile.id))
    ensures sameInstance && !authenticated ==> r.decision == NoTarget
    ensures r.decision.FetchRelationship? ==>
              !profile.moved && r.decision.target != "" && currentAccount != Some(r.decision.target)
    ensures r.decision.IsSelf? ==> Truthy(currentAccount)
    ensures r.query.Some? && (search.SearchFailed? || search.accounts == []) ==> r.decision == NoTarget
  {
    var query := if !sameInstance && currentAuthenticated
                 then Some(SearchQuery(profile.acct, profile.username, instance)) else None;
    var currentInfo := if query.Some? && search.SearchResults? && |search.accounts| > 0
                       then Some(search.accounts[0]) else None;
    var currentId :=
      if sameInstance && authenticated then Some(profile.id)
      else if currentInfo.Some? then Some(currentInfo.value.id)
      else None;
    var decision :=
      if !Truthy(currentId) then NoTarget
      else if currentAccount == currentId then IsSelf
      else if profile.moved then SkipMoved(currentId.value)
      else FetchRelationship(currentId.value);
    Resolution(query, currentInfo, decision)
  }

  /** The id the follow button acts on: the resolved id once one other than
      the viewer's own is found, the profile's id otherwise. */
  function FollowTarget(profileId: string, r: Resolution): (id: string)
    ensures r.decision.FetchRelationship? || r.decision.SkipMoved? ==> id == r.decision.target
    ensures r.decision.NoTarget? || r.decision.IsSelf? ==> id == profileId
  {
    match r.decision
    case SkipMoved(t) => t
    case FetchRelationship(t) => t
    case _ => profileId
  }

  /** The id mute and block act on: the id found by the search when it is
      non-empty, the profile's id otherwise. */
  function MuteBlockTarget(profileId: string, r: Resolution): (id: string)
    ensures r.currentInfo.Some? && r.currentInfo.value.id != "" ==> id == r.currentInfo.value.id
    ensures !(r.currentInfo.Some? && r.currentInfo.value.id != "") ==> id == profileId
  {
    if r.currentInfo.Some? && r.currentInfo.value.id != "" then r.currentInfo.value.id else profileId
  }

  /** On the viewer's own signed-in instance no search is made, and the
      follow, mute and block requests all go to the profile's own id. */
  lemma SameInstanceUsesProfileId(profile: Profile, instance: string, currentAccount: Option<string>,
                                  search: SearchOutcome)
    requires profile.id != "" && currentAccount != Some(profile.id)
    ensures var r := Resolve(profile, instance, true, true, true, currentAccount, search);
            r.query == None && FollowTarget(profile.id, r) == profile.id
            && MuteBlockTarget(profile.id, r) == profile.id
  {
  }

  /** Elsewhere, with the viewer signed in, exactly one search is made, for
      the full handle; when it finds the viewer's own account the view is
      marked as self and nothing more is asked. */
  lemma CrossInstanceSearch(profile: Profile, instance: string, authenticated: bool,
                            currentAccount: string, found: Account, more: seq<Account>)
    requires found.id == currentAccount && currentAccount != ""
    ensures var r := Resolve(profile, instance, false, authenticated, true, Some(currentAccount),
                             SearchResults([found] + more));
            r.query == Some(SearchQuery(profile.acct, profile.username, instance))
            && r.currentInfo == Some(found) && r.decision == IsSelf
  {
  }
}
