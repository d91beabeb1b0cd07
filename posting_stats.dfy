/** Posting statistics shown on a profile the viewer does not follow: how the
    most recent statuses split into original posts, replies to others and
    boosts, and how many days the fetched window spans. */
module PostingStats {
  import opened Common
  import Followers

  const MillisPerDay: nat := 86_400_000
  /** How many recent statuses are fetched for the statistics. */
  const StatusesWindow: nat := 20
  /** Fewest statuses for which the statistics are shown. */
  const MinStatusesShown: nat := 3
  /** How many familiar followers are shown beside the follower count. */
  const FamiliarFollowersLimit: nat := 3

  /** The fields of a status the statistics look at; `createdAt` is in
      milliseconds since the epoch. */
  datatype Status = Status(reblog: bool, inReplyToId: Option<string>,
                           inReplyToAccountId: Option<string>, createdAt: int)

  datatype Kind = Boost | Reply | Original

  datatype Stats = Stats(total: nat, originals: nat, replies: nat, boosts: nat,
                         daysSinceLastPost: int)

  /** The recent statuses are requested for every profile the viewer does not
      follow, but awaited and counted only outside the standalone view. */
  predicate ComputesPostingStats(following: bool, standalone: bool)
  {
    !following && !standalone
  }

  /** The familiar followers shown beside the follower count: the first few. */
  function FamiliarPreview(accounts: seq<Account>): (r: seq<Account>)
    ensures |r| <= FamiliarFollowersLimit
    ensures |r| == if |accounts| < FamiliarFollowersLimit then |accounts| else FamiliarFollowersLimit
    ensures r == accounts[..|r|]
  {
    if |accounts| <= FamiliarFollowersLimit then accounts else accounts[..FamiliarFollowersLimit]
  }

  /** The bucket of one status, seen from the account `currentId`: a boost if
      it reblogs something, else a reply if it answers another account, else
      an original post (a self-reply continues a thread and is original). */
  function Classify(s: Status, currentId: string): (k: Kind)
    ensures k == Boost <==> s.reblog
    ensures k == Reply <==> !s.reblog && s.inReplyToAccountId != Some(currentId) && Truthy(s.inReplyToId)
    ensures k == Original <==> !s.reblog && (s.inReplyToAccountId == Some(currentId) || !Truthy(s.inReplyToId))
  {
    if s.reblog then Boost
    else if s.inReplyToAccountId != Some(currentId) && Truthy(s.inReplyToId) then Reply
    else Original
  }

  /** How many statuses of `statuses` fall in bucket `kind`. */
  function Count(statuses: seq<Status>, currentId: string, kind: Kind): (n: nat)
    ensures n <= |statuses|
  {
    if statuses == [] then 0
    else Count(statuses[..|statuses| - 1], currentId, kind)
         + (if Classify(statuses[|statuses| - 1], currentId) == kind then 1 else 0)
  }

  /** A bucket is empty exactly when no status falls in it, and full exactly
      when every status does. */
  lemma {:induction false} CountNoneOrAll(statuses: seq<Status>, currentId: string, kind: Kind)
    ensures Count(statuses, currentId, kind) == 0 <==>
              forall i :: 0 <= i < |statuses| ==> Classify(statuses[i], currentId) != kind
    ensures Count(statuses, currentId, kind) == |statuses| <==>
              forall i :: 0 <= i < |statuses| ==> Classify(statuses[i], currentId) == kind
  {
    if statuses != [] {
      var init := statuses[..|statuses| - 1];
      CountNoneOrAll(init, currentId, kind);
      assert forall i :: 0 <= i < |init| ==> init[i] == statuses[i];
    }
  }

  /** Every status lands in exactly one bucket. */
  lemma {:induction false} CountsPartition(statuses: seq<Status>, currentId: string)
    ensures Count(statuses, currentId, Original) + Count(statuses, currentId, Reply)
            + Count(statuses, currentId, Boost) == |statuses|
  {
    if statuses != [] {
      CountsPartition(statuses[..|statuses| - 1], currentId);
    }
  }

  /** `Math.ceil(elapsed / 86400000)`: the least whole number of days
      covering `elapsed` milliseconds. */
  function DaysSinceLastPost(elapsed: int): (days: int)
    ensures MillisPerDay * (days - 1) < elapsed <= MillisPerDay * days
  {
    if elapsed % MillisPerDay == 0 then elapsed / MillisPerDay else elapsed / MillisPerDay + 1
  }

  /** The statistics of a window of statuses at time `now`: `None` for an
      empty window, where reading the last status throws and nothing is
      recorded. The days are counted from the last status of the window. */
  function PostingStatsOf(statuses: seq<Status>, currentId: string, now: int): (r: Option<Stats>)
    ensures r.None? <==> statuses == []
    ensures r.Some? ==> r.value.total == |statuses|
    ensures r.Some? ==> r.value.originals + r.value.replies + r.value.boosts == r.value.total
  {
    if statuses == [] then None
    else
      CountsPartition(statuses, currentId);
      Some(Stats(|statuses|,
                 Count(statuses, currentId, Original),
                 Count(statuses, currentId, Reply),
                 Count(statuses, currentId, Boost),
                 DaysSinceLastPost(now - statuses[|statuses| - 1].createdAt)))
  }

  /** `hasPostingStats`: statistics exist and cover at least three statuses. */
  predicate HasPostingStats(stats: Option<Stats>)
  {
    stats.Some? && stats.value.total >= MinStatusesShown
  }

  /** The statistics are shown exactly for windows of three or more statuses,
      and then every bar share lies between 0 and the total. */
  lemma StatsShownIffThreeStatuses(statuses: seq<Status>, currentId: string, now: int)
    ensures HasPostingStats(PostingStatsOf(statuses, currentId, now)) <==> |statuses| >= MinStatusesShown
    ensures HasPostingStats(PostingStatsOf(statuses, currentId, now)) ==>
              var s := PostingStatsOf(statuses, currentId, now).value;
              0 < s.total && s.originals <= s.originals + s.replies <= s.total
  {
  }

  /** The counting loop of the relationship-change handler. */
  method ComputePostingStats(statuses: seq<Status>, currentId: string, now: int) returns (r: Option<Stats>)
    ensures r == PostingStatsOf(statuses, currentId, now)
  {
    var originals, replies, boosts := 0, 0, 0;
    for i := 0 to |statuses|
      invariant originals == Count(statuses[..i], currentId, Original)
      invariant replies == Count(statuses[..i], currentId, Reply)
      invariant boosts == Count(statuses[..i], currentId, Boost)
    {
      var status := statuses[i];
      assert statuses[..i + 1][..i] == statuses[..i];
      if status.reblog {
        boosts := boosts + 1;
      } else if status.inReplyToAccountId != Some(currentId) && Truthy(status.inReplyToId) {
        replies := replies + 1;
      } else {
        originals := originals + 1;
      }
    }
    assert statuses[..|statuses|] == statuses;
    if statuses == [] {
      r := None;
    } else {
      r := Some(Stats(|statuses|, originals, replies, boosts,
                      DaysSinceLastPost(now - statuses[|statuses| - 1].createdAt)));
    }
  }

  /** What the relationship-change handler leaves behind: whether it asked
      the server for the familiar followers and the recent statuses, the
      familiar followers it recorded and the statistics it recorded (`None`
      where nothing was recorded). */
  datatype Recorded = Recorded(requested: bool, familiar: Option<seq<Account>>, stats: Option<Stats>)

  /** The relationship-change handler, given the server's familiar-followers
      response and the recent statuses. Reading the first entry of an empty
      familiar-followers response throws, and the handler's `catch` then
      skips the statistics as well. */
  function OnRelationshipChange(following: bool, standalone: bool,
                                response: seq<Followers.FamiliarFollowers>,
                                statuses: seq<Status>, currentId: string, now: int): (r: Recorded)
    ensures r.requested <==> !following
    ensures r.familiar.Some? <==> !following && response != []
    ensures r.familiar.Some? ==> r.familiar.value == FamiliarPreview(response[0].accounts)
    ensures r.stats.Some? <==> ComputesPostingStats(following, standalone) && response != [] && statuses != []
    ensures r.stats.Some? ==> r.stats == PostingStatsOf(statuses, currentId, now)
  {
    if following then Recorded(false, None, None)
    else if response == [] then Recorded(true, None, None)
    else Recorded(true, Some(FamiliarPreview(response[0].accounts)),
                  if standalone then None else PostingStatsOf(statuses, currentId, now))
  }

  /** The statistics bar appears only for an unfollowed profile outside the
      standalone view whose familiar-followers response is not empty, and
      then exactly when at least three statuses came back. */
  lemma PostingStatsShown(following: bool, standalone: bool, response: seq<Followers.FamiliarFollowers>,
                          statuses: seq<Status>, currentId: string, now: int)
    ensures var r := OnRelationshipChange(following, standalone, response, statuses, currentId, now);
            HasPostingStats(r.stats) <==>
              ComputesPostingStats(following, standalone) && response != [] && |statuses| >= MinStatusesShown
  {
    StatsShownIffThreeStatuses(statuses, currentId, now);
  }

  /** A window whose last status is exactly three days old reports three days. */
  lemma ThreeDaysExample()
    ensures DaysSinceLastPost(3 * MillisPerDay) == 3
    ensures DaysSinceLastPost(3 * MillisPerDay - 1) == 3
    ensures DaysSinceLastPost(3 * MillisPerDay + 1) == 4
  {
  }
}
