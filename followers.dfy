/** Paginated followers and following lists of a profile. The followers list
    is overlaid with the viewer's "familiar followers" (accounts the viewer
    follows that also follow the profile): on the first page they are shown
    first, and every page drops the accounts already shown among them. */
module Followers {
  import opened Common

  /** Page size requested from the server. */
  const Limit: nat := 80

  /** One result of the paginator's `next()`: whether the list is exhausted,
      and the page, which is `undefined` once nothing is left. */
  datatype Page = Page(done: bool, value: Option<seq<Account>>)

  /** A paginated query bound to an account id and a page size, with the
      number of pages it has handed out so far. */
  datatype Cursor = Cursor(accountId: string, limit: nat, served: nat)

  /** One entry of the familiar-followers response (one per account asked about). */
  datatype FamiliarFollowers = FamiliarFollowers(id: string, accounts: seq<Account>)

  /** How a fetch ends: with a page, or with the TypeError thrown by reading a
      property of `undefined` (an empty familiar-followers response, or a first
      page with no value). */
  datatype Fetched = Returned(page: Page) | ThrewTypeError

  /** The accounts of `page` whose id is not among the ids of `known`, in page
      order (`value.filter` with a `some` test on the ids). */
  function WithoutIds(page: seq<Account>, known: seq<Account>): (r: seq<Account>)
    ensures |r| <= |page|
  {
    if page == [] then []
    else if HasId(known, page[0].id) then WithoutIds(page[1..], known)
    else [page[0]] + WithoutIds(page[1..], known)
  }

  /** The filter keeps exactly the page accounts whose id is not known. */
  lemma {:induction false} WithoutIdsMembers(page: seq<Account>, known: seq<Account>)
    ensures forall a :: a in WithoutIds(page, known) <==> a in page && !HasId(known, a.id)
  {
    if page != [] {
      WithoutIdsMembers(page[1..], known);
      assert forall a :: a in page <==> a == page[0] || a in page[1..];
    }
  }

  /** The filter keeps the page order. */
  lemma {:induction false} WithoutIdsSubsequence(page: seq<Account>, known: seq<Account>)
    ensures Subsequence(WithoutIds(page, known), page)
  {
    if page != [] {
      WithoutIdsSubsequence(page[1..], known);
      if !HasId(known, page[0].id) {
        assert WithoutIds(page, known)[1..] == WithoutIds(page[1..], known);
      }
    }
  }

  /** A page with distinct ids stays distinct after filtering. */
  lemma {:induction false} WithoutIdsDistinct(page: seq<Account>, known: seq<Account>)
    ensures DistinctIds(page) ==> DistinctIds(WithoutIds(page, known))
  {
    if page != [] && DistinctIds(page) {
      var rest := WithoutIds(page[1..], known);
      WithoutIdsDistinct(page[1..], known);
      WithoutIdsMembers(page[1..], known);
      if !HasId(known, page[0].id) {
        forall a | a in rest ensures a.id != page[0].id {
          var k :| 0 <= k < |page[1..]| && page[1..][k] == a;
          assert page[k + 1] == a;
        }
        assert ([page[0]] + rest)[1..] == rest;
      }
    }
  }

  /** The filter keeps every repetition of a page account whose id is not
      known, and no copy of one whose id is. */
  lemma {:induction false} WithoutIdsCounts(page: seq<Account>, known: seq<Account>)
    ensures forall a :: multiset(WithoutIds(page, known))[a] == if HasId(known, a.id) then 0 else multiset(page)[a]
  {
    if page != [] {
      WithoutIdsCounts(page[1..], known);
      assert page == [page[0]] + page[1..];
      assert multiset(page) == multiset([page[0]]) + multiset(page[1..]);
    }
  }

  /** The first followers page as shown: the familiar followers, then the page
      without them. */
  function FirstPage(familiar: seq<Account>, page: seq<Account>): seq<Account>
  {
    familiar + WithoutIds(page, familiar)
  }

  /** The first page starts with the familiar followers, keeps every page
      account not among them in page order, adds nothing else, and repeats
      no familiar id after the familiar block. */
  lemma FirstPageMerge(familiar: seq<Account>, page: seq<Account>)
    ensures FirstPage(familiar, page)[..|familiar|] == familiar
    ensures FirstPage(familiar, page)[|familiar|..] == WithoutIds(page, familiar)
    ensures Subsequence(FirstPage(familiar, page)[|familiar|..], page)
    ensures forall a :: a in FirstPage(familiar, page) <==> a in familiar || (a in page && !HasId(familiar, a.id))
    ensures forall i :: |familiar| <= i < |FirstPage(familiar, page)| ==> !HasId(familiar, FirstPage(familiar, page)[i].id)
  {
    var m := FirstPage(familiar, page);
    var rest := WithoutIds(page, familiar);
    WithoutIdsMembers(page, familiar);
    WithoutIdsSubsequence(page, familiar);
    assert m[|familiar|..] == rest;
    forall i | |familiar| <= i < |m| ensures !HasId(familiar, m[i].id) {
      assert m[i] == rest[i - |familiar|];
      assert m[i] in rest;
    }
  }

  /** With distinct familiar followers, no familiar id appears twice on the
      first page; with a page of distinct ids as well, no id appears twice. */
  lemma FirstPageNoDuplicateFamiliar(familiar: seq<Account>, page: seq<Account>)
    requires DistinctIds(familiar)
    ensures forall i, j :: 0 <= i < |familiar| && i < j < |FirstPage(familiar, page)| ==>
              FirstPage(familiar, page)[i].id != FirstPage(familiar, page)[j].id
    ensures DistinctIds(page) ==> DistinctIds(FirstPage(familiar, page))
  {
    var m := FirstPage(familiar, page);
    var rest := WithoutIds(page, familiar);
    FirstPageMerge(familiar, page);
    forall i, j | 0 <= i < |familiar| && |familiar| <= j < |m| ensures m[i].id != m[j].id {
      assert m[i] == familiar[i];
      assert !HasId(familiar, m[j].id);
    }
    if DistinctIds(page) {
      WithoutIdsDistinct(page, familiar);
      forall i, j | |familiar| <= i < j < |m| ensures m[i].id != m[j].id {
        assert m[i] == rest[i - |familiar|] && m[j] == rest[j - |familiar|];
      }
    }
  }

  /** A later page: the page without the cached familiar followers. Every
      remaining account is new, and the filter may leave the page empty. */
  lemma LaterPageFilter(cache: seq<Account>, page: seq<Account>)
    ensures Subsequence(WithoutIds(page, cache), page)
    ensures forall a :: a in WithoutIds(page, cache) ==> !HasId(cache, a.id)
    ensures (forall a :: a in page ==> HasId(cache, a.id)) ==> WithoutIds(page, cache) == []
  {
    var r := WithoutIds(page, cache);
    WithoutIdsMembers(page, cache);
    WithoutIdsSubsequence(page, cache);
    if r != [] {
      assert r[0] in r;
    }
  }

  /** All pages of a list, one after the other. */
  function Concat(pages: seq<seq<Account>>): seq<Account>
  {
    if pages == [] then [] else pages[0] + Concat(pages[1..])
  }

  /** The later pages as shown: each without the cached familiar followers. */
  function FilterPages(pages: seq<seq<Account>>, cache: seq<Account>): (r: seq<seq<Account>>)
    ensures |r| == |pages|
  {
    if pages == [] then [] else [WithoutIds(pages[0], cache)] + FilterPages(pages[1..], cache)
  }

  /** Each later page shown is the matching server page without the cached ids. */
  lemma {:induction false} FilterPagesEach(pages: seq<seq<Account>>, cache: seq<Account>)
    ensures forall i :: 0 <= i < |pages| ==> FilterPages(pages, cache)[i] == WithoutIds(pages[i], cache)
  {
    if pages != [] {
      FilterPagesEach(pages[1..], cache);
      assert forall i :: 1 <= i < |pages| ==> pages[1..][i - 1] == pages[i];
    }
  }

  /** Filtering a list in two parts filters the whole list. */
  lemma {:induction false} WithoutIdsAppend(a: seq<Account>, b: seq<Account>, known: seq<Account>)
    ensures WithoutIds(a + b, known) == WithoutIds(a, known) + WithoutIds(b, known)
  {
    if a != [] {
      assert (a + b)[0] == a[0];
      assert (a + b)[1..] == a[1..] + b;
      WithoutIdsAppend(a[1..], b, known);
    } else {
      assert a + b == b;
    }
  }

  /** Filtering page by page filters the whole list. */
  lemma {:induction false} FilterPagesConcat(pages: seq<seq<Account>>, cache: seq<Account>)
    ensures Concat(FilterPages(pages, cache)) == WithoutIds(Concat(pages), cache)
  {
    if pages != [] {
      FilterPagesConcat(pages[1..], cache);
      WithoutIdsAppend(pages[0], Concat(pages[1..]), cache);
      assert FilterPages(pages, cache)[1..] == FilterPages(pages[1..], cache);
    }
  }

  /** Concatenation associates. Kept apart so that the proofs using it do not
      unfold the filter on every index of the lists. */
  lemma ConcatAssociates(a: seq<Account>, b: seq<Account>, c: seq<Account>)
    ensures (a + b) + c == a + (b + c)
  {
  }

  /** A first page followed by later accounts filtered against the familiar
      followers is the first page of the whole list. */
  lemma FirstPageThenLater(familiar: seq<Account>, first: seq<Account>, rest: seq<Account>, shownLater: seq<Account>)
    requires shownLater == WithoutIds(rest, familiar)
    ensures FirstPage(familiar, first) + shownLater == FirstPage(familiar, first + rest)
  {
    WithoutIdsAppend(first, rest, familiar);
    ConcatAssociates(familiar, WithoutIds(first, familiar), shownLater);
  }

  /** The whole followers list as shown, a first page and then later pages
      filtered against the cache, is the familiar followers followed by the
      server's list without them. */
  lemma ShownListIsFilteredServerList(familiar: seq<Account>, first: seq<Account>, later: seq<seq<Account>>)
    ensures FirstPage(familiar, first) + Concat(FilterPages(later, familiar))
            == FirstPage(familiar, first + Concat(later))
  {
    FilterPagesConcat(later, familiar);
    FirstPageThenLater(familiar, first, Concat(later), Concat(FilterPages(later, familiar)));
  }

  /** If the server never repeats an account and the familiar followers are
      distinct, the whole shown followers list repeats no id. */
  lemma ShownListHasNoDuplicates(familiar: seq<Account>, first: seq<Account>, later: seq<seq<Account>>)
    ensures DistinctIds(familiar) && DistinctIds(first + Concat(later)) ==>
              DistinctIds(FirstPage(familiar, first) + Concat(FilterPages(later, familiar)))
  {
    ShownListIsFilteredServerList(familiar, first, later);
    if DistinctIds(familiar) {
      FirstPageNoDuplicateFamiliar(familiar, first + Concat(later));
    }
  }

  /** Familiar followers [A, B] and a first page [A, C, D] show as
      [A, B, C, D]; with [A, B] cached, a later page [B, E, F] shows as [E, F]. */
  lemma MergeExamples(a: Account, b: Account, c: Account, d: Account, e: Account, f: Account)
    requires DistinctIds([a, b, c, d, e, f])
    ensures FirstPage([a, b], [a, c, d]) == [a, b, c, d]
    ensures WithoutIds([b, e, f], [a, b]) == [e, f]
  {
    var all := [a, b, c, d, e, f];
    assert all[0] == a && all[1] == b && all[2] == c && all[3] == d && all[4] == e && all[5] == f;
    assert a.id != c.id && a.id != d.id && a.id != e.id && a.id != f.id;
    assert b.id != c.id && b.id != d.id && b.id != e.id && b.id != f.id;
    assert HasId([a, b], a.id) && HasId([a, b], b.id);
    assert !HasId([a, b], c.id) && !HasId([a, b], d.id);
    assert !HasId([a, b], e.id) && !HasId([a, b], f.id);
    assert WithoutIds([d], [a, b]) == [d];
    assert WithoutIds([c, d], [a, b]) == [c, d];
    assert WithoutIds([f], [a, b]) == [f];
    assert WithoutIds([e, f], [a, b]) == [e, f];
  }

  /** The cursors and the familiar-followers cache of one profile view. The
      pages are what the server hands the cursor; they are parameters. */
  class AccountLists {
    /** The profile whose lists are shown. */
    const accountId: string
    /** The viewer is looking at their own profile. */
    const isSelf: bool
    /** The profile is served by the viewer's own instance. */
    const sameCurrentInstance: bool
    var followersCursor: Option<Cursor>
    var followingCursor: Option<Cursor>
    var familiarCache: seq<Account>

    constructor (accountId: string, isSelf: bool, sameCurrentInstance: bool)
      ensures this.accountId == accountId && this.isSelf == isSelf
      ensures this.sameCurrentInstance == sameCurrentInstance
      ensures followersCursor == None && followingCursor == None && familiarCache == []
    {
      this.accountId := accountId;
      this.isSelf := isSelf;
      this.sameCurrentInstance := sameCurrentInstance;
      followersCursor := None;
      followingCursor := None;
      familiarCache := [];
    }

    /** The cursor after one `next()`: a fresh one on a first load or when
        none exists yet, otherwise the same one one page further. */
    static function Advance(c: Option<Cursor>, firstLoad: bool, accountId: string): (r: Cursor)
      ensures firstLoad || c.None? ==> r == Cursor(accountId, Limit, 1)
      ensures !firstLoad && c.Some? ==> r == c.value.(served := c.value.served + 1)
    {
      var start := if firstLoad || c.None? then Cursor(accountId, Limit, 0) else c.value;
      start.(served := start.served + 1)
    }

    /** `fetchFollowers`: `next` is the page the (possibly fresh) cursor
        yields, `familiar` the familiar-followers response, asked for only on
        a first load. */
    method FetchFollowers(firstLoad: bool, next: Page, familiar: seq<FamiliarFollowers>) returns (r: Fetched)
      modifies this
      ensures followersCursor == Some(Advance(old(followersCursor), firstLoad, accountId))
      ensures followingCursor == old(followingCursor)
      ensures isSelf || !sameCurrentInstance ==> r == Returned(next) && familiarCache == old(familiarCache)
      ensures !isSelf && sameCurrentInstance && firstLoad ==>
                if familiar == [] then r == ThrewTypeError && familiarCache == old(familiarCache)
                else familiarCache == familiar[0].accounts &&
                     r == (if next.value.None? then ThrewTypeError
                           else Returned(Page(next.done, Some(FirstPage(familiarCache, next.value.value)))))
      ensures !isSelf && sameCurrentInstance && !firstLoad ==>
                familiarCache == old(familiarCache) &&
                r == Returned(Page(next.done, Some(if next.value.Some? then WithoutIds(next.value.value, familiarCache) else [])))
    {
      followersCursor := Some(Advance(followersCursor, firstLoad, accountId));
      if isSelf || !sameCurrentInstance {
        return Returned(next);
      }
      var newValue: seq<Account> := [];
      if firstLoad {
        if familiar == [] {
          return ThrewTypeError;
        }
        familiarCache := familiar[0].accounts;
        if next.value.None? {
          return ThrewTypeError;
        }
        newValue := FirstPage(familiarCache, next.value.value);
      } else if next.value.Some? && |next.value.value| > 0 {
        newValue := WithoutIds(next.value.value, familiarCache);
      }
      r := Returned(Page(next.done, Some(newValue)));
    }

    /** `fetchFollowing`: plain pagination, the page is passed through. */
    method FetchFollowing(firstLoad: bool, next: Page) returns (r: Page)
      modifies this
      ensures followingCursor == Some(Advance(old(followingCursor), firstLoad, accountId))
      ensures followersCursor == old(followersCursor) && familiarCache == old(familiarCache)
      ensures r == next
    {
      followingCursor := Some(Advance(followingCursor, firstLoad, accountId));
      r := next;
    }
  }
}
