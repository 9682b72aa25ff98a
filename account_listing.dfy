/** `ListAccounts`: the first page of accounts, filtered by tag when a tag is
    given, followed by every later page reached through the next-page links,
    unfiltered. The listing service is an input: `pages[0]` answers the first
    list call and `pages[i + 1]` answers the follow-up call made with the
    next-page link of `pages[i]`. */
module AccountListing {
  import opened Wrappers
  import opened BatchModels

  datatype Page = Page(items: seq<AccountResource>, nextPageLink: Option<string>)

  /** The first list call: over the subscription, or within one group. */
  datatype ListRequest = ListAll | ListByResourceGroup(group: string)

  /** `Helpers.FilterAccounts` with the tag it is given: keeps, in order,
      the accounts the filter accepts. */
  function Filter(items: seq<AccountResource>, accepts: AccountResource -> bool): (kept: seq<AccountResource>)
    ensures |kept| <= |items|
    ensures forall x :: x in kept <==> x in items && accepts(x)
    decreases |items|
  {
    if items == [] then []
    else
      assert items == [items[0]] + items[1..];
      (if accepts(items[0]) then [items[0]] else []) + Filter(items[1..], accepts)
  }

  /** Each accepted account is kept as many times as it occurs, and no other
      account is kept: the filter neither duplicates nor drops. */
  lemma {:induction false} FilterCounts(items: seq<AccountResource>, accepts: AccountResource -> bool, x: AccountResource)
    ensures multiset(Filter(items, accepts))[x] == if accepts(x) then multiset(items)[x] else 0
    decreases |items|
  {
    if items != [] {
      FilterCounts(items[1..], accepts, x);
      assert items == [items[0]] + items[1..];
    }
  }

  /** Filtering distributes over concatenation, so the accepted accounts keep
      their relative order. */
  lemma {:induction false} FilterAppend(a: seq<AccountResource>, b: seq<AccountResource>, accepts: AccountResource -> bool)
    ensures Filter(a + b, accepts) == Filter(a, accepts) + Filter(b, accepts)
    decreases |a|
  {
    if a != [] {
      var head := if accepts(a[0]) then [a[0]] else [];
      assert (a + b)[0] == a[0];
      assert (a + b)[1..] == a[1..] + b;
      FilterAppend(a[1..], b, accepts);
      assert Filter(a + b, accepts) == head + (Filter(a[1..], accepts) + Filter(b, accepts));
      assert Filter(a, accepts) == head + Filter(a[1..], accepts);
    } else {
      assert a + b == b;
    }
  }

  /** Whether the tag filter applies: the tag is neither null nor empty. */
  predicate FiltersByTag(tag: Option<map<string, string>>) {
    tag.Some? && |tag.value| > 0
  }

  /** The accounts taken from the first page: all of them without a usable
      tag, otherwise those the tag matches. */
  function FirstPageAccounts(
    tag: Option<map<string, string>>, first: Page,
    matchesTag: (map<string, string>, AccountResource) -> bool): (r: seq<AccountResource>)
    ensures tag.None? || tag == Some(map[]) ==> r == first.items
    ensures FiltersByTag(tag) ==> forall x :: x in r <==> x in first.items && matchesTag(tag.value, x)
  {
    if FiltersByTag(tag) then Filter(first.items, x => matchesTag(tag.value, x)) else first.items
  }

  /** With a usable tag, each matching account of the first page is kept as
      often as it occurs there, and no other account is kept. */
  lemma FirstPageCounts(
    tag: Option<map<string, string>>, first: Page,
    matchesTag: (map<string, string>, AccountResource) -> bool, x: AccountResource)
    requires FiltersByTag(tag)
    ensures multiset(FirstPageAccounts(tag, first, matchesTag))[x]
      == if matchesTag(tag.value, x) then multiset(first.items)[x] else 0
  {
    FilterCounts(first.items, y => matchesTag(tag.value, y), x);
  }

  /** The items of `pages[lo..hi]`, page after page. */
  function PageItems(pages: seq<Page>, lo: nat, hi: nat): seq<AccountResource>
    requires lo <= hi <= |pages|
    decreases hi
  {
    if lo == hi then [] else PageItems(pages, lo, hi - 1) + pages[hi - 1].items
  }

  /** The number of items on `pages[lo..hi]`. */
  function ItemCount(pages: seq<Page>, lo: nat, hi: nat): nat
    requires lo <= hi <= |pages|
    decreases hi
  {
    if lo == hi then 0 else ItemCount(pages, lo, hi - 1) + |pages[hi - 1].items|
  }

  /** The index of the first page without a next-page link: the last page the
      loop reads. */
  function LastPageRead(pages: seq<Page>): (k: nat)
    requires |pages| > 0 && pages[|pages| - 1].nextPageLink.None?
    ensures k < |pages| && pages[k].nextPageLink.None?
    ensures forall j :: 0 <= j < k ==> pages[j].nextPageLink.Some?
    decreases |pages|
  {
    if pages[0].nextPageLink.None? then 0 else 1 + LastPageRead(pages[1..])
  }

  /** Collecting the pages' items keeps every item: the length is the total
      item count. */
  lemma {:induction false} PageItemsLength(pages: seq<Page>, lo: nat, hi: nat)
    requires lo <= hi <= |pages|
    ensures |PageItems(pages, lo, hi)| == ItemCount(pages, lo, hi)
    decreases hi
  {
    if lo < hi {
      PageItemsLength(pages, lo, hi - 1);
    }
  }

  /** Collecting from `lo` is the first page's items followed by the items
      collected from `lo + 1`. */
  lemma {:induction false} PageItemsFirst(pages: seq<Page>, lo: nat, hi: nat)
    requires lo < hi <= |pages|
    ensures PageItems(pages, lo, hi) == pages[lo].items + PageItems(pages, lo + 1, hi)
    decreases hi
  {
    if lo + 1 < hi {
      PageItemsFirst(pages, lo, hi - 1);
    }
  }

  /** Every item of a page in the range is collected. */
  lemma {:induction false} PageItemsContains(pages: seq<Page>, lo: nat, hi: nat, j: int, x: AccountResource)
    requires lo <= j < hi <= |pages| && x in pages[j].items
    ensures x in PageItems(pages, lo, hi)
    decreases hi
  {
    if j < hi - 1 {
      PageItemsContains(pages, lo, hi - 1, j, x);
    }
  }

  /** The `foreach` that adds one converted account per resource. */
  method AddAll(accounts: seq<AccountResource>, resources: seq<AccountResource>)
    returns (result: seq<AccountResource>)
    ensures result == accounts + resources
  {
    result := accounts;
    for i := 0 to |resources|
      invariant result == accounts + resources[..i]
    {
      result := result + [resources[i]];
    }
    assert resources[..|resources|] == resources;
  }

  /** The `while` loop of `ListAccounts`: follows next-page links from the
      first page until a page has none, adding every item of each page it
      fetches. */
  method FollowNextLinks(pages: seq<Page>, firstAccounts: seq<AccountResource>)
    returns (accounts: seq<AccountResource>, linksFollowed: seq<string>)
    requires |pages| > 0 && pages[|pages| - 1].nextPageLink.None?
    ensures accounts == firstAccounts + PageItems(pages, 1, LastPageRead(pages) + 1)
    ensures |linksFollowed| == LastPageRead(pages)
    ensures forall j :: 0 <= j < |linksFollowed| ==> pages[j].nextPageLink == Some(linksFollowed[j])
  {
    ghost var k := LastPageRead(pages);
    accounts := firstAccounts;
    linksFollowed := [];
    var current := 0;
    var nextLink := pages[0].nextPageLink;
    while nextLink.Some?
      invariant 0 <= current <= k
      invariant nextLink == pages[current].nextPageLink
      invariant accounts == firstAccounts + PageItems(pages, 1, current + 1)
      invariant |linksFollowed| == current
      invariant forall j :: 0 <= j < current ==> pages[j].nextPageLink == Some(linksFollowed[j])
      decreases k - current
    {
      linksFollowed := linksFollowed + [nextLink.value];
      current := current + 1;
      var response := pages[current];
      accounts := AddAll(accounts, response.items);
      nextLink := response.nextPageLink;
    }
  }

  /** `ListAccounts`. Returns the accounts, the first list request made and
      the next-page links followed, in order. */
  method ListAccounts(
    tag: Option<map<string, string>>, resourceGroupName: Option<string>,
    pages: seq<Page>, matchesTag: (map<string, string>, AccountResource) -> bool)
    returns (accounts: seq<AccountResource>, firstRequest: ListRequest, linksFollowed: seq<string>)
    requires |pages| > 0 && pages[|pages| - 1].nextPageLink.None?
    ensures firstRequest == if IsNullOrEmpty(resourceGroupName) then ListAll
                            else ListByResourceGroup(resourceGroupName.value)
    ensures accounts == FirstPageAccounts(tag, pages[0], matchesTag)
                        + PageItems(pages, 1, LastPageRead(pages) + 1)
    ensures |accounts| == |FirstPageAccounts(tag, pages[0], matchesTag)|
                          + ItemCount(pages, 1, LastPageRead(pages) + 1)
    ensures |linksFollowed| == LastPageRead(pages)
    ensures forall j :: 0 <= j < |linksFollowed| ==> pages[j].nextPageLink == Some(linksFollowed[j])
  {
    firstRequest := if IsNullOrEmpty(resourceGroupName) then ListAll
                    else ListByResourceGroup(resourceGroupName.value);
    var response := pages[0];
    var accountResources := FirstPageAccounts(tag, response, matchesTag);
    accounts := AddAll([], accountResources);
    accounts, linksFollowed := FollowNextLinks(pages, accounts);
    PageItemsLength(pages, 1, LastPageRead(pages) + 1);
  }

  /** Without a tag to filter by, the listing is every item of every page
      read. */
  lemma UnfilteredListsEveryPage(
    tag: Option<map<string, string>>, pages: seq<Page>,
    matchesTag: (map<string, string>, AccountResource) -> bool)
    requires |pages| > 0 && pages[|pages| - 1].nextPageLink.None?
    requires !FiltersByTag(tag)
    ensures FirstPageAccounts(tag, pages[0], matchesTag) + PageItems(pages, 1, LastPageRead(pages) + 1)
         == PageItems(pages, 0, LastPageRead(pages) + 1)
  {
    var k := LastPageRead(pages);
    assert FirstPageAccounts(tag, pages[0], matchesTag) == pages[0].items;
    PageItemsFirst(pages, 0, k + 1);
  }

  /** The filter is applied to the first page only: every item of a later
      page that is read is listed, whether or not it carries the tag. */
  lemma LaterPagesUnfiltered(
    tag: Option<map<string, string>>, pages: seq<Page>,
    matchesTag: (map<string, string>, AccountResource) -> bool, j: int, x: AccountResource)
    requires |pages| > 0 && pages[|pages| - 1].nextPageLink.None?
    requires 1 <= j <= LastPageRead(pages) && x in pages[j].items
    ensures x in FirstPageAccounts(tag, pages[0], matchesTag) + PageItems(pages, 1, LastPageRead(pages) + 1)
  {
    PageItemsContains(pages, 1, LastPageRead(pages) + 1, j, x);
  }
}
