/** Listing an upload's parts page by page. */
module PartListing {

  import opened PartPlan
  import opened StorageTypes
  import opened StorageErrors

  const MAX_PAGES := 200

  datatype PageReply = Page(parts: seq<Part>, isTruncated: bool, nextMarker: int) | Failed(error: ErrorKind) | Malformed

  datatype Listing = Listed(parts: seq<Part>) | NotListed(error: ErrorKind)

  /** The loop asks for another page only if the reply says so and its marker has moved on. */
  predicate GoesOn(marker: int, reply: PageReply) {
    reply.Page? && reply.isTruncated && reply.nextMarker > marker
  }

  /** These are the first requests and replies of a listing; `fetch(page, marker)` is the reply to a request. */
  predicate Follows(fetch: (nat, int) -> PageReply, markers: seq<int>, replies: seq<PageReply>)
    requires |markers| == |replies|
  {
    var n := |markers|;
    n == 0 || (
      && replies[n - 1] == fetch(n - 1, markers[n - 1])
      && (if n == 1 then markers[0] == 0
          else && Follows(fetch, markers[..n - 1], replies[..n - 1])
               && GoesOn(markers[n - 2], replies[n - 2]) && markers[n - 1] == replies[n - 2].nextMarker))
  }

  /** The parts of all pages, in order. */
  function AllParts(replies: seq<PageReply>): seq<Part> {
    if replies == [] then []
    else AllParts(replies[..|replies| - 1]) + if replies[|replies| - 1].Page? then replies[|replies| - 1].parts else []
  }

  /** A listing that is over: a page failed, no page follows, or the pages are used up. */
  predicate Ends(markers: seq<int>, replies: seq<PageReply>, maxPages: nat, result: Listing)
    requires |markers| == |replies| >= 1
  {
    var last := replies[|replies| - 1];
    && |replies| <= maxPages
    && (GoesOn(markers[|markers| - 1], last) ==> |replies| == maxPages)
    && result == match last
                 case Failed(error) => NotListed(error)
                 case Malformed => NotListed(Internal)
                 case Page(_, _, _) => Listed(AllParts(replies))
  }

  method ListParts(fetch: (nat, int) -> PageReply) returns (result: Listing, markers: seq<int>, replies: seq<PageReply>)
    ensures |markers| == |replies| >= 1 && Follows(fetch, markers, replies) && Ends(markers, replies, MAX_PAGES, result)
  {
    var all: seq<Part>, marker := [], 0;
    markers, replies := [], [];
    var page := 0;
    while page < MAX_PAGES
      invariant 0 <= page <= MAX_PAGES && |markers| == |replies| == page
      invariant Follows(fetch, markers, replies) && all == AllParts(replies)
      invariant if page == 0 then marker == 0
                else GoesOn(markers[page - 1], replies[page - 1]) && marker == replies[page - 1].nextMarker
    {
      var reply := fetch(page, marker);
      FollowsOneMore(fetch, markers, replies, marker, reply);
      markers, replies := markers + [marker], replies + [reply];
      if reply.Failed? {
        return NotListed(reply.error), markers, replies;
      }
      if reply.Malformed? {
        return NotListed(Internal), markers, replies;
      }
      all := all + reply.parts;
      if !reply.isTruncated || reply.nextMarker <= marker {
        break;
      }
      marker := reply.nextMarker;
      page := page + 1;
    }
    result := Listed(all);
  }

  lemma FollowsOneMore(fetch: (nat, int) -> PageReply, markers: seq<int>, replies: seq<PageReply>, marker: int, reply: PageReply)
    requires |markers| == |replies| && Follows(fetch, markers, replies) && reply == fetch(|markers|, marker)
    requires if markers == [] then marker == 0
             else GoesOn(markers[|markers| - 1], replies[|markers| - 1]) && marker == replies[|markers| - 1].nextMarker
    ensures Follows(fetch, markers + [marker], replies + [reply])
    ensures AllParts(replies + [reply]) == AllParts(replies) + if reply.Page? then reply.parts else []
  {
    assert (markers + [marker])[..|markers|] == markers && (replies + [reply])[..|replies|] == replies;
  }

  /** Whatever the server answers, the markers sent strictly increase. */
  lemma {:induction false} MarkersIncrease(fetch: (nat, int) -> PageReply, markers: seq<int>, replies: seq<PageReply>,
                                           j: nat, k: nat)
    requires |markers| == |replies| && Follows(fetch, markers, replies) && j < k < |markers|
    ensures markers[j] < markers[k]
  {
    var n := |markers|;
    if k < n - 1 {
      MarkersIncrease(fetch, markers[..n - 1], replies[..n - 1], j, k);
    } else if j < n - 2 {
      MarkersIncrease(fetch, markers[..n - 1], replies[..n - 1], j, n - 2);
    }
  }

  // ------------------------------------------------------------- a correct server

  /** Parts are numbered from 1, ascending. */
  predicate Ascending(held: seq<Part>) {
    && (held != [] ==> held[0].partNumber >= 1)
    && forall k :: 0 < k < |held| ==> held[k - 1].partNumber < held[k].partNumber
  }

  /** The marker that stands for the first `n` parts. */
  function MarkerOf(held: seq<Part>, n: nat): int
    requires n <= |held|
  {
    if n == 0 then 0 else held[n - 1].partNumber
  }

  /** The reply continues after the first `n` parts; a truncated page holds at least `atLeast` parts and names its last
      one as the next marker, a last page holds all that is left. */
  ghost predicate Continues(held: seq<Part>, n: nat, reply: PageReply, atLeast: nat) {
    && n <= |held| && reply.Page?
    && var m := n + |reply.parts|;
    && m <= |held| && held[..m] == held[..n] + reply.parts
    && (if reply.isTruncated then |reply.parts| >= atLeast && m > n && reply.nextMarker == MarkerOf(held, m) else m == |held|)
  }

  ghost predicate Serves(fetch: (nat, int) -> PageReply, held: seq<Part>, atLeast: nat) {
    forall page: nat, n: nat | n <= |held| :: Continues(held, n, fetch(page, MarkerOf(held, n)), atLeast)
  }

  lemma {:induction false} NumbersAscend(held: seq<Part>, j: nat, k: nat)
    requires Ascending(held) && j < k < |held|
    ensures held[j].partNumber < held[k].partNumber
  {
    if j < k - 1 {
      NumbersAscend(held, j, k - 1);
    }
  }

  lemma LaterMarker(held: seq<Part>, n: nat, m: nat)
    requires Ascending(held) && n < m <= |held|
    ensures MarkerOf(held, n) < MarkerOf(held, m)
  {
    if n > 0 {
      NumbersAscend(held, n - 1, m - 1);
    } else if m > 1 {
      NumbersAscend(held, 0, m - 1);
    }
  }

  /** Page by page, what has been listed is a beginning of what the server holds: `n` parts before the last page. */
  lemma {:induction false} ListedSoFar(fetch: (nat, int) -> PageReply, held: seq<Part>, atLeast: nat,
                                       markers: seq<int>, replies: seq<PageReply>) returns (n: nat)
    requires Serves(fetch, held, atLeast)
    requires |markers| == |replies| >= 1 && Follows(fetch, markers, replies)
    ensures atLeast * (|replies| - 1) <= n && n <= |held| && markers[|markers| - 1] == MarkerOf(held, n)
    ensures Continues(held, n, replies[|replies| - 1], atLeast)
    ensures AllParts(replies) == held[..n + |replies[|replies| - 1].parts|]
  {
    var last := |replies| - 1;
    if last == 0 {
      n := 0;
      assert AllParts(replies[..0]) == held[..0];
    } else {
      var m := ListedSoFar(fetch, held, atLeast, markers[..last], replies[..last]);
      n := m + |replies[last - 1].parts|;
      OneMorePage(atLeast, last, m, n);
    }
    assert Continues(held, n, fetch(last, MarkerOf(held, n)), atLeast);
  }

  lemma OneMorePage(atLeast: nat, pages: nat, m: nat, n: nat)
    requires pages > 0 && atLeast * (pages - 1) <= m && m + atLeast <= n
    ensures atLeast * pages <= n
  {
  }

  /** What the listing of a correct server ends with: everything, or the pages were used up. */
  lemma EndsComplete(fetch: (nat, int) -> PageReply, held: seq<Part>, atLeast: nat, maxPages: nat,
                     markers: seq<int>, replies: seq<PageReply>, result: Listing)
    requires Ascending(held) && Serves(fetch, held, atLeast)
    requires |markers| == |replies| >= 1 && Follows(fetch, markers, replies) && Ends(markers, replies, maxPages, result)
    requires |held| <= atLeast * maxPages
    ensures result == Listed(held)
  {
    var n := ListedSoFar(fetch, held, atLeast, markers, replies);
    var reply := replies[|replies| - 1];
    var m := n + |reply.parts|;
    if reply.isTruncated {
      LaterMarker(held, n, m);
      OneMorePage(atLeast, |replies|, n, m);
    }
    assert held[..|held|] == held;
  }

  /** Against a server that pages correctly, with at least 50 parts on each truncated page, every part of an upload of
      up to 10,000 is returned exactly once, in order. */
  lemma ListingIsComplete(fetch: (nat, int) -> PageReply, held: seq<Part>, markers: seq<int>, replies: seq<PageReply>,
                          result: Listing)
    requires Ascending(held) && |held| <= 10000 && Serves(fetch, held, 50)
    requires |markers| == |replies| >= 1 && Follows(fetch, markers, replies) && Ends(markers, replies, MAX_PAGES, result)
    ensures result == Listed(held)
  {
    EndsComplete(fetch, held, 50, MAX_PAGES, markers, replies, result);
  }

  /** A server that never puts more than `size` parts on a page, and no fewer on a truncated one. */
  ghost predicate Steady(fetch: (nat, int) -> PageReply, held: seq<Part>, size: nat) {
    && Serves(fetch, held, size)
    && forall page: nat, marker: int :: fetch(page, marker).Page? && |fetch(page, marker).parts| <= size
  }

  lemma {:induction false} AllPartsBounded(fetch: (nat, int) -> PageReply, size: nat, markers: seq<int>, replies: seq<PageReply>)
    requires forall page: nat, marker: int :: fetch(page, marker).Page? && |fetch(page, marker).parts| <= size
    requires |markers| == |replies| && Follows(fetch, markers, replies)
    ensures |AllParts(replies)| <= size * |replies|
  {
    if replies != [] {
      var last := |replies| - 1;
      AllPartsBounded(fetch, size, markers[..last], replies[..last]);
      assert replies[last] == fetch(last, markers[last]);
      OneMoreSize(size, last);
    }
  }

  lemma OneMoreSize(size: nat, pages: nat)
    ensures size * pages + size == size * (pages + 1)
  {
  }

  /** The bound on pages is the only thing that can lose parts: with steady pages the listing is complete exactly if
      200 of them hold all parts; beyond that it is cut without an error. */
  lemma SteadyCompleteIff(fetch: (nat, int) -> PageReply, held: seq<Part>, size: nat, markers: seq<int>,
                          replies: seq<PageReply>, result: Listing)
    requires Ascending(held) && Steady(fetch, held, size)
    requires |markers| == |replies| >= 1 && Follows(fetch, markers, replies) && Ends(markers, replies, MAX_PAGES, result)
    ensures result.Listed? && (result == Listed(held) <==> |held| <= size * MAX_PAGES)
  {
    if |held| <= size * MAX_PAGES {
      EndsComplete(fetch, held, size, MAX_PAGES, markers, replies, result);
    } else {
      var n := ListedSoFar(fetch, held, size, markers, replies);
      AllPartsBounded(fetch, size, markers, replies);
      MorePages(size, |replies|, MAX_PAGES);
    }
  }

  lemma MorePages(size: nat, a: nat, b: nat)
    requires a <= b
    ensures size * a <= size * b
  {
  }
}
