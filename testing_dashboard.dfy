/**
 * The testing dashboard: statistics over the stored feedback and the
 * analytics events, the feedback filters, and the status update.
 */
module TestingDashboard {
  import opened Wrappers
  import opened Seqs
  import opened SafetyTypes

  datatype FeedbackItem = FeedbackItem(id: string, feedbackType: string, message: string, rating: Option<int>,
                                       pageUrl: string, createdAt: Instant, status: string, userId: string)

  datatype AnalyticsEvent = AnalyticsEvent(id: string, eventName: string, pageUrl: string, createdAt: Instant,
                                           sessionId: Option<string>, userId: Option<string>)

  datatype PageVisits = PageVisits(page: string, visits: nat)

  datatype Stats = Stats(totalFeedback: nat, bugReports: nat, featureRequests: nat, averageRating: real,
                         activeUsers: nat, topPages: seq<PageVisits>, recentErrors: nat)

  const DayMs: int := 24 * 60 * 60 * 1000

  // Counts and the average rating

  function BugReports(fs: seq<FeedbackItem>): nat { Count(fs, (f: FeedbackItem) => f.feedbackType == "bug") }
  function FeatureRequests(fs: seq<FeedbackItem>): nat { Count(fs, (f: FeedbackItem) => f.feedbackType == "feature") }

  /** No item is both a bug report and a feature request, so together they are at most the total. */
  lemma {:induction false} BugsAndFeaturesWithinTotal(fs: seq<FeedbackItem>)
    ensures BugReports(fs) + FeatureRequests(fs) <= |fs|
  {
    if fs != [] {
      BugsAndFeaturesWithinTotal(fs[1..]);
      assert BugReports(fs) == (if fs[0].feedbackType == "bug" then 1 else 0) + BugReports(fs[1..]);
      assert FeatureRequests(fs) == (if fs[0].feedbackType == "feature" then 1 else 0) + FeatureRequests(fs[1..]);
    }
  }

  /** The ratings that are not `null`, in order. */
  function Ratings(fs: seq<FeedbackItem>): (r: seq<int>)
    ensures |r| <= |fs|
  {
    if fs == [] then []
    else (if fs[0].rating.Some? then [fs[0].rating.value] else []) + Ratings(fs[1..])
  }

  /** The mean of the ratings, 0 without any. */
  function AverageRating(fs: seq<FeedbackItem>): (avg: real)
    ensures Ratings(fs) == [] ==> avg == 0.0
    ensures Ratings(fs) != [] ==> avg * (|Ratings(fs)| as real) == Sum(Ratings(fs)) as real
  {
    var rs := Ratings(fs);
    if |rs| > 0 then Sum(rs) as real / |rs| as real else 0.0
  }

  /** The sum of a sequence lies between its length times its least and its greatest element. */
  lemma {:induction false} SumBounds(xs: seq<int>, lo: int, hi: int)
    requires forall k :: 0 <= k < |xs| ==> lo <= xs[k] <= hi
    ensures |xs| * lo <= Sum(xs) <= |xs| * hi
  {
    if xs != [] {
      SumBounds(xs[1..], lo, hi);
    }
  }

  /** A quotient lies between the bounds its numerator is known to lie between, scaled. */
  lemma QuotientBounds(s: int, n: int, lo: int, hi: int)
    requires n > 0 && n * lo <= s <= n * hi
    ensures lo as real <= s as real / n as real <= hi as real
  {
    var q := s as real / n as real;
    assert q * n as real == s as real;
    assert (q - lo as real) * n as real >= 0.0;
    assert (hi as real - q) * n as real >= 0.0;
  }

  /** Ratings from one to five stars give an average from one to five (or 0 without any). */
  lemma AverageWithinStars(fs: seq<FeedbackItem>)
    requires forall k :: 0 <= k < |fs| && fs[k].rating.Some? ==> 1 <= fs[k].rating.value <= 5
    ensures Ratings(fs) != [] ==> 1.0 <= AverageRating(fs) <= 5.0
  {
    RatingsWithin(fs);
    var rs := Ratings(fs);
    if rs != [] {
      SumBounds(rs, 1, 5);
      QuotientBounds(Sum(rs), |rs|, 1, 5);
    }
  }

  lemma {:induction false} RatingsWithin(fs: seq<FeedbackItem>)
    requires forall k :: 0 <= k < |fs| && fs[k].rating.Some? ==> 1 <= fs[k].rating.value <= 5
    ensures forall k :: 0 <= k < |Ratings(fs)| ==> 1 <= Ratings(fs)[k] <= 5
  {
    if fs != [] {
      RatingsWithin(fs[1..]);
    }
  }

  // Distinct visitors

  /** `e.user_id || e.session_id`: an absent or empty user id falls back to the session id (which may be absent too). */
  function VisitorKey(e: AnalyticsEvent): (key: Option<string>)
    ensures e.userId.Some? && e.userId.value != "" ==> key == e.userId
    ensures e.userId.None? || e.userId.value == "" ==> key == e.sessionId
  {
    if e.userId.Some? && e.userId.value != "" then e.userId else e.sessionId
  }

  function VisitorKeys(es: seq<AnalyticsEvent>): set<Option<string>> {
    set k | 0 <= k < |es| :: VisitorKey(es[k])
  }

  /** `new Set(keys).size`. */
  function ActiveUsers(es: seq<AnalyticsEvent>): nat { |VisitorKeys(es)| }

  /** There are never more visitors than events, and there is one as soon as there is an event. */
  lemma {:induction false} ActiveUsersBounds(es: seq<AnalyticsEvent>)
    ensures ActiveUsers(es) <= |es|
    ensures es != [] ==> ActiveUsers(es) >= 1
  {
    if es != [] {
      var init := es[..|es| - 1];
      ActiveUsersBounds(init);
      assert VisitorKeys(es) == VisitorKeys(init) + {VisitorKey(es[|es| - 1])} by {
        forall key | key in VisitorKeys(es)
          ensures key in VisitorKeys(init) + {VisitorKey(es[|es| - 1])}
        {
          var k :| 0 <= k < |es| && key == VisitorKey(es[k]);
          if k < |es| - 1 {
            assert init[k] == es[k];
          }
        }
        forall key | key in VisitorKeys(init)
          ensures key in VisitorKeys(es)
        {
          var k :| 0 <= k < |init| && key == VisitorKey(init[k]);
          assert es[k] == init[k];
        }
      }
    }
  }

  // Page views

  /** `e.page_url || "/"`. */
  function PageOf(e: AnalyticsEvent): string {
    if e.pageUrl == "" then "/" else e.pageUrl
  }

  predicate IsViewOf(e: AnalyticsEvent, page: string) {
    e.eventName == "page_view" && PageOf(e) == page
  }

  /** The visits per page after the events `es`, counted event by event. */
  function PageCounts(es: seq<AnalyticsEvent>): map<string, nat>
  {
    if es == [] then map[]
    else
      var counts := PageCounts(es[..|es| - 1]);
      var e := es[|es| - 1];
      if e.eventName != "page_view" then counts
      else counts[PageOf(e) := if PageOf(e) in counts then counts[PageOf(e)] + 1 else 1]
  }

  /** The pages in the order of their first view, as the keys of the counting object enumerate. */
  function FirstSeen(es: seq<AnalyticsEvent>): seq<string>
  {
    if es == [] then []
    else
      var order := FirstSeen(es[..|es| - 1]);
      var e := es[|es| - 1];
      if e.eventName == "page_view" && PageOf(e) !in PageCounts(es[..|es| - 1]) then order + [PageOf(e)]
      else order
  }

  /** The count of a page is the number of its views, and only viewed pages have a count. */
  lemma {:induction false} PageCountsCountViews(es: seq<AnalyticsEvent>, page: string)
    ensures page in PageCounts(es) <==> Count(es, e => IsViewOf(e, page)) > 0
    ensures page in PageCounts(es) ==> PageCounts(es)[page] == Count(es, e => IsViewOf(e, page))
  {
    if es != [] {
      var init := es[..|es| - 1];
      var last := es[|es| - 1];
      PageCountsCountViews(init, page);
      assert es == init + [last];
      FilterAppend(init, [last], e => IsViewOf(e, page));
    }
  }

  /** The order lists every counted page exactly once. */
  lemma {:induction false} FirstSeenListsCountedPages(es: seq<AnalyticsEvent>)
    ensures forall p :: p in FirstSeen(es) <==> p in PageCounts(es)
    ensures forall i, j :: 0 <= i < j < |FirstSeen(es)| ==> FirstSeen(es)[i] != FirstSeen(es)[j]
  {
    if es != [] {
      FirstSeenListsCountedPages(es[..|es| - 1]);
    }
  }

  /** Non-increasing visits. */
  predicate ByVisits(xs: seq<PageVisits>) {
    forall i, j :: 0 <= i < j < |xs| ==> xs[i].visits >= xs[j].visits
  }

  /** Inserts `x` after every entry with at least its visits: the stable step of the sort. */
  function InsertByVisits(xs: seq<PageVisits>, x: PageVisits): (r: seq<PageVisits>)
    ensures |r| == |xs| + 1
    ensures r[0] == if xs == [] || xs[0].visits < x.visits then x else xs[0]
    ensures multiset(r) == multiset(xs) + multiset{x}
  {
    if xs == [] then [x]
    else if xs[0].visits >= x.visits then
      assert xs == [xs[0]] + xs[1..];
      [xs[0]] + InsertByVisits(xs[1..], x)
    else [x] + xs
  }

  /** Inserting into a list ordered by visits keeps it ordered. */
  lemma {:induction false} InsertKeepsOrder(xs: seq<PageVisits>, x: PageVisits)
    requires ByVisits(xs)
    ensures ByVisits(InsertByVisits(xs, x))
  {
    if xs != [] && xs[0].visits >= x.visits {
      var rest := InsertByVisits(xs[1..], x);
      InsertKeepsOrder(xs[1..], x);
      assert rest[0].visits <= xs[0].visits;
      ConsKeepsOrder(xs[0], rest);
    }
  }

  /** An entry with at least the visits of an ordered list's head can go in front of it. */
  lemma ConsKeepsOrder(h: PageVisits, rest: seq<PageVisits>)
    requires ByVisits(rest) && (rest == [] || rest[0].visits <= h.visits)
    ensures ByVisits([h] + rest)
  {
    var r := [h] + rest;
    forall i, j | 0 <= i < j < |r| ensures r[i].visits >= r[j].visits {
      assert r[j] == rest[j - 1];
      if i > 0 {
        assert r[i] == rest[i - 1];
      }
    }
  }

  /** `entries.sort((a, b) => b.visits - a.visits)`. */
  function SortByVisits(xs: seq<PageVisits>): (r: seq<PageVisits>)
    ensures multiset(r) == multiset(xs)
    ensures ByVisits(r)
  {
    if xs == [] then []
    else
      assert xs == xs[..|xs| - 1] + [xs[|xs| - 1]];
      InsertKeepsOrder(SortByVisits(xs[..|xs| - 1]), xs[|xs| - 1]);
      InsertByVisits(SortByVisits(xs[..|xs| - 1]), xs[|xs| - 1])
  }

  /** The entries of the counting object, in key order. */
  function Entries(counts: map<string, nat>, order: seq<string>): (r: seq<PageVisits>)
    requires forall p :: p in order ==> p in counts
    ensures |r| == |order|
    ensures forall k :: 0 <= k < |r| ==> r[k] == PageVisits(order[k], counts[order[k]])
  {
    seq(|order|, k requires 0 <= k < |order| => PageVisits(order[k], counts[order[k]]))
  }

  /** The five most visited pages. */
  function TopPages(es: seq<AnalyticsEvent>): (r: seq<PageVisits>)
    ensures |r| <= 5
    ensures ByVisits(r)
  {
    FirstSeenListsCountedPages(es);
    var sorted := SortByVisits(Entries(PageCounts(es), FirstSeen(es)));
    if |sorted| <= 5 then sorted else sorted[..5]
  }

  /** Every listed page carries its number of views, which is positive. */
  lemma TopPagesAreViewCounts(es: seq<AnalyticsEvent>)
    ensures forall k :: 0 <= k < |TopPages(es)| ==>
              TopPages(es)[k].visits == Count(es, e => IsViewOf(e, TopPages(es)[k].page))
    ensures forall k :: 0 <= k < |TopPages(es)| ==> TopPages(es)[k].visits > 0
  {
    var counts, order := PageCounts(es), FirstSeen(es);
    FirstSeenListsCountedPages(es);
    var sorted := SortByVisits(Entries(counts, order));
    PermutedEntries(counts, order, sorted);
    var top := TopPages(es);
    assert top == if |sorted| <= 5 then sorted else sorted[..5];
    forall k | 0 <= k < |top|
      ensures top[k].visits == Count(es, e => IsViewOf(e, top[k].page)) && top[k].visits > 0
    {
      assert top[k] == sorted[k];
      PageCountsCountViews(es, top[k].page);
    }
  }

  /** `page` is one of the pages in the list. */
  predicate Listed(top: seq<PageVisits>, page: string) {
    exists i :: 0 <= i < |top| && top[i].page == page
  }

  /**
   * The list keeps the most visited pages: as many as there are counted
   * pages, up to five; each counted page at most once; and no page left out
   * has more visits than a listed one.
   */
  lemma TopPagesAreTheMostVisited(es: seq<AnalyticsEvent>)
    ensures |TopPages(es)| == if |PageCounts(es)| < 5 then |PageCounts(es)| else 5
    ensures forall i, j :: 0 <= i < j < |TopPages(es)| ==> TopPages(es)[i].page != TopPages(es)[j].page
    ensures forall k :: 0 <= k < |TopPages(es)| ==> TopPages(es)[k].page in PageCounts(es)
    ensures forall p, k :: p in PageCounts(es) && !Listed(TopPages(es), p) && 0 <= k < |TopPages(es)| ==>
              PageCounts(es)[p] <= TopPages(es)[k].visits
  {
    var counts, order := PageCounts(es), FirstSeen(es);
    FirstSeenListsCountedPages(es);
    var sorted := SortByVisits(Entries(counts, order));
    PermutedEntries(counts, order, sorted);
    var top := TopPages(es);
    assert top == if |sorted| <= 5 then sorted else sorted[..5];
    RankedPrefix(counts, sorted, top);
  }

  /** The first five of a ranking of the counted pages are distinct counted pages, and no other page has more visits. */
  lemma RankedPrefix(counts: map<string, nat>, sorted: seq<PageVisits>, top: seq<PageVisits>)
    requires ByVisits(sorted)
    requires forall m :: 0 <= m < |sorted| ==> sorted[m].page in counts && sorted[m].visits == counts[sorted[m].page]
    requires forall i, j :: 0 <= i < j < |sorted| ==> sorted[i].page != sorted[j].page
    requires forall p :: p in counts ==> exists m :: 0 <= m < |sorted| && sorted[m].page == p
    requires top == if |sorted| <= 5 then sorted else sorted[..5]
    ensures forall i, j :: 0 <= i < j < |top| ==> top[i].page != top[j].page
    ensures forall k :: 0 <= k < |top| ==> top[k].page in counts
    ensures forall p, k :: p in counts && !Listed(top, p) && 0 <= k < |top| ==> counts[p] <= top[k].visits
  {
    assert forall i :: 0 <= i < |top| ==> top[i] == sorted[i];
    forall p, k | p in counts && !Listed(top, p) && 0 <= k < |top| ensures counts[p] <= top[k].visits {
      var m :| 0 <= m < |sorted| && sorted[m].page == p;
      assert k < m;
    }
  }

  /**
   * A rearrangement of the entries of the counted pages, listed once each
   * in `order`: one entry per counted page, carrying its count.
   */
  lemma PermutedEntries(counts: map<string, nat>, order: seq<string>, sorted: seq<PageVisits>)
    requires forall p :: p in order <==> p in counts
    requires Distinct(order)
    requires multiset(sorted) == multiset(Entries(counts, order))
    ensures |sorted| == |counts|
    ensures forall m :: 0 <= m < |sorted| ==> sorted[m].page in counts && sorted[m].visits == counts[sorted[m].page]
    ensures forall i, j :: 0 <= i < j < |sorted| ==> sorted[i].page != sorted[j].page
    ensures forall p :: p in counts ==> exists m :: 0 <= m < |sorted| && sorted[m].page == p
  {
    var entries := Entries(counts, order);
    assert |sorted| == |entries| by {
      assert |multiset(sorted)| == |multiset(entries)|;
    }
    DistinctCardinality(order);
    assert (set x | x in order) == counts.Keys;
    assert Distinct(entries);
    PermutationKeepsDistinct(entries, sorted);
    forall m | 0 <= m < |sorted| ensures sorted[m].page in counts && sorted[m].visits == counts[sorted[m].page] {
      assert sorted[m] in multiset(entries);
    }
    forall p | p in counts ensures exists m :: 0 <= m < |sorted| && sorted[m].page == p {
      var a :| 0 <= a < |order| && order[a] == p;
      assert entries[a] in multiset(sorted);
      var m :| 0 <= m < |sorted| && sorted[m] == entries[a];
      assert sorted[m].page == p;
    }
  }

  /** An error event created within the day before `now`. */
  predicate IsRecentError(e: AnalyticsEvent, now: Instant) {
    e.eventName == "error_occurred" && e.createdAt > now - DayMs
  }

  /** The error events of the last day before `now`. */
  function RecentErrors(es: seq<AnalyticsEvent>, now: Instant): nat {
    Count(es, (e: AnalyticsEvent) => IsRecentError(e, now))
  }

  /** One more event adds one exactly when it is an error of the last day. */
  lemma RecentErrorsStep(es: seq<AnalyticsEvent>, e: AnalyticsEvent, now: Instant)
    ensures RecentErrors(es + [e], now) == RecentErrors(es, now) + (if IsRecentError(e, now) then 1 else 0)
  {
    FilterAppend(es, [e], (x: AnalyticsEvent) => IsRecentError(x, now));
  }

  function ComputeStats(fs: seq<FeedbackItem>, es: seq<AnalyticsEvent>, now: Instant): Stats {
    Stats(|fs|, BugReports(fs), FeatureRequests(fs), AverageRating(fs), ActiveUsers(es), TopPages(es),
          RecentErrors(es, now))
  }

  // Filters and the status update

  /** `filteredFeedback`: "all" matches every value. */
  predicate Shown(f: FeedbackItem, statusFilter: string, typeFilter: string) {
    (statusFilter == "all" || f.status == statusFilter) && (typeFilter == "all" || f.feedbackType == typeFilter)
  }

  function FilterFeedback(fs: seq<FeedbackItem>, statusFilter: string, typeFilter: string): seq<FeedbackItem> {
    Filter(fs, (f: FeedbackItem) => Shown(f, statusFilter, typeFilter))
  }

  /** With both filters on "all" every item is shown; otherwise exactly the matching ones. */
  lemma FeedbackFilterMeaning(fs: seq<FeedbackItem>, statusFilter: string, typeFilter: string, f: FeedbackItem)
    ensures FilterFeedback(fs, "all", "all") == fs
    ensures f in FilterFeedback(fs, statusFilter, typeFilter) <==>
            f in fs && (statusFilter == "all" || f.status == statusFilter)
                    && (typeFilter == "all" || f.feedbackType == typeFilter)
  {
    FilterKeepsAll(fs, (x: FeedbackItem) => Shown(x, "all", "all"));
    FilterMember(fs, (x: FeedbackItem) => Shown(x, statusFilter, typeFilter), f);
  }

  function SetStatusById(fs: seq<FeedbackItem>, id: string, status: string): (r: seq<FeedbackItem>)
    ensures |r| == |fs|
  {
    seq(|fs|, k requires 0 <= k < |fs| => if fs[k].id == id then fs[k].(status := status) else fs[k])
  }

  /** The update changes the status of the items with that id and nothing else. */
  lemma SetStatusTouchesOnlyId(fs: seq<FeedbackItem>, id: string, status: string)
    ensures forall k :: 0 <= k < |fs| && fs[k].id != id ==> SetStatusById(fs, id, status)[k] == fs[k]
    ensures forall k :: 0 <= k < |fs| && fs[k].id == id ==>
              SetStatusById(fs, id, status)[k] == fs[k].(status := status)
  {
  }

  /** The page's state. */
  class Dashboard {
    var feedback: seq<FeedbackItem>
    var events: seq<AnalyticsEvent>
    var stats: Option<Stats>
    var loading: bool
    var statusFilter: string
    var typeFilter: string

    constructor ()
      ensures feedback == [] && events == [] && stats.None? && loading
      ensures statusFilter == "all" && typeFilter == "all"
    {
      feedback := [];
      events := [];
      stats := None;
      loading := true;
      statusFilter := "all";
      typeFilter := "all";
    }

    /** The `forEach` over page views: counts per page and the pages in first-view order. */
    static method CountPageViews(es: seq<AnalyticsEvent>) returns (counts: map<string, nat>, order: seq<string>)
      ensures counts == PageCounts(es) && order == FirstSeen(es)
    {
      counts := map[];
      order := [];
      for i := 0 to |es|
        invariant counts == PageCounts(es[..i]) && order == FirstSeen(es[..i])
      {
        assert es[..i + 1][..i] == es[..i];
        var e := es[i];
        if e.eventName == "page_view" {
          var page := if e.pageUrl == "" then "/" else e.pageUrl;
          if page in counts {
            counts := counts[page := counts[page] + 1];
          } else {
            counts := counts[page := 1];
            order := order + [page];
          }
        }
      }
      assert es[..|es|] == es;
    }

    /**
     * `fetchData`: the rows of both queries (`null` read as none) replace
     * the lists and the statistics are computed from them.
     */
    method FetchData(feedbackRows: Option<seq<FeedbackItem>>, eventRows: Option<seq<AnalyticsEvent>>, now: Instant)
      modifies this
      ensures feedback == feedbackRows.GetOr([]) && events == eventRows.GetOr([])
      ensures stats == Some(ComputeStats(feedback, events, now))
      ensures !loading && statusFilter == old(statusFilter) && typeFilter == old(typeFilter)
    {
      var fs := feedbackRows.GetOr([]);
      var es := eventRows.GetOr([]);
      var counts, order := CountPageViews(es);
      FirstSeenListsCountedPages(es);
      var sorted := SortByVisits(Entries(counts, order));
      var top := if |sorted| <= 5 then sorted else sorted[..5];
      var computed := Stats(|fs|, BugReports(fs), FeatureRequests(fs), AverageRating(fs),
                            ActiveUsers(es), top, RecentErrors(es, now));
      assert computed == ComputeStats(fs, es, now);
      loading := true;
      feedback := fs;
      events := es;
      stats := Some(computed);
      loading := false;
    }

    /** `updateFeedbackStatus`: `updated` is whether the database update succeeded. */
    method UpdateFeedbackStatus(id: string, status: string, updated: bool)
      modifies this
      ensures feedback == if updated then SetStatusById(old(feedback), id, status) else old(feedback)
      ensures events == old(events) && stats == old(stats) && loading == old(loading)
      ensures statusFilter == old(statusFilter) && typeFilter == old(typeFilter)
    {
      if updated {
        feedback := SetStatusById(feedback, id, status);
      }
    }
  }
}
