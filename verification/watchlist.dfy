/** The dashboard's watch list: the statistics tiles (`updateStats`), the
    "recent activity" panel (`displayRecentActivity`) and adding a title
    from the movie dialog (`addToWatched`). */
module WatchList {
  import opened Wrappers
  import opened Strings
  import opened Lists
  import opened Catalog
  import DateOrder

  /** A watched title: the catalogue entry's fields plus the user's rating
      (whole stars), review, viewing date (`YYYY-MM-DD`) and duration in
      minutes (cumulative for a series). */
  datatype WatchedItem = WatchedItem(
    id: int,
    title: string,
    kind: string,
    year: int,
    genre: string,
    poster: string,
    description: Option<string>,
    rating: int,
    review: Option<string>,
    watchedDate: string,
    duration: int)

  /** Minutes assumed for an entry that has no (or a zero) duration. */
  const DefaultDuration: int := 120

  /** How many entries the recent-activity panel shows. */
  const RecentLimit: nat := 5

  // ---------------------------------------------------------------------------
  // Statistics tiles

  datatype Dashboard = Dashboard(movies: nat, series: nat, totalHours: int, avgRating: real)

  function Minutes(x: WatchedItem): int { x.duration }

  function Stars(x: WatchedItem): int { x.rating }

  function OfKind(kind: string): WatchedItem -> bool {
    (x: WatchedItem) => x.kind == kind
  }

  /** Typed as one of the two kinds the dashboard counts. */
  function MovieOrSeries(): WatchedItem -> bool {
    (x: WatchedItem) => x.kind == "movie" || x.kind == "series"
  }

  function TotalMinutes(items: seq<WatchedItem>): int {
    SumOf(items, Minutes)
  }

  function TotalStars(items: seq<WatchedItem>): int {
    SumOf(items, Stars)
  }

  /** `Math.round`: the nearest integer, halves rounded up. */
  function MathRound(x: real): int {
    (x + 0.5).Floor
  }

  /** Rounding a whole number of minutes to hours is integer arithmetic:
      add half an hour and divide, rounding down. */
  lemma MinutesToHours(minutes: int)
    ensures MathRound(minutes as real / 60.0) == (minutes + 30) / 60
  {
    var q := (minutes + 30) / 60;
    var r := (minutes + 30) % 60;
    assert minutes + 30 == 60 * q + r && 0 <= r < 60;
    var x := minutes as real / 60.0 + 0.5;
    assert x == q as real + r as real / 60.0;
    assert q as real <= x < q as real + 1.0;
  }

  function MinStars(items: seq<WatchedItem>): (lo: int)
    requires |items| > 0
    ensures forall i :: 0 <= i < |items| ==> lo <= items[i].rating
    ensures exists i :: 0 <= i < |items| && lo == items[i].rating
    decreases |items|
  {
    if |items| == 1 then items[0].rating
    else
      var rest := MinStars(items[1..]);
      if items[0].rating <= rest then items[0].rating else rest
  }

  function MaxStars(items: seq<WatchedItem>): (hi: int)
    requires |items| > 0
    ensures forall i :: 0 <= i < |items| ==> items[i].rating <= hi
    ensures exists i :: 0 <= i < |items| && hi == items[i].rating
    decreases |items|
  {
    if |items| == 1 then items[0].rating
    else
      var rest := MaxStars(items[1..]);
      if items[0].rating >= rest then items[0].rating else rest
  }

  /** The count of entries of one kind: the length of the filtered list,
      which is the number of entries of that kind. */
  function CountKind(items: seq<WatchedItem>, kind: string): (c: nat)
    ensures c == SumOf(items, Indicator(OfKind(kind)))
    ensures c == |Filter(items, OfKind(kind))|
  {
    FilterLengthIsCount(items, OfKind(kind));
    |Filter(items, OfKind(kind))|
  }

  /** The mean rating: the total divided by the count, 0 for an empty list. */
  function MeanRating(items: seq<WatchedItem>): (m: real)
    ensures |items| == 0 ==> m == 0.0
    ensures |items| > 0 ==> IsMean(m, TotalStars(items), |items|)
    ensures |items| > 0 ==> MinStars(items) as real <= m <= MaxStars(items) as real
  {
    MeanTimesCount(TotalStars(items), |items|);
    AverageWithinBounds(items);
    if |items| > 0 then TotalStars(items) as real / |items| as real else 0.0
  }

  /** The four tiles: counts of movies and of series, total hours watched
      and the mean rating (0 for an empty list). */
  function UpdateStats(items: seq<WatchedItem>): (d: Dashboard)
    ensures d.movies == SumOf(items, Indicator(OfKind("movie")))
    ensures d.series == SumOf(items, Indicator(OfKind("series")))
    ensures d.movies + d.series == |Filter(items, MovieOrSeries())| <= |items|
    ensures d.totalHours == (TotalMinutes(items) + 30) / 60
    ensures |items| == 0 ==> d.avgRating == 0.0
    ensures |items| > 0 ==> IsMean(d.avgRating, TotalStars(items), |items|)
    ensures |items| > 0 ==> MinStars(items) as real <= d.avgRating <= MaxStars(items) as real
  {
    MovieSeriesPartition(items);
    MinutesToHours(TotalMinutes(items));
    var mean := MeanRating(items);
    Dashboard(
      CountKind(items, "movie"),
      CountKind(items, "series"),
      MathRound(TotalMinutes(items) as real / 60.0),
      mean)
  }

  /** Movies and series are disjoint, so their counts add up to the count
      of entries of either kind. */
  lemma {:induction false} MovieSeriesPartition(items: seq<WatchedItem>)
    ensures |Filter(items, OfKind("movie"))| + |Filter(items, OfKind("series"))|
         == |Filter(items, MovieOrSeries())|
    decreases |items|
  {
    if |items| > 0 {
      MovieSeriesPartition(items[1..]);
    }
  }

  /** `mean` is `total` shared out over `n`: `n` copies of it make the total. */
  predicate IsMean(mean: real, total: int, n: int) {
    mean * n as real == total as real
  }

  /** Dividing by the count gives the mean. */
  lemma MeanTimesCount(total: int, n: int)
    ensures n > 0 ==> IsMean(total as real / n as real, total, n)
  {
  }

  /** The mean of the ratings lies between the lowest and the highest. */
  lemma AverageWithinBounds(items: seq<WatchedItem>)
    ensures |items| > 0 ==>
      MinStars(items) as real <= TotalStars(items) as real / |items| as real <= MaxStars(items) as real
  {
    if |items| == 0 { return; }
    var lo, hi, n := MinStars(items), MaxStars(items), |items|;
    SumOfBounds(items, Stars, lo, hi);
    MeanBetween(TotalStars(items), n, lo, hi);
  }

  /** If `n` terms sum to `total`, each between `lo` and `hi`, their mean
      is between `lo` and `hi`. */
  lemma MeanBetween(total: int, n: int, lo: int, hi: int)
    requires n > 0 && n * lo <= total <= n * hi
    ensures lo as real <= total as real / n as real <= hi as real
  {
    var avg := total as real / n as real;
    assert avg * n as real == total as real;
    assert lo as real * n as real <= total as real;
    assert total as real <= hi as real * n as real;
  }

  /** Reordering the list (as the recent-activity panel does) does not
      change any tile. */
  lemma StatsPermutationInvariant(a: seq<WatchedItem>, b: seq<WatchedItem>)
    requires multiset(a) == multiset(b)
    ensures UpdateStats(a) == UpdateStats(b)
  {
    FilterLengthPermutation(a, b, OfKind("movie"));
    FilterLengthPermutation(a, b, OfKind("series"));
    SumOfPermutation(a, b, Minutes);
    SumOfPermutation(a, b, Stars);
    assert |a| == |multiset(a)| == |b|;
  }

  // ---------------------------------------------------------------------------
  // Recent activity

  /** Newest first: no entry is dated after any entry before it. */
  ghost predicate NewestFirst(s: seq<WatchedItem>) {
    forall i, j :: 0 <= i < j < |s| ==> DateOrder.Le(s[j].watchedDate, s[i].watchedDate)
  }

  /** Puts `x` into a newest-first list, ahead of every entry dated the same
      day or earlier. */
  function Insert(x: WatchedItem, s: seq<WatchedItem>): (r: seq<WatchedItem>)
    ensures multiset(r) == multiset(s) + multiset{x}
    decreases |s|
  {
    if |s| == 0 then [x]
    else if DateOrder.Le(s[0].watchedDate, x.watchedDate) then [x] + s
    else
      assert s == [s[0]] + s[1..];
      [s[0]] + Insert(x, s[1..])
  }

  /** Inserting into a newest-first list keeps it newest first. */
  lemma {:induction false} InsertKeepsOrder(x: WatchedItem, s: seq<WatchedItem>)
    requires NewestFirst(s)
    ensures NewestFirst(Insert(x, s))
    decreases |s|
  {
    if |s| > 0 {
      if DateOrder.Le(s[0].watchedDate, x.watchedDate) {
        InsertFrontKeepsOrder(x, s);
      } else {
        NewestFirstTail(s);
        InsertKeepsOrder(x, s[1..]);
        InsertBelowHead(x, s, Insert(x, s[1..]));
      }
    }
  }

  lemma NewestFirstTail(s: seq<WatchedItem>)
    requires NewestFirst(s) && |s| > 0
    ensures NewestFirst(s[1..])
  {
    forall i, j | 0 <= i < j < |s| - 1
      ensures DateOrder.Le(s[1..][j].watchedDate, s[1..][i].watchedDate)
    {
      assert s[1..][j] == s[j + 1] && s[1..][i] == s[i + 1];
    }
  }

  /** `x`, dated after the head, goes into the tail; the head stays first. */
  lemma InsertBelowHead(x: WatchedItem, s: seq<WatchedItem>, t: seq<WatchedItem>)
    requires NewestFirst(s) && |s| > 0 && !DateOrder.Le(s[0].watchedDate, x.watchedDate)
    requires NewestFirst(t) && multiset(t) == multiset(s[1..]) + multiset{x}
    ensures NewestFirst([s[0]] + t)
  {
    DateOrder.LeTotal(s[0].watchedDate, x.watchedDate);
    assert s == [s[0]] + s[1..];
    HeadAboveInserted(s[0], x, s[1..], t);
  }

  lemma InsertFrontKeepsOrder(x: WatchedItem, s: seq<WatchedItem>)
    requires NewestFirst(s) && |s| > 0
    requires DateOrder.Le(s[0].watchedDate, x.watchedDate)
    ensures NewestFirst([x] + s)
  {
    var r := [x] + s;
    forall i, j | 0 <= i < j < |r|
      ensures DateOrder.Le(r[j].watchedDate, r[i].watchedDate)
    {
      if i == 0 && j > 1 {
        DateOrder.LeTransitive(r[j].watchedDate, s[0].watchedDate, x.watchedDate);
      }
    }
  }

  lemma HeadAboveInserted(h: WatchedItem, x: WatchedItem, s: seq<WatchedItem>, t: seq<WatchedItem>)
    requires NewestFirst([h] + s) && NewestFirst(t)
    requires DateOrder.Le(x.watchedDate, h.watchedDate)
    requires multiset(t) == multiset(s) + multiset{x}
    ensures NewestFirst([h] + t)
  {
    var r := [h] + t;
    forall j | 0 <= j < |t|
      ensures DateOrder.Le(t[j].watchedDate, h.watchedDate)
    {
      assert t[j] in multiset(t);
      if t[j] != x {
        assert t[j] in multiset(s);
        assert t[j] in s;
        var k :| 0 <= k < |s| && s[k] == t[j];
        var hs := [h] + s;
        assert hs[0] == h && hs[k + 1] == t[j];
        assert DateOrder.Le(hs[k + 1].watchedDate, hs[0].watchedDate);
      }
    }
    forall i, j | 0 <= i < j < |r|
      ensures DateOrder.Le(r[j].watchedDate, r[i].watchedDate)
    {
      if i > 0 {
        assert r[i] == t[i - 1] && r[j] == t[j - 1];
      }
    }
  }

  /** The comparator sort `(a, b) => new Date(b.watchedDate) - new Date(a.watchedDate)`:
      newest first, entries of the same day in their original order. */
  function SortNewestFirst(items: seq<WatchedItem>): (r: seq<WatchedItem>)
    ensures NewestFirst(r)
    ensures multiset(r) == multiset(items)
    decreases |items|
  {
    if |items| == 0 then []
    else
      assert items == [items[0]] + items[1..];
      var t := SortNewestFirst(items[1..]);
      InsertKeepsOrder(items[0], t);
      Insert(items[0], t)
  }

  function OnDay(day: string): WatchedItem -> bool {
    (x: WatchedItem) => x.watchedDate == day
  }

  /** Inserting `x` puts it ahead of every entry of its own day. */
  lemma {:induction false} InsertSameDay(x: WatchedItem, s: seq<WatchedItem>, day: string)
    ensures Filter(Insert(x, s), OnDay(day)) == (if x.watchedDate == day then [x] else []) + Filter(s, OnDay(day))
    decreases |s|
  {
    var p := OnDay(day);
    if |s| == 0 {
      assert Insert(x, s) == [x];
    } else if DateOrder.Le(s[0].watchedDate, x.watchedDate) {
      assert Insert(x, s) == [x] + s;
      FilterAppend([x], s, p);
    } else {
      InsertSameDay(x, s[1..], day);
      var h, tail := s[0], s[1..];
      assert Insert(x, s) == [h] + Insert(x, tail);
      FilterCons(h, Insert(x, tail), p);
      assert s == [h] + tail;
      FilterCons(h, tail, p);
      if x.watchedDate == day {
        DateOrder.LeReflexive(x.watchedDate);
        assert !p(h);
      }
    }
  }

  /** The sort is stable: the entries of any one day keep their order. */
  lemma {:induction false} SortIsStable(items: seq<WatchedItem>, day: string)
    ensures Filter(SortNewestFirst(items), OnDay(day)) == Filter(items, OnDay(day))
    decreases |items|
  {
    if |items| > 0 {
      SortIsStable(items[1..], day);
      InsertSameDay(items[0], SortNewestFirst(items[1..]), day);
    }
  }

  /** What `displayRecentActivity` leaves behind: the watch list itself,
      sorted in place, and the entries it shows. */
  datatype RecentView = RecentView(watched: seq<WatchedItem>, shown: seq<WatchedItem>)

  function DisplayRecentActivity(items: seq<WatchedItem>): (v: RecentView)
    ensures multiset(v.watched) == multiset(items)
    ensures NewestFirst(v.watched)
    ensures |v.shown| == if |items| < RecentLimit then |items| else RecentLimit
    ensures v.shown == v.watched[..|v.shown|]
    ensures NewestFirst(v.shown)
    ensures |v.shown| > 0 ==>
      forall x :: x in items ==> x in v.shown || DateOrder.Le(x.watchedDate, v.shown[|v.shown| - 1].watchedDate)
  {
    var sorted := SortNewestFirst(items);
    var n := if |sorted| < RecentLimit then |sorted| else RecentLimit;
    assert |sorted| == |multiset(sorted)| == |items|;
    forall x | x in items
      ensures x in sorted
    {
      assert x in multiset(items);
    }
    RecentView(sorted, sorted[..n])
  }

  // ---------------------------------------------------------------------------
  // Adding from the movie dialog

  /** The entry `addToWatched` builds: the catalogue entry's fields, then the
      dialog's rating and review, today's date, and the duration (120 when
      the entry has none or 0). */
  function NewWatchedItem(movie: Movie, rating: int, reviewText: string, today: string): (w: WatchedItem)
    ensures w.id == movie.id && w.title == movie.title && w.kind == movie.kind
    ensures w.year == movie.year && w.genre == movie.genre && w.poster == movie.poster
    ensures w.description == Some(movie.description)
    ensures w.rating == rating && w.review == Some(reviewText) && w.watchedDate == today
    ensures movie.duration.Some? && movie.duration.value != 0 ==> w.duration == movie.duration.value
    ensures movie.duration.None? || movie.duration.value == 0 ==> w.duration == DefaultDuration
  {
    var duration := if movie.duration.Some? && movie.duration.value != 0 then movie.duration.value else DefaultDuration;
    WatchedItem(movie.id, movie.title, movie.kind, movie.year, movie.genre, movie.poster,
                Some(movie.description), rating, Some(reviewText), today, duration)
  }

  /** `push`: one more entry, at the end, everything before it untouched.
      No check for an entry already on the list. */
  function Append(items: seq<WatchedItem>, w: WatchedItem): (r: seq<WatchedItem>)
    ensures |r| == |items| + 1
    ensures r[..|items|] == items && r[|items|] == w
  {
    items + [w]
  }

  /** Appending one entry adds its kind to the counts and its minutes to
      the total. */
  lemma {:induction false} AppendStats(items: seq<WatchedItem>, w: WatchedItem)
    ensures |Filter(Append(items, w), OfKind("movie"))| == |Filter(items, OfKind("movie"))| + (if w.kind == "movie" then 1 else 0)
    ensures |Filter(Append(items, w), OfKind("series"))| == |Filter(items, OfKind("series"))| + (if w.kind == "series" then 1 else 0)
    ensures TotalMinutes(Append(items, w)) == TotalMinutes(items) + w.duration
  {
    FilterAppend(items, [w], OfKind("movie"));
    FilterAppend(items, [w], OfKind("series"));
    SumOfAppend(items, [w], Minutes);
  }

  /** The page's state the handlers share. `currentRating` is the one
      `this.currentRating` that the star widget (`Rating.Widget`) sets. */
  datatype Tracker = Tracker(watched: seq<WatchedItem>, currentRating: int)

  datatype Added = Added(tracker: Tracker, stats: Dashboard, recent: seq<WatchedItem>)

  /** The whole `addToWatched` handler: push the new entry, refresh the
      tiles, then redraw the recent-activity panel, which re-sorts the
      list in place. */
  function AddToWatched(t: Tracker, movie: Movie, reviewText: string, today: string): (a: Added)
    ensures a.tracker.currentRating == t.currentRating
    ensures multiset(a.tracker.watched) == multiset(t.watched) + multiset{NewWatchedItem(movie, t.currentRating, reviewText, today)}
    ensures NewestFirst(a.tracker.watched)
    ensures a.stats == UpdateStats(a.tracker.watched)
    ensures a.stats.movies == UpdateStats(t.watched).movies + (if movie.kind == "movie" then 1 else 0)
    ensures a.stats.series == UpdateStats(t.watched).series + (if movie.kind == "series" then 1 else 0)
    ensures TotalMinutes(a.tracker.watched) == TotalMinutes(t.watched) + NewWatchedItem(movie, t.currentRating, reviewText, today).duration
    ensures |a.tracker.watched| == |t.watched| + 1
    ensures a.recent == a.tracker.watched[..if |a.tracker.watched| < RecentLimit then |a.tracker.watched| else RecentLimit]
  {
    var w := NewWatchedItem(movie, t.currentRating, reviewText, today);
    var pushed := Append(t.watched, w);
    assert pushed == t.watched + [w];
    var stats := UpdateStats(pushed);
    var view := DisplayRecentActivity(pushed);
    StatsPermutationInvariant(pushed, view.watched);
    AppendStats(t.watched, w);
    SumOfPermutation(pushed, view.watched, Minutes);
    Added(Tracker(view.watched, t.currentRating), stats, view.shown)
  }
}
