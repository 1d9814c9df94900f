/** The star widget of the movie dialog (`setRating`, `highlightStars` and
    the star events bound in `bindEvents`) and the star line of the
    recent-activity panel. A star's `active` class is a boolean. */
module Rating {
  import opened Wrappers

  /** The number of active stars. */
  function CountActive(stars: seq<bool>): nat
    decreases |stars|
  {
    if |stars| == 0 then 0 else (if stars[|stars| - 1] then 1 else 0) + CountActive(stars[..|stars| - 1])
  }

  function Clamp(x: int, lo: int, hi: int): int
    requires lo <= hi
  {
    if x < lo then lo else if x > hi then hi else x
  }

  /** `highlightStars(rating)`: star `i` (counting from 0) becomes active
      exactly when `i < rating`, whatever it was before. */
  method HighlightStars(stars: seq<bool>, rating: int) returns (lit: seq<bool>)
    ensures |lit| == |stars|
    ensures forall i :: 0 <= i < |lit| ==> (lit[i] <==> i < rating)
  {
    lit := stars;
    var i := 0;
    while i < |lit|
      invariant 0 <= i <= |lit| == |stars|
      invariant forall j :: 0 <= j < i ==> (lit[j] <==> j < rating)
    {
      if i < rating {
        lit := lit[i := true];
      } else {
        lit := lit[i := false];
      }
      i := i + 1;
    }
  }

  /** A highlighted row shows `rating` stars, cut off at the row's ends. */
  lemma {:induction false} HighlightedCount(lit: seq<bool>, rating: int)
    requires forall i :: 0 <= i < |lit| ==> (lit[i] <==> i < rating)
    ensures CountActive(lit) == Clamp(rating, 0, |lit|)
    decreases |lit|
  {
    if |lit| > 0 {
      HighlightedCount(lit[..|lit| - 1], rating);
    }
  }

  /** The dialog's rating and its row of stars. `currentRating` is the
      page's single `this.currentRating`, the same field as
      `WatchList.Tracker.currentRating`. */
  datatype Widget = Widget(currentRating: int, stars: seq<bool>)

  /** `setRating(rating)`: remember the rating and highlight that many stars. */
  method SetRating(w: Widget, rating: int) returns (r: Widget)
    ensures r.currentRating == rating
    ensures |r.stars| == |w.stars|
    ensures forall i :: 0 <= i < |r.stars| ==> (r.stars[i] <==> i < rating)
    ensures 0 <= rating <= |w.stars| ==> CountActive(r.stars) == rating
    ensures rating == 0 ==> CountActive(r.stars) == 0
  {
    var lit := HighlightStars(w.stars, rating);
    HighlightedCount(lit, rating);
    r := Widget(rating, lit);
  }

  /** Clicking star `index` (from 0) rates `index + 1`: that star and all
      before it light up. */
  method ClickStar(w: Widget, index: nat) returns (r: Widget)
    requires index < |w.stars|
    ensures r.currentRating == index + 1
    ensures |r.stars| == |w.stars|
    ensures forall i :: 0 <= i < |r.stars| ==> (r.stars[i] <==> i <= index)
    ensures CountActive(r.stars) == index + 1
  {
    r := SetRating(w, index + 1);
  }

  /** Hovering over star `index` previews `index + 1` stars without
      changing the rating; leaving the row shows the rating again. */
  method HoverStar(w: Widget, index: nat) returns (r: Widget)
    requires index < |w.stars|
    ensures r.currentRating == w.currentRating
    ensures |r.stars| == |w.stars|
    ensures forall i :: 0 <= i < |r.stars| ==> (r.stars[i] <==> i <= index)
  {
    var lit := HighlightStars(w.stars, index + 1);
    r := Widget(w.currentRating, lit);
  }

  method LeaveStars(w: Widget) returns (r: Widget)
    ensures r.currentRating == w.currentRating
    ensures |r.stars| == |w.stars|
    ensures forall i :: 0 <= i < |r.stars| ==> (r.stars[i] <==> i < w.currentRating)
  {
    var lit := HighlightStars(w.stars, w.currentRating);
    r := Widget(w.currentRating, lit);
  }

  const FullStar: char := '★'
  const EmptyStar: char := '☆'

  function Repeat(c: char, n: nat): (s: string)
    ensures |s| == n && forall i :: 0 <= i < n ==> s[i] == c
  {
    seq(n, _ => c)
  }

  /** The panel's star line `'★'.repeat(rating) + '☆'.repeat(5 - rating)`;
      `repeat` throws on a negative count, so a rating outside 0..5 has no
      line. */
  function StarLine(rating: int): (line: Option<string>)
    ensures line.Some? <==> 0 <= rating <= 5
    ensures line.Some? ==> |line.value| == 5
    ensures line.Some? ==> forall i :: 0 <= i < 5 ==> (line.value[i] == FullStar <==> i < rating)
    ensures line.Some? ==> forall i :: rating <= i < 5 ==> line.value[i] == EmptyStar
  {
    if rating < 0 || 5 - rating < 0 then None
    else Some(Repeat(FullStar, rating) + Repeat(EmptyStar, 5 - rating))
  }
}
