/** The star widget: a row of `maxRating` stars, star k (counted from 1)
    filled when k does not exceed the rating, and, when interactive, each
    star reporting its own number when clicked. The buyer's feedback rating
    has no other source. */
module StarRating {
  import opened Common

  const DefaultMaxRating: nat := 5

  /** The fill state of each star, left to right. `rating` is a JavaScript
      number; it may be fractional (a vendor's average). */
  function Stars(rating: real, maxRating: nat): (r: seq<bool>)
    ensures |r| == maxRating
    ensures forall k :: 0 <= k < |r| ==> (r[k] <==> (k + 1) as real <= rating)
  {
    seq(maxRating, index requires 0 <= index < maxRating => (index + 1) as real <= rating)
  }

  /** Filled stars always form a prefix of the row. */
  lemma FilledIsPrefix(rating: real, maxRating: nat, i: nat, j: nat)
    requires i <= j < maxRating && Stars(rating, maxRating)[j]
    ensures Stars(rating, maxRating)[i]
  {
  }

  function CountFilled(s: seq<bool>): (n: nat)
    ensures n <= |s|
  {
    if s == [] then 0 else CountFilled(s[..|s| - 1]) + (if s[|s| - 1] then 1 else 0)
  }

  lemma {:induction false} StarsGrow(rating: real, m: nat)
    ensures Stars(rating, m + 1) == Stars(rating, m) + [(m + 1) as real <= rating]
  {
  }

  /** For a whole-number rating the widget fills exactly the rating clamped
      to 0..maxRating. */
  lemma {:induction false} FilledCountOfWholeRating(rating: int, maxRating: nat)
    ensures CountFilled(Stars(rating as real, maxRating)) ==
      if rating <= 0 then 0 else if rating >= maxRating then maxRating else rating
  {
    if maxRating > 0 {
      var m := maxRating - 1;
      StarsGrow(rating as real, m);
      FilledCountOfWholeRating(rating, m);
      assert Stars(rating as real, maxRating)[..m] == Stars(rating as real, m);
    }
  }

  /** What clicking star `index` (0-based) reports to `onRatingChange`: its
      1-based number when interactive, nothing otherwise (no handler). */
  function ClickValue(interactive: bool, index: nat, maxRating: nat): (r: Option<int>)
    requires index < maxRating
    ensures interactive <==> r.Some?
    ensures r.Some? ==> 1 <= r.value <= maxRating && r.value == index + 1
  {
    if interactive then Some(index + 1) else None
  }

  /** After clicking star k in the default widget the row shows exactly k
      filled stars. */
  lemma ClickThenShow(index: nat)
    requires index < DefaultMaxRating
    ensures var v := ClickValue(true, index, DefaultMaxRating).value;
      1 <= v <= 5 && CountFilled(Stars(v as real, DefaultMaxRating)) == v
  {
    FilledCountOfWholeRating(index + 1, DefaultMaxRating);
  }
}
