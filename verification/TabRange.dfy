/** Which tabs to show when they do not all fit: a search over all windows that hold the
    active tab, in the saturating 16-bit arithmetic of terminal cells. */
module TabRange {
  import opened Protocol

  const CELL_MAX := 0xFFFF

  datatype Range = Range(start: nat, end: nat)

  function Saturate(n: nat): nat {
    Min(n, CELL_MAX)
  }

  /** The tabs from `start` to `end` with one cell between neighbours. */
  function Width(widths: seq<nat>, start: nat, end: nat): nat
    requires start < end <= |widths|
  {
    if end == start + 1 then widths[start] else Width(widths, start, end - 1) + 1 + widths[end - 1]
  }

  /** With a two-cell marker at each side where tabs are hidden. */
  function Occupied(widths: seq<nat>, r: Range): nat
    requires r.start < r.end <= |widths|
  {
    Width(widths, r.start, r.end) + (if r.start > 0 then 2 else 0) + (if r.end < |widths| then 2 else 0)
  }

  function Distance(a: nat, b: nat): nat {
    if a < b then b - a else a - b
  }

  function Imbalance(active: nat, r: Range): nat
    requires r.start <= active < r.end
  {
    Distance(active - r.start, r.end - (active + 1))
  }

  /** Nothing but the difference between the tabs shown left and right of the active one. */
  lemma ImbalanceIs(active: nat, left: nat, right: nat)
    requires left <= active
    ensures Imbalance(active, Range(active - left, active + 1 + right))
            == if left < right then right - left else left - right
  {
  }

  /** Two neighbouring stretches of tabs are one cell apart. */
  lemma {:induction false} WidthJoins(widths: seq<nat>, start: nat, mid: nat, end: nat)
    requires start < mid < end <= |widths|
    ensures Width(widths, start, end) == Width(widths, start, mid) + 1 + Width(widths, mid, end)
    decreases end
  {
    if mid + 1 < end {
      WidthJoins(widths, start, mid, end - 1);
    }
  }

  predicate Holds(widths: seq<nat>, active: nat, r: Range) {
    r.start <= active < r.end <= |widths|
  }

  predicate Fits(widths: seq<nat>, active: nat, available: nat, r: Range) {
    Holds(widths, active, r) && Occupied(widths, r) <= available
  }

  /** More tabs first, then more of the row used, then the active tab nearer the middle. */
  predicate Better(widths: seq<nat>, active: nat, a: Range, b: Range)
    requires Holds(widths, active, a) && Holds(widths, active, b)
  {
    var (ca, cb, oa, ob) := (a.end - a.start, b.end - b.start, Occupied(widths, a), Occupied(widths, b));
    ca > cb || (ca == cb && (oa > ob || (oa == ob && Imbalance(active, a) < Imbalance(active, b))))
  }

  /** Of the windows that `seen` says were considered, none that fits is better than `best`, and
      of equally good ones `best` starts first. */
  ghost predicate Optimal(widths: seq<nat>, active: nat, available: nat, best: Range, start: nat, end: nat) {
    && Fits(widths, active, available, best) && Seen(best, start, end)
    && forall r :: Fits(widths, active, available, r) && Seen(r, start, end) ==>
         r == best || Better(widths, active, best, r)
         || (!Better(widths, active, r, best) && best.start < r.start)
  }

  /** The search goes through the windows by start, then by end. */
  predicate Seen(r: Range, start: nat, end: nat) {
    r.start < start || (r.start == start && r.end < end)
  }

  ghost predicate NoneFits(widths: seq<nat>, active: nat, available: nat, start: nat, end: nat) {
    forall r :: Fits(widths, active, available, r) && Seen(r, start, end) ==> r == Range(active, active + 1)
  }

  datatype Rank = Rank(count: nat, occupied: nat, balance: int)

  predicate Greater(a: Rank, b: Rank) {
    || a.count > b.count
    || (a.count == b.count
        && (a.occupied > b.occupied || (a.occupied == b.occupied && a.balance > b.balance)))
  }

  function RankOf(widths: seq<nat>, active: nat, r: Range): Rank
    requires Holds(widths, active, r)
  {
    Rank(r.end - r.start, Occupied(widths, r), 0 - Imbalance(active, r))
  }

  /** A wide row shows everything or the best window around the active tab; when no window
      with it fits, it shows the active tab alone. */
  method VisibleTabRange(widths: seq<nat>, active: nat, available: nat) returns (r: Range)
    requires available <= CELL_MAX && forall i :: 0 <= i < |widths| ==> widths[i] <= CELL_MAX
    ensures widths == [] || available == 0 ==> r == Range(0, 0)
    ensures widths != [] && available > 0 ==>
              var chosen := Min(active, |widths| - 1);
              if available == CELL_MAX
              then r == Range(0, |widths|)
                   && (Optimal(widths, chosen, available, r, |widths|, 0) <==> Width(widths, 0, |widths|) <= CELL_MAX)
              else if Fits(widths, chosen, available, r)
              then Optimal(widths, chosen, available, r, |widths|, 0)
              else r == Range(chosen, chosen + 1) && forall w :: !Fits(widths, chosen, available, w)
  {
    hide Searched, Optimal, Fits, Better, NoneFits;
    if widths == [] || available == 0 {
      return Range(0, 0);
    }
    var active := Min(active, |widths| - 1);
    var full := FullWidth(widths);
    if full <= available {
      if Width(widths, 0, |widths|) <= available {
        FullIsBest(widths, active, available);
      } else {
        FullOverflows(widths, active, available);
      }
      r := Range(0, |widths|);
      return;
    }
    NothingSeen(widths, active, available);
    var best := Range(active, active + 1);
    var bestRank := Rank(1, 0, 0);
    for start := 0 to active + 1
      invariant Searched(widths, active, available, best, bestRank, start, start + 1)
    {
      var tabWidth := 0;
      for end := start + 1 to |widths| + 1
        invariant end > start + 1 ==> tabWidth == Saturate(Width(widths, start, end - 1))
        invariant end == start + 1 ==> tabWidth == 0
        invariant Searched(widths, active, available, best, bestRank, start, end)
      {
        tabWidth := Saturate(Saturate(tabWidth + widths[end - 1]) + if end > start + 1 then 1 else 0);
        if end <= active {
          Outside(widths, active, available, start, end);
          SkipWindow(widths, active, available, best, bestRank, start, end);
          continue;
        }
        var window := Range(start, end);
        var occupied := Saturate(Saturate(tabWidth + (if start > 0 then 2 else 0)) + if end < |widths| then 2 else 0);
        Exact(widths, active, available, window, occupied);
        if occupied > available {
          SkipWindow(widths, active, available, best, bestRank, start, end);
          continue;
        }
        var rank := Rank(end - start, occupied, 0 - Imbalance(active, window));
        ConsiderWindow(widths, active, available, best, bestRank, window);
        if Greater(rank, bestRank) {
          best, bestRank := window, rank;
        }
      }
      NextStart(widths, active, available, best, bestRank, start);
    }
    assert available < CELL_MAX;
    AllSeen(widths, active, available, best, bestRank);
    r := best;
  }

  /** Below the largest cell count saturation never decides a comparison. */
  lemma Exact(widths: seq<nat>, active: nat, available: nat, r: Range, occupied: nat)
    requires Holds(widths, active, r) && occupied == Saturate(Occupied(widths, r)) && available < CELL_MAX
    ensures occupied <= available <==> Fits(widths, active, available, r)
    ensures occupied <= available ==> occupied == Occupied(widths, r)
  {
  }

  lemma Outside(widths: seq<nat>, active: nat, available: nat, start: nat, end: nat)
    requires end <= active
    ensures !Fits(widths, active, available, Range(start, end))
  {
  }

  lemma FullIsBest(widths: seq<nat>, active: nat, available: nat)
    requires active < |widths| && Width(widths, 0, |widths|) <= available
    ensures Fits(widths, active, available, Range(0, |widths|))
    ensures Optimal(widths, active, available, Range(0, |widths|), |widths|, 0)
  {
  }

  lemma FullOverflows(widths: seq<nat>, active: nat, available: nat)
    requires active < |widths| && Width(widths, 0, |widths|) > available
    ensures !Optimal(widths, active, available, Range(0, |widths|), |widths|, 0)
  {
  }

  /** At the largest cell count the saturated total of a row that is too wide counts as fitting:
      all tabs are shown although they do not fit and a smaller window does. */
  lemma SaturationShowsTooMuch()
    ensures var widths := [CELL_MAX, 1];
            && Saturate(Width(widths, 0, 2)) <= CELL_MAX
            && !Fits(widths, 1, CELL_MAX, Range(0, 2)) && Fits(widths, 1, CELL_MAX, Range(1, 2))
  {
    var widths := [CELL_MAX, 1];
    assert Width(widths, 0, 1) == CELL_MAX;
    assert Width(widths, 0, 2) == CELL_MAX + 2;
    assert Width(widths, 1, 2) == 1;
  }

  lemma NothingSeen(widths: seq<nat>, active: nat, available: nat)
    requires active < |widths|
    ensures Searched(widths, active, available, Range(active, active + 1), Rank(1, 0, 0), 0, 1)
  {
  }

  /** All tabs in one row. */
  method FullWidth(widths: seq<nat>) returns (full: nat)
    requires widths != []
    ensures full == Saturate(Width(widths, 0, |widths|))
  {
    full := Saturate(widths[0]);
    for i := 1 to |widths|
      invariant full == Saturate(Width(widths, 0, i))
    {
      full := Saturate(Saturate(full + 1) + widths[i]);
    }
  }

  /** What the search knows: the best window so far with its rank, or that nothing fits yet. */
  ghost predicate Searched(
    widths: seq<nat>, active: nat, available: nat, best: Range, rank: Rank, start: nat, end: nat) {
    && active < |widths| && Holds(widths, active, best)
    && if rank == Rank(1, 0, 0)
       then best == Range(active, active + 1) && NoneFits(widths, active, available, start, end)
       else rank == RankOf(widths, active, best) && Optimal(widths, active, available, best, start, end)
  }

  lemma SkipWindow(widths: seq<nat>, active: nat, available: nat, best: Range, rank: Rank, start: nat, end: nat)
    requires Searched(widths, active, available, best, rank, start, end)
    requires !Fits(widths, active, available, Range(start, end))
    ensures Searched(widths, active, available, best, rank, start, end + 1)
  {
    forall r | Fits(widths, active, available, r) && Seen(r, start, end + 1) ensures Seen(r, start, end) {
      assert r != Range(start, end);
    }
  }

  lemma ConsiderWindow(widths: seq<nat>, active: nat, available: nat, best: Range, rank: Rank, window: Range)
    requires Searched(widths, active, available, best, rank, window.start, window.end)
    requires Fits(widths, active, available, window)
    ensures var challenger := RankOf(widths, active, window);
            if Greater(challenger, rank)
            then Searched(widths, active, available, window, challenger, window.start, window.end + 1)
            else Searched(widths, active, available, best, rank, window.start, window.end + 1)
  {
    forall r | Fits(widths, active, available, r) && Seen(r, window.start, window.end + 1)
      ensures r == window || Seen(r, window.start, window.end)
    {
      assert r.start == window.start && r.end == window.end ==> r == window;
    }
  }

  lemma NextStart(widths: seq<nat>, active: nat, available: nat, best: Range, rank: Rank, start: nat)
    requires Searched(widths, active, available, best, rank, start, |widths| + 1)
    ensures Searched(widths, active, available, best, rank, start + 1, start + 2)
  {
    forall r | Fits(widths, active, available, r) && Seen(r, start + 1, start + 2)
      ensures Seen(r, start, |widths| + 1)
    {
    }
  }

  lemma AllSeen(widths: seq<nat>, active: nat, available: nat, best: Range, rank: Rank)
    requires Searched(widths, active, available, best, rank, active + 1, active + 2)
    ensures if Fits(widths, active, available, best) then Optimal(widths, active, available, best, |widths|, 0)
            else best == Range(active, active + 1) && forall w :: !Fits(widths, active, available, w)
  {
    forall r | Fits(widths, active, available, r) ensures Seen(r, active + 1, active + 2) {
    }
  }
}
