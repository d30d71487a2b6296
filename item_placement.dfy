/**
 * Where a collectible (fish, meat, suplemen) appears vertically.  Its y is
 * drawn from a band the player can reach by jumping; up to 20 draws are tried
 * to keep it at least 10 px above or below every other active collectible,
 * and if none of them passes the item is put at the top of the band.
 */
module ItemPlacement {

  import Physics

  /** Smallest vertical clearance wanted between two collectibles. */
  const MinSeparation := 10
  /** How far above its lowest position an item may appear. */
  const JumpHeight := 225
  /** Draws tried before giving up on separation. */
  const Attempts := 20

  /** The vertical extent of an active item: top edge and height. */
  datatype Span = Span(y: int, h: int)

  /**
   * `isVerticallyApart`: one extent ends at least `minDist` pixels above
   * where the other begins, in either order.
   */
  predicate VerticallyApart(y1: int, h1: int, y2: int, h2: int, minDist: int)
  {
    (y1 + h1 + minDist <= y2) || (y2 + h2 + minDist <= y1)
  }

  /** The free space between two extents (negative when they overlap). */
  function Clearance(a: Span, b: Span): int
  {
    if b.y - (a.y + a.h) < a.y - (b.y + b.h) then a.y - (b.y + b.h) else b.y - (a.y + a.h)
  }

  /** The pixel row `row` belongs to the extent. */
  predicate InSpan(s: Span, row: int)
  {
    s.y <= row < s.y + s.h
  }

  /**
   * Two extents of positive height are apart by `minDist` exactly when the
   * free space between them is at least `minDist`; being apart does not
   * depend on the order of the two, and with a non-negative `minDist` they
   * share no row of pixels.  With `minDist` 0 the converse holds too.
   */
  lemma ApartMeansClearance(a: Span, b: Span, minDist: int)
    requires a.h > 0 && b.h > 0
    ensures VerticallyApart(a.y, a.h, b.y, b.h, minDist) <==> Clearance(a, b) >= minDist
    ensures VerticallyApart(a.y, a.h, b.y, b.h, minDist) <==> VerticallyApart(b.y, b.h, a.y, a.h, minDist)
    ensures minDist >= 0 && VerticallyApart(a.y, a.h, b.y, b.h, minDist) ==>
      !exists row :: InSpan(a, row) && InSpan(b, row)
    ensures !(exists row :: InSpan(a, row) && InSpan(b, row)) ==> VerticallyApart(a.y, a.h, b.y, b.h, 0)
  {
    if !VerticallyApart(a.y, a.h, b.y, b.h, 0) {
      var row := if a.y < b.y then b.y else a.y;
      assert InSpan(a, row) && InSpan(b, row);
    }
  }

  /** `isItemYValid`: the candidate is apart from every other active item. */
  predicate ItemYValid(candidateY: int, candidateH: int, others: seq<Span>, minDist: int)
  {
    forall i :: 0 <= i < |others| ==> VerticallyApart(candidateY, candidateH, others[i].y, others[i].h, minDist)
  }

  /** `isItemYValid` as the game runs it: a scan that stops at the first item too close. */
  method IsItemYValid(candidateY: int, candidateH: int, others: seq<Span>, minDist: int) returns (valid: bool)
    ensures valid <==> ItemYValid(candidateY, candidateH, others, minDist)
  {
    var i := 0;
    while i < |others|
      invariant 0 <= i <= |others|
      invariant forall j :: 0 <= j < i ==> VerticallyApart(candidateY, candidateH, others[j].y, others[j].h, minDist)
    {
      if !VerticallyApart(candidateY, candidateH, others[i].y, others[i].h, minDist) {
        return false;
      }
      i := i + 1;
    }
    return true;
  }

  /** The active items among two, in the order the game lists them. */
  function ActiveSpans(firstActive: bool, first: Span, secondActive: bool, second: Span): (s: seq<Span>)
    ensures |s| == (if firstActive then 1 else 0) + (if secondActive then 1 else 0)
    ensures firstActive ==> s[0] == first
    ensures secondActive ==> s[|s| - 1] == second
  {
    (if firstActive then [first] else []) + (if secondActive then [second] else [])
  }

  /** The closed range of tops an item may be given. */
  datatype Band = Band(lo: int, hi: int)

  /**
   * The band for an item of height `h` that must stay `margin` pixels above
   * the platform: from 225 px above its lowest position down to that
   * position, clamped to the screen and never empty.
   */
  function ItemBand(h: int, margin: int): (b: Band)
    ensures 0 <= b.lo <= b.hi
    ensures Physics.GroundY - h - JumpHeight >= 0 && margin <= JumpHeight ==>
      b == Band(Physics.GroundY - h - JumpHeight, Physics.GroundY - h - margin)
  {
    var minY := Physics.GroundY - h - JumpHeight;
    var maxY := Physics.GroundY - h - margin;
    var minY := if minY < 0 then 0 else minY;
    var maxY := if maxY < minY then minY + 1 else maxY;
    Band(minY, maxY)
  }

  /** `minY + (int) (Math.random() * (maxY - minY + 1))`: a uniform draw from the band. */
  function Candidate(b: Band, r: real): (y: int)
    requires b.lo <= b.hi && 0.0 <= r < 1.0
    ensures b.lo <= y <= b.hi
  {
    var n := (b.hi - b.lo + 1) as real;
    assert 0.0 <= r * n < n;
    b.lo + (r * n).Floor
  }

  /** Every value of a random stream lies in [0, 1), as `Math.random()`'s do. */
  ghost predicate Draws(draw: nat -> real)
  {
    forall i: nat :: 0.0 <= draw(i) < 1.0
  }

  /** The candidate of attempt `i` of a search whose first draw is `start`. */
  function AttemptY(b: Band, draw: nat -> real, start: nat, i: nat): (y: int)
    requires b.lo <= b.hi && Draws(draw)
    ensures b.lo <= y <= b.hi
  {
    Candidate(b, draw(start + i))
  }

  /** The outcome of the search: the y chosen and how many draws it consumed. */
  datatype Placement = Placement(y: int, used: nat)

  /**
   * The search from attempt `k` on, attempt `i` using draw `start + i` of the
   * stream: the first candidate that is apart from the others wins,
   * consuming the draws up to and including it; if none of the 20 is, the
   * item goes to the top of the band after consuming all 20 draws.
   */
  function PlaceFrom(b: Band, h: int, others: seq<Span>, draw: nat -> real, start: nat, k: nat): (p: Placement)
    requires b.lo <= b.hi && Draws(draw) && k <= Attempts
    ensures b.lo <= p.y <= b.hi
    ensures 1 <= p.used <= Attempts
    ensures || (p == Placement(b.lo, Attempts))
            || (k < p.used && p.y == AttemptY(b, draw, start, p.used - 1) && ItemYValid(p.y, h, others, MinSeparation))
    decreases Attempts - k
  {
    if k == Attempts then Placement(b.lo, Attempts)
    else
      var c := AttemptY(b, draw, start, k);
      if ItemYValid(c, h, others, MinSeparation) then Placement(c, k + 1)
      else PlaceFrom(b, h, others, draw, start, k + 1)
  }

  /** The whole search, from the first attempt. */
  function Place(b: Band, h: int, others: seq<Span>, draw: nat -> real, start: nat): Placement
    requires b.lo <= b.hi && Draws(draw)
  {
    PlaceFrom(b, h, others, draw, start, 0)
  }

  /** When every draw is too close to another item, the item is put at the top of the band. */
  lemma {:induction false} PlaceFallsBackToTop(b: Band, h: int, others: seq<Span>, draw: nat -> real, start: nat, k: nat)
    requires b.lo <= b.hi && Draws(draw) && k <= Attempts
    requires forall i: nat :: k <= i < Attempts ==> !ItemYValid(AttemptY(b, draw, start, i), h, others, MinSeparation)
    ensures PlaceFrom(b, h, others, draw, start, k) == Placement(b.lo, Attempts)
    decreases Attempts - k
  {
    if k < Attempts {
      PlaceFallsBackToTop(b, h, others, draw, start, k + 1);
    }
  }

  /** The draws before the chosen one were all rejected. */
  lemma {:induction false} PlaceTakesFirstFit(b: Band, h: int, others: seq<Span>, draw: nat -> real, start: nat, k: nat)
    requires b.lo <= b.hi && Draws(draw) && k <= Attempts
    ensures var p := PlaceFrom(b, h, others, draw, start, k);
      forall i: nat :: k <= i < p.used - 1 ==> !ItemYValid(AttemptY(b, draw, start, i), h, others, MinSeparation)
    decreases Attempts - k
  {
    if k < Attempts && !ItemYValid(AttemptY(b, draw, start, k), h, others, MinSeparation) {
      PlaceTakesFirstFit(b, h, others, draw, start, k + 1);
    }
  }

  /** With no other item active the first draw is always taken. */
  lemma PlaceAlone(b: Band, h: int, draw: nat -> real, start: nat)
    requires b.lo <= b.hi && Draws(draw)
    ensures Place(b, h, [], draw, start) == Placement(Candidate(b, draw(start)), 1)
  {
  }

  /**
   * The 20-try loop of the spawn routines, attempt `i` using draw `start + i`
   * of the stream: keep the first candidate that `IsItemYValid` accepts;
   * when none is accepted keep the top of the band.  Also reports how many
   * draws were used.
   */
  method FindSeparatedY(b: Band, h: int, others: seq<Span>, draw: nat -> real, start: nat) returns (y: int, used: nat)
    requires b.lo <= b.hi && Draws(draw)
    ensures Placement(y, used) == Place(b, h, others, draw, start)
  {
    y, used := b.lo, Attempts;
    var attempt := 0;
    while attempt < Attempts
      invariant 0 <= attempt <= Attempts
      invariant Place(b, h, others, draw, start) == PlaceFrom(b, h, others, draw, start, attempt)
    {
      var candidate := Candidate(b, draw(start + attempt));
      var valid := IsItemYValid(candidate, h, others, MinSeparation);
      if valid {
        y, used := candidate, attempt + 1;
        break;
      }
      attempt := attempt + 1;
    }
  }
}
