/** Turning images upright, and the size they are scaled to. */
module Orient {
  import opened Provider

  /** The four bytes of one pixel. */
  datatype Pixel = Pixel(r: bv8, g: bv8, b: bv8, a: bv8)

  /** Rows of pixels, from the top. */
  type Grid = seq<seq<Pixel>>

  predicate Transposes(o: int) {
    5 <= o <= 8
  }

  function Width(o: int, w: nat, h: nat): nat {
    if Transposes(o) then h else w
  }

  function Height(o: int, w: nat, h: nat): nat {
    if Transposes(o) then w else h
  }

  datatype Point = Point(x: int, y: int)

  predicate Inside(p: Point, w: nat, h: nat) {
    0 <= p.x < w && 0 <= p.y < h
  }

  /** Where an image of `w` by `h` pixels has the pixel at `p` once upright. */
  function Place(o: int, w: nat, h: nat, p: Point): Point {
    match o
    case 2 => Point(w - 1 - p.x, p.y)
    case 3 => Point(w - 1 - p.x, h - 1 - p.y)
    case 4 => Point(p.x, h - 1 - p.y)
    case 5 => Point(p.y, p.x)
    case 6 => Point(h - 1 - p.y, p.x)
    case 7 => Point(h - 1 - p.y, w - 1 - p.x)
    case 8 => Point(p.y, w - 1 - p.x)
    case _ => p
  }

  datatype Side = Top | Right | Bottom | Left

  /** How far a pixel is from a side of an image of that size. */
  function Distance(side: Side, w: nat, h: nat, p: Point): int {
    match side
    case Top => p.y
    case Right => w - 1 - p.x
    case Bottom => h - 1 - p.y
    case Left => p.x
  }

  /** Where the rows and the columns of the stored image begin once it is upright,
      as the Exif standard's table of orientations has it. */
  function RowsFrom(o: int): Side {
    if o == 3 || o == 4 then Bottom else if o == 5 || o == 8 then Left else if o == 6 || o == 7 then Right else Top
  }

  function ColumnsFrom(o: int): Side {
    if o == 2 || o == 3 then Right else if o == 5 || o == 6 then Top else if o == 7 || o == 8 then Bottom else Left
  }

  /** Row and column are the distances from those sides. */
  lemma PlaceIsExif(o: int, w: nat, h: nat, p: Point)
    ensures var up := Place(o, w, h, p);
      && Distance(RowsFrom(o), Width(o, w, h), Height(o, w, h), up) == p.y
      && Distance(ColumnsFrom(o), Width(o, w, h), Height(o, w, h), up) == p.x
  {
  }

  /** The orientation that turns an image back. */
  function Undo(o: int): int {
    if o == 6 then 8 else if o == 8 then 6 else o
  }

  lemma PlaceInside(o: int, w: nat, h: nat, p: Point)
    ensures Inside(p, w, h) <==> Inside(Place(o, w, h, p), Width(o, w, h), Height(o, w, h))
  {
  }

  /** Placing is undone by the inverse orientation, on the turned image's size. */
  lemma PlaceUndone(o: int, w: nat, h: nat, p: Point)
    ensures Place(Undo(o), Width(o, w, h), Height(o, w, h), Place(o, w, h, p)) == p
    ensures Width(Undo(o), Width(o, w, h), Height(o, w, h)) == w && Height(Undo(o), Width(o, w, h), Height(o, w, h)) == h
    ensures Undo(Undo(o)) == o
  {
  }

  ghost predicate Sized(g: Grid, w: nat, h: nat) {
    |g| == h && forall y :: 0 <= y < h ==> |g[y]| == w
  }

  ghost function PixelAt(g: Grid, w: nat, h: nat, p: Point): Pixel
    requires Sized(g, w, h) && Inside(p, w, h)
  {
    g[p.y][p.x]
  }

  /** `up` is `g` turned: each pixel of `g` is where it belongs. */
  ghost predicate Turned(g: Grid, w: nat, h: nat, o: int, up: Grid) {
    && Sized(g, w, h) && Sized(up, Width(o, w, h), Height(o, w, h))
    && forall p: Point :: Inside(p, w, h) ==>
         Inside(Place(o, w, h, p), Width(o, w, h), Height(o, w, h))
         && PixelAt(up, Width(o, w, h), Height(o, w, h), Place(o, w, h, p)) == PixelAt(g, w, h, p)
  }

  ghost function Contents(a: array2<Pixel>): (g: Grid)
    reads a
    ensures Sized(g, a.Length1, a.Length0)
    ensures forall x, y :: 0 <= x < a.Length1 && 0 <= y < a.Length0 ==> g[y][x] == a[y, x]
  {
    seq(a.Length0, y requires 0 <= y < a.Length0 reads a =>
      seq(a.Length1, x requires 0 <= x < a.Length1 reads a => a[y, x]))
  }

  /** `p` comes before the pixel the loops have reached. */
  predicate Visited(p: Point, x: int, y: int) {
    p.y < y || (p.y == y && p.x < x)
  }

  /** The pixel that goes to `q`. */
  function From(o: int, w: nat, h: nat, q: Point): Point {
    Place(Undo(o), Width(o, w, h), Height(o, w, h), q)
  }

  lemma FromInside(o: int, w: nat, h: nat, q: Point)
    ensures Inside(From(o, w, h, q), w, h) <==> Inside(q, Width(o, w, h), Height(o, w, h))
  {
  }

  /** One pixel goes to each place. */
  lemma FromIs(o: int, w: nat, h: nat, p: Point)
    ensures Inside(p, w, h) <==> Inside(Place(o, w, h, p), Width(o, w, h), Height(o, w, h))
    ensures forall q: Point :: From(o, w, h, q) == p <==> q == Place(o, w, h, p)
  {
  }

  /** What the loops have copied on reaching (`x`, `y`). */
  ghost predicate Copied(g: Grid, w: nat, h: nat, o: int, up: Grid, x: int, y: int)
    requires Sized(g, w, h) && Sized(up, Width(o, w, h), Height(o, w, h))
  {
    forall p: Point :: Inside(p, w, h) && Visited(p, x, y) ==>
      var q := Place(o, w, h, p);
      Inside(q, Width(o, w, h), Height(o, w, h)) && up[q.y][q.x] == g[p.y][p.x]
  }

  /** Each place reached so far was written once, and no other. */
  ghost predicate WrittenOnce(o: int, w: nat, h: nat, written: multiset<Point>, x: int, y: int) {
    forall q: Point :: written[q] ==
      if Inside(q, Width(o, w, h), Height(o, w, h)) && Visited(From(o, w, h, q), x, y) then 1 else 0
  }

  lemma NoneWritten(o: int, w: nat, h: nat)
    ensures WrittenOnce(o, w, h, multiset{}, 0, 0)
  {
    forall q: Point ensures Inside(q, Width(o, w, h), Height(o, w, h)) ==> Inside(From(o, w, h, q), w, h) {
      FromInside(o, w, h, q);
    }
    hide Place, Width, Height, From;
  }

  function With(up: Grid, q: Point, pixel: Pixel): Grid
    requires 0 <= q.y < |up| && 0 <= q.x < |up[q.y]|
  {
    up[q.y := up[q.y][q.x := pixel]]
  }

  lemma OneCopied(g: Grid, w: nat, h: nat, o: int, up: Grid, x: int, y: int)
    requires Sized(g, w, h) && Sized(up, Width(o, w, h), Height(o, w, h))
    requires Copied(g, w, h, o, up, x, y) && Inside(Point(x, y), w, h)
    ensures Inside(Place(o, w, h, Point(x, y)), Width(o, w, h), Height(o, w, h))
    ensures Copied(g, w, h, o, With(up, Place(o, w, h, Point(x, y)), g[y][x]), x + 1, y)
  {
    var at := Place(o, w, h, Point(x, y));
    FromIs(o, w, h, Point(x, y));
    var up' := With(up, at, g[y][x]);
    forall p: Point | Inside(p, w, h) && Visited(p, x + 1, y)
      ensures Inside(Place(o, w, h, p), Width(o, w, h), Height(o, w, h))
        && up'[Place(o, w, h, p).y][Place(o, w, h, p).x] == g[p.y][p.x]
    {
      FromIs(o, w, h, p);
      hide Place, From, Width, Height;
      if p != Point(x, y) {
        assert Visited(p, x, y) && Place(o, w, h, p) != at;
      }
    }
    hide Place, From, Width, Height;
  }

  lemma OneWritten(o: int, w: nat, h: nat, written: multiset<Point>, x: int, y: int)
    requires WrittenOnce(o, w, h, written, x, y) && Inside(Point(x, y), w, h)
    ensures WrittenOnce(o, w, h, written + multiset{Place(o, w, h, Point(x, y))}, x + 1, y)
  {
    FromIs(o, w, h, Point(x, y));
    hide Place, From, Width, Height;
  }

  lemma RowCopied(g: Grid, w: nat, h: nat, o: int, up: Grid, y: int)
    requires Sized(g, w, h) && Sized(up, Width(o, w, h), Height(o, w, h)) && Copied(g, w, h, o, up, w, y)
    ensures Copied(g, w, h, o, up, 0, y + 1)
  {
    hide Place, Width, Height;
  }

  lemma RowWritten(o: int, w: nat, h: nat, written: multiset<Point>, y: int)
    requires WrittenOnce(o, w, h, written, w, y)
    ensures WrittenOnce(o, w, h, written, 0, y + 1)
  {
    forall q: Point ensures Inside(q, Width(o, w, h), Height(o, w, h)) ==> Inside(From(o, w, h, q), w, h) {
      FromInside(o, w, h, q);
    }
    hide Place, From, Width, Height;
  }

  lemma AllWritten(o: int, w: nat, h: nat, written: multiset<Point>)
    requires WrittenOnce(o, w, h, written, 0, h)
    ensures forall q: Point :: written[q] == if Inside(q, Width(o, w, h), Height(o, w, h)) then 1 else 0
  {
    forall q: Point | Inside(q, Width(o, w, h), Height(o, w, h)) ensures Visited(From(o, w, h, q), 0, h) {
      FromInside(o, w, h, q);
    }
    hide Place, From, Width, Height;
  }

  /** Copies one pixel to its place. */
  method Put(dst: array2<Pixel>, at: Point, pixel: Pixel)
    requires Inside(at, dst.Length1, dst.Length0)
    modifies dst
    ensures Contents(dst) == With(old(Contents(dst)), at, pixel)
  {
    ghost var up := With(Contents(dst), at, pixel);
    dst[at.y, at.x] := pixel;
    forall i | 0 <= i < dst.Length0 ensures Contents(dst)[i] == up[i] {
      forall j | 0 <= j < dst.Length1 ensures Contents(dst)[i][j] == up[i][j] {
      }
    }
  }

  /** `written` records where pixels were put. */
  method Turn(src: array2<Pixel>, o: int) returns (dst: array2<Pixel>, ghost written: multiset<Point>)
    ensures fresh(dst) && Contents(src) == old(Contents(src))
    ensures Turned(Contents(src), src.Length1, src.Length0, o, Contents(dst))
    ensures forall q: Point :: written[q] == if Inside(q, dst.Length1, dst.Length0) then 1 else 0
  {
    var w, h := src.Length1, src.Length0;
    dst := new Pixel[Height(o, w, h), Width(o, w, h)];
    written := multiset{};
    ghost var g := Contents(src);
    NoneWritten(o, w, h);
    for y := 0 to h
      invariant Contents(src) == g && Copied(g, w, h, o, Contents(dst), 0, y) && WrittenOnce(o, w, h, written, 0, y)
    {
      for x := 0 to w
        invariant Contents(src) == g && Copied(g, w, h, o, Contents(dst), x, y) && WrittenOnce(o, w, h, written, x, y)
      {
        var at := Place(o, w, h, Point(x, y));
        OneCopied(g, w, h, o, Contents(dst), x, y);
        OneWritten(o, w, h, written, x, y);
        Put(dst, at, src[y, x]);
        written := written + multiset{at};
      }
      RowCopied(g, w, h, o, Contents(dst), y);
      RowWritten(o, w, h, written, y);
    }
    AllWritten(o, w, h, written);
  }

  /** Turning one way and back is no change: 2, 3, 4, 5 and 7 are their own
      inverses, 6 and 8 each other's. */
  lemma TurnUndone(g: Grid, w: nat, h: nat, o: int, up: Grid, back: Grid)
    requires Turned(g, w, h, o, up) && Turned(up, Width(o, w, h), Height(o, w, h), Undo(o), back)
    ensures back == g
  {
    var dw, dh := Width(o, w, h), Height(o, w, h);
    PlaceUndone(o, w, h, Point(0, 0));
    forall y, x | 0 <= y < h && 0 <= x < w ensures back[y][x] == g[y][x] {
      var p := Point(x, y);
      PlaceUndone(o, w, h, p);
      assert PixelAt(up, dw, dh, Place(o, w, h, p)) == PixelAt(g, w, h, p);
      assert PixelAt(back, w, h, Place(Undo(o), dw, dh, Place(o, w, h, p))) == PixelAt(up, dw, dh, Place(o, w, h, p));
    }
    assert forall y :: 0 <= y < h ==> back[y] == g[y];
  }

  /** There is one way to turn an image. */
  lemma TurnUnique(g: Grid, w: nat, h: nat, o: int, one: Grid, other: Grid)
    requires Turned(g, w, h, o, one) && Turned(g, w, h, o, other)
    ensures one == other
  {
    var dw, dh := Width(o, w, h), Height(o, w, h);
    forall y, x | 0 <= y < dh && 0 <= x < dw ensures one[y][x] == other[y][x] {
      var q := Point(x, y);
      var p := Place(Undo(o), dw, dh, q);
      PlaceUndone(Undo(o), dw, dh, q);
      PlaceUndone(o, w, h, p);
      PlaceInside(o, w, h, p);
      assert PixelAt(one, dw, dh, q) == PixelAt(g, w, h, p) == PixelAt(other, dw, dh, q);
    }
    assert forall y :: 0 <= y < dh ==> one[y] == other[y];
  }

  /** Every turn is made of the two mirrors and the transposition. */
  lemma TurnsAreMirrors(w: nat, h: nat, p: Point)
    ensures Place(3, w, h, p) == Place(4, w, h, Place(2, w, h, p))
    ensures Place(6, w, h, p) == Place(2, h, w, Place(5, w, h, p))
    ensures Place(8, w, h, p) == Place(4, h, w, Place(5, w, h, p))
    ensures Place(7, w, h, p) == Place(3, h, w, Place(5, w, h, p))
  {
  }

  // ----- The size an image is scaled to -----

  const MAX_LONG_SIDE: int := 1920
  const MAX_SHORT_SIDE: int := 1080

  datatype Size = Size(w: int, h: int)

  /** The box for an image: its longer side may be the longer one. */
  function Box(s: Size): Size {
    if s.h > s.w then Size(MAX_SHORT_SIDE, MAX_LONG_SIDE) else Size(MAX_LONG_SIDE, MAX_SHORT_SIDE)
  }

  function Ratio(a: int, b: int): (r: real)
    requires a > 0 && b > 0
    ensures r > 0.0 && r * b as real == a as real
  {
    a as real / b as real
  }

  function Scale(s: Size): real
    requires s.w > 0 && s.h > 0
  {
    var across, down := Ratio(Box(s).w, s.w), Ratio(Box(s).h, s.h);
    var less := if across < down then across else down;
    if less < 1.0 then less else 1.0
  }

  function Scaled(side: int, scale: real): int {
    Max(1, (side as real * scale + 0.5).Floor)
  }

  function Fit(s: Size): Size
    requires s.w > 0 && s.h > 0
  {
    if Scale(s) >= 1.0 then s else Size(Scaled(s.w, Scale(s)), Scaled(s.h, Scale(s)))
  }

  predicate Fits(s: Size, box: Size) {
    0 < s.w <= box.w && 0 < s.h <= box.h
  }

  lemma Product(side: int, small: real, large: real)
    requires side > 0 && small <= large
    ensures side as real * small <= side as real * large
    ensures small < large ==> side as real * small < side as real * large
  {
    Positive(side as real, large - small);
  }

  lemma Positive(x: real, y: real)
    requires x > 0.0 && y >= 0.0
    ensures x * y >= 0.0 && (y > 0.0 ==> x * y > 0.0)
  {
  }

  /** A side shrinks, to no less than one pixel, and no further than its own bound asks. */
  lemma ScaledSide(side: int, bound: int, scale: real)
    requires side > 0 && bound > 0 && 0.0 < scale <= 1.0 && scale <= Ratio(bound, side)
    ensures 1 <= Scaled(side, scale) <= side && Scaled(side, scale) <= bound
    ensures scale == Ratio(bound, side) ==> Scaled(side, scale) == bound
  {
    AtMost(side as real, scale, 1.0, side as real);
    AtMost(side as real, scale, Ratio(bound, side), bound as real);
    RoundedSide(side as real * scale, side, bound);
    hide Ratio;
  }

  lemma RoundedSide(x: real, side: int, bound: int)
    requires side > 0 && bound > 0 && x <= side as real && x <= bound as real
    ensures 1 <= Max(1, (x + 0.5).Floor) <= side && Max(1, (x + 0.5).Floor) <= bound
    ensures x == bound as real ==> Max(1, (x + 0.5).Floor) == bound
  {
    Rounded(x, side);
    Rounded(x, bound);
  }

  lemma AtMost(side: real, scale: real, ratio: real, bound: real)
    requires side > 0.0 && scale <= ratio && ratio * side == bound
    ensures side * scale <= bound && (scale == ratio ==> side * scale == bound)
  {
    Positive(side, ratio - scale);
    assert side * (ratio - scale) == ratio * side - side * scale;
  }

  lemma Rounded(x: real, n: int)
    ensures x <= n as real ==> (x + 0.5).Floor <= n
    ensures x == n as real ==> (x + 0.5).Floor == n
  {
  }

  lemma ScaledOrder(a: int, b: int, scale: real)
    requires 0 < a <= b && 0.0 < scale
    ensures Scaled(a, scale) <= Scaled(b, scale)
  {
    Positive(scale, (b - a) as real);
    assert b as real * scale - a as real * scale == scale * (b - a) as real;
  }

  lemma FullScale(s: Size)
    requires s.w > 0 && s.h > 0
    ensures Scale(s) >= 1.0 <==> Fits(s, Box(s))
    ensures Scale(s) < 1.0 ==> Scale(s) == Ratio(Box(s).w, s.w) || Scale(s) == Ratio(Box(s).h, s.h)
    ensures 0.0 < Scale(s) <= Ratio(Box(s).w, s.w) && Scale(s) <= Ratio(Box(s).h, s.h)
  {
    RatioAtLeastOne(Box(s).w, s.w);
    RatioAtLeastOne(Box(s).h, s.h);
  }

  lemma RatioAtLeastOne(a: int, b: int)
    requires a > 0 && b > 0
    ensures Ratio(a, b) >= 1.0 <==> a >= b
  {
    var r := Ratio(a, b);
    if r >= 1.0 { Product(b, 1.0, r); } else { Product(b, r, 1.0); }
    assert r * b as real == b as real * r == a as real;
  }

  /** The fitted size is in the box, never larger than the image nor empty; an
      image in the box keeps its size, and any other touches a side of it. */
  lemma FitInBox(s: Size)
    requires s.w > 0 && s.h > 0
    ensures Box(s) == if s.w >= s.h then Size(1920, 1080) else Size(1080, 1920)
    ensures Fits(Fit(s), Box(s)) && Fit(s).w <= s.w && Fit(s).h <= s.h
    ensures if Fits(s, Box(s)) then Fit(s) == s else Fit(s).w == Box(s).w || Fit(s).h == Box(s).h
  {
    FullScale(s);
    if Scale(s) < 1.0 {
      ScaledSide(s.w, Box(s).w, Scale(s));
      ScaledSide(s.h, Box(s).h, Scale(s));
    }
  }

  /** Each side is scaled alike, to within half a pixel. */
  lemma FitKeepsAspect(s: Size)
    requires s.w > 0 && s.h > 0 && Scale(s) < 1.0
    ensures Fit(s).w == 1 || -0.5 <= Fit(s).w as real - s.w as real * Scale(s) <= 0.5
    ensures Fit(s).h == 1 || -0.5 <= Fit(s).h as real - s.h as real * Scale(s) <= 0.5
  {
  }

  lemma FitIdempotent(s: Size)
    requires s.w > 0 && s.h > 0
    ensures Fit(s).w > 0 && Fit(s).h > 0 && Fit(Fit(s)) == Fit(s)
  {
    FitInBox(s);
    FullScale(s);
    if Scale(s) < 1.0 {
      if s.h > s.w { ScaledOrder(s.w, s.h, Scale(s)); } else { ScaledOrder(s.h, s.w, Scale(s)); }
    }
    FullScale(Fit(s));
  }
}
