/**
 * The segment partition of the CSS pie chart (htdocs/chart.js,
 * `AJFChart.create`): every item becomes a segment of one of two half-discs,
 * rotated by how far round the circle the items before it reach. Drawing the
 * segments (`makeHalf`, the CSS transform strings) is not modelled.
 */
module Chart {
  /** The six segment colours, used in turn. */
  const Colors: seq<string> := ["rgb(253, 90, 181)", "rgb(249, 222, 231)", "rgb(252, 118, 171)",
                               "rgb(211, 44, 136)", "rgb(149, 216, 245)", "rgb(255, 250, 184)"]

  datatype Item = Item(size: nat, caption: string)

  /** A rotation in degrees; `NotANumber` is JavaScript's `0 / 0`. */
  datatype Angle = Deg(degrees: real) | NotANumber

  datatype Segment = Segment(rot: Angle, color: string, caption: string)

  /** How far round the circle the items before item `i` reach: the sum of their sizes. */
  function Running(items: seq<Item>, i: nat): nat
    requires i <= |items|
  {
    if i == 0 then 0 else Running(items, i - 1) + items[i - 1].size
  }

  /** The sum of all the sizes. */
  function Total(items: seq<Item>): nat {
    Running(items, |items|)
  }

  function Half(items: seq<Item>): real {
    Total(items) as real / 2.0
  }

  /** `x / halftotal * 180`, or NaN when the half total is 0 (then `x` is 0 too). */
  function Turn(x: real, half: real): (r: Angle)
    ensures r.NotANumber? <==> half == 0.0
  {
    if half == 0.0 then NotANumber else Deg(x / half * 180.0)
  }

  /** Item `i` is coloured `colors[i % colors.length]`. */
  function ColorOf(i: nat): string
  {
    Colors[i % |Colors|]
  }

  /**
   * The item starts before the midpoint, so it is drawn in the first half.
   * `runningTotal < total / 2` over the reals, stated here without the division.
   */
  predicate InFirstHalf(items: seq<Item>, i: nat)
    requires i < |items|
  {
    2 * Running(items, i) < Total(items)
  }

  /** The item starts in the first half and ends past the midpoint. */
  predicate Crosses(items: seq<Item>, i: nat)
    requires i < |items|
  {
    InFirstHalf(items, i) && 2 * (Running(items, i) + items[i].size) > Total(items)
  }

  function FirstSegment(items: seq<Item>, i: nat): Segment
    requires i < |items|
  {
    Segment(Turn(Running(items, i) as real, Half(items)), ColorOf(i), items[i].caption)
  }

  function SecondSegment(items: seq<Item>, i: nat): Segment
    requires i < |items|
  {
    Segment(Turn(Running(items, i) as real - Half(items), Half(items)), ColorOf(i), items[i].caption)
  }

  /** The unlabelled second-half segment that continues a crossing item. */
  function Dummy(i: nat): Segment {
    Segment(Deg(0.0), ColorOf(i), "")
  }

  /** What the loop pushes onto `list1` for item `i`. */
  function FirstPart(items: seq<Item>, i: nat): seq<Segment>
    requires i < |items|
  {
    if InFirstHalf(items, i) then [FirstSegment(items, i)] else []
  }

  /** What the loop pushes onto `list2` for item `i`: the dummy of a crossing item, or its own segment. */
  function SecondPart(items: seq<Item>, i: nat): seq<Segment>
    requires i < |items|
  {
    if InFirstHalf(items, i) then (if Crosses(items, i) then [Dummy(i)] else [])
    else [SecondSegment(items, i)]
  }

  /** `list1` after the first `n` items. */
  function List1(items: seq<Item>, n: nat): seq<Segment>
    requires n <= |items|
  {
    if n == 0 then [] else List1(items, n - 1) + FirstPart(items, n - 1)
  }

  /** `list2` after the first `n` items. */
  function List2(items: seq<Item>, n: nat): seq<Segment>
    requires n <= |items|
  {
    if n == 0 then [] else List2(items, n - 1) + SecondPart(items, n - 1)
  }

  /** The first loop of `AJFChart.create`: total up the segment sizes. */
  method SumSizes(items: seq<Item>) returns (total: nat)
    ensures total == Total(items)
  {
    total := 0;
    var i := 0;
    while i < |items|
      invariant 0 <= i <= |items|
      invariant total == Running(items, i)
    {
      total := total + items[i].size;
      i := i + 1;
    }
  }

  /**
   * One pass of the second loop: push item `i`'s segment onto the half it
   * starts in, and a dummy onto half 2 when it spans the midpoint.
   */
  method PlaceItem(items: seq<Item>, i: nat, runningTotal: nat, total: nat, halftotal: real,
                   list1: seq<Segment>, list2: seq<Segment>)
    returns (list1': seq<Segment>, list2': seq<Segment>)
    requires i < |items|
    requires runningTotal == Running(items, i) && total == Total(items) && halftotal == Half(items)
    ensures list1' == list1 + FirstPart(items, i)
    ensures list2' == list2 + SecondPart(items, i)
  {
    var color := Colors[i % |Colors|];
    var caption := items[i].caption;
    list1', list2' := list1, list2;
    if (runningTotal as real) < total as real / 2.0 {
      list1' := list1' + [Segment(Turn(runningTotal as real, halftotal), color, caption)];
      if (runningTotal + items[i].size) as real > total as real / 2.0 {
        list2' := list2' + [Segment(Deg(0.0), color, "")];
      }
    } else {
      list2' := list2' + [Segment(Turn(runningTotal as real - halftotal, halftotal), color, caption)];
    }
  }

  /**
   * `AJFChart.create` without the DOM: sum the sizes, then give each item its
   * half, colour and rotation. No items means no segments.
   */
  method Create(items: seq<Item>) returns (list1: seq<Segment>, list2: seq<Segment>)
    ensures list1 == List1(items, |items|) && list2 == List2(items, |items|)
    ensures |items| == 0 ==> list1 == [] && list2 == []
  {
    list1, list2 := [], [];
    if |items| > 0 {
      var total := SumSizes(items);
      var halftotal := total as real / 2.0;
      var runningTotal: nat := 0;
      var i := 0;
      while i < |items|
        invariant 0 <= i <= |items|
        invariant runningTotal == Running(items, i)
        invariant list1 == List1(items, i) && list2 == List2(items, i)
      {
        list1, list2 := PlaceItem(items, i, runningTotal, total, halftotal, list1, list2);
        runningTotal := runningTotal + items[i].size;
        i := i + 1;
      }
    }
  }

  /** Going further round the circle never goes back. */
  lemma {:induction false} RunningMonotone(items: seq<Item>, i: nat, j: nat)
    requires i <= j <= |items|
    ensures Running(items, i) <= Running(items, j)
    decreases j - i
  {
    if i < j {
      RunningMonotone(items, i, j - 1);
    }
  }

  /** The number of leading items that start before the midpoint. */
  function CutFrom(items: seq<Item>, i: nat): (k: nat)
    requires i <= |items|
    ensures i <= k <= |items|
    decreases |items| - i
  {
    if i == |items| || !InFirstHalf(items, i) then i else CutFrom(items, i + 1)
  }

  /** The items from `i` up to the cut start in the first half, and the item at the cut does not. */
  lemma {:induction false} CutFromSpec(items: seq<Item>, i: nat)
    requires i <= |items|
    ensures forall j :: i <= j < CutFrom(items, i) ==> InFirstHalf(items, j)
    ensures CutFrom(items, i) < |items| ==> !InFirstHalf(items, CutFrom(items, i))
    decreases |items| - i
  {
    if i < |items| && InFirstHalf(items, i) {
      CutFromSpec(items, i + 1);
    }
  }

  function Cut(items: seq<Item>): nat
    ensures Cut(items) <= |items|
  {
    CutFrom(items, 0)
  }

  /** The first-half items are a prefix: every item from the cut on is in the second half. */
  lemma {:induction false} FirstHalfIsPrefix(items: seq<Item>, i: nat)
    requires i < |items|
    ensures InFirstHalf(items, i) <==> i < Cut(items)
  {
    var k := Cut(items);
    CutFromSpec(items, 0);
    if k <= i {
      RunningMonotone(items, k, i);
    }
  }

  /** Only the last first-half item can cross the midpoint. */
  lemma {:induction false} OnlyLastCrosses(items: seq<Item>, i: nat)
    requires i < |items| && Crosses(items, i)
    ensures i + 1 == Cut(items)
  {
    FirstHalfIsPrefix(items, i);
    if i + 1 < |items| {
      FirstHalfIsPrefix(items, i + 1);
    }
  }

  /** What the last first-half item, if any, adds to `list2`. */
  function DummyFor(items: seq<Item>): (r: seq<Segment>)
    ensures |r| <= 1
  {
    var k := Cut(items);
    if k == 0 then [] else SecondPart(items, k - 1)
  }

  /** The first-half segments of items `0 .. n - 1`, in order. */
  function Firsts(items: seq<Item>, n: nat): (r: seq<Segment>)
    requires n <= |items|
    ensures |r| == n
  {
    if n == 0 then [] else Firsts(items, n - 1) + [FirstSegment(items, n - 1)]
  }

  /** The second-half segments of items `from .. n - 1`, in order. */
  function Seconds(items: seq<Item>, from: nat, n: nat): (r: seq<Segment>)
    requires from <= n <= |items|
    ensures |r| == n - from
    decreases n
  {
    if n == from then [] else Seconds(items, from, n - 1) + [SecondSegment(items, n - 1)]
  }

  /** Position `i` of the first half is item `i`'s first-half segment. */
  lemma {:induction false} FirstsAt(items: seq<Item>, n: nat, i: nat)
    requires i < n <= |items|
    ensures Firsts(items, n)[i] == FirstSegment(items, i)
  {
    if i < n - 1 {
      FirstsAt(items, n - 1, i);
    }
  }

  /** Position `j` of the second-half run from `from` is item `from + j`'s second-half segment. */
  lemma {:induction false} SecondsAt(items: seq<Item>, from: nat, n: nat, j: nat)
    requires from <= n <= |items| && j < n - from
    ensures Seconds(items, from, n)[j] == SecondSegment(items, from + j)
    decreases n
  {
    if j < n - 1 - from {
      SecondsAt(items, from, n - 1, j);
    }
  }

  /** Items before the cut add their first-half segment to `list1`; the others add nothing. */
  lemma FirstPartAt(items: seq<Item>, i: nat)
    requires i < |items|
    ensures i < Cut(items) ==> FirstPart(items, i) == [FirstSegment(items, i)]
    ensures Cut(items) <= i ==> FirstPart(items, i) == []
  {
    FirstHalfIsPrefix(items, i);
  }

  /** Up to the cut, `list1` grows by the item's first-half segment. */
  lemma FirstStepBefore(items: seq<Item>, n: nat)
    requires 0 < n <= Cut(items)
    requires List1(items, n - 1) == Firsts(items, n - 1)
    ensures List1(items, n) == Firsts(items, n)
  {
    FirstPartAt(items, n - 1);
  }

  /** Past the cut, `list1` does not grow. */
  lemma FirstStepAfter(items: seq<Item>, n: nat)
    requires Cut(items) < n <= |items|
    ensures List1(items, n) == List1(items, n - 1)
  {
    FirstPartAt(items, n - 1);
    assert List1(items, n - 1) + [] == List1(items, n - 1);
  }

  /** `list1` after `n` items: the first-half segments of those before the cut. */
  lemma {:induction false} FirstListUpTo(items: seq<Item>, n: nat)
    requires n <= |items|
    ensures n <= Cut(items) ==> List1(items, n) == Firsts(items, n)
    ensures Cut(items) <= n ==> List1(items, n) == Firsts(items, Cut(items))
  {
    if n > 0 {
      FirstListUpTo(items, n - 1);
      if n <= Cut(items) {
        FirstStepBefore(items, n);
      } else {
        FirstStepAfter(items, n);
      }
    }
  }

  /** Before the last first-half item, an item adds nothing to `list2`. */
  lemma SecondBeforeCut(items: seq<Item>, i: nat)
    requires i + 1 < Cut(items)
    ensures SecondPart(items, i) == []
  {
    FirstHalfIsPrefix(items, i);
    if Crosses(items, i) {
      OnlyLastCrosses(items, i);
    }
  }

  /** That is the dummy segment exactly when the last first-half item crosses the midpoint. */
  lemma DummyForCrossing(items: seq<Item>)
    ensures DummyFor(items) == (if 0 < Cut(items) && Crosses(items, Cut(items) - 1) then [Dummy(Cut(items) - 1)] else [])
  {
    if 0 < Cut(items) {
      FirstHalfIsPrefix(items, Cut(items) - 1);
    }
  }

  /** From the cut on, an item adds its own second-half segment to `list2`. */
  lemma SecondAfterCut(items: seq<Item>, i: nat)
    requires Cut(items) <= i < |items|
    ensures SecondPart(items, i) == [SecondSegment(items, i)]
  {
    FirstHalfIsPrefix(items, i);
  }

  /** Past the cut, `list2` grows by the item's own second-half segment. */
  lemma SecondStepAfter(items: seq<Item>, n: nat)
    requires Cut(items) < n <= |items|
    requires List2(items, n - 1) == DummyFor(items) + Seconds(items, Cut(items), n - 1)
    ensures List2(items, n) == DummyFor(items) + Seconds(items, Cut(items), n)
  {
    SecondAfterCut(items, n - 1);
    var d, s0, x := DummyFor(items), Seconds(items, Cut(items), n - 1), SecondSegment(items, n - 1);
    assert (d + s0) + [x] == d + (s0 + [x]);
  }

  /** Before the cut, `list2` stays empty. */
  lemma SecondStepBefore(items: seq<Item>, n: nat)
    requires 0 < n < Cut(items)
    requires List2(items, n - 1) == []
    ensures List2(items, n) == []
  {
    SecondBeforeCut(items, n - 1);
    var a, b := List2(items, n - 1), SecondPart(items, n - 1);
    assert List2(items, n) == a + b;
    assert a + b == [];
  }

  /** At the cut, `list2` is just the dummy, if any. */
  lemma SecondStepAt(items: seq<Item>, n: nat)
    requires 0 < n == Cut(items)
    requires List2(items, n - 1) == []
    ensures List2(items, n) == DummyFor(items) + Seconds(items, Cut(items), n)
  {
    var a, b := List2(items, n - 1), SecondPart(items, n - 1);
    assert List2(items, n) == a + b;
    assert Seconds(items, n, n) == [];
    assert a + b == b + [];
  }

  /** With no item in the first half, there is no dummy. */
  lemma SecondStart(items: seq<Item>)
    requires Cut(items) == 0
    ensures List2(items, 0) == DummyFor(items) + Seconds(items, Cut(items), 0)
  {
    assert DummyFor(items) + [] == [];
  }

  /** `list2` after `n` items: empty before the cut, then the dummy and the second-half segments. */
  lemma {:induction false} SecondListUpTo(items: seq<Item>, n: nat)
    requires n <= |items|
    ensures n < Cut(items) ==> List2(items, n) == []
    ensures Cut(items) <= n ==> List2(items, n) == DummyFor(items) + Seconds(items, Cut(items), n)
  {
    var k := Cut(items);
    if n == 0 {
      if k == 0 {
        SecondStart(items);
      }
    } else {
      SecondListUpTo(items, n - 1);
      if n < k {
        SecondStepBefore(items, n);
      } else if n == k {
        SecondStepAt(items, n);
      } else {
        SecondStepAfter(items, n);
      }
    }
  }

  /**
   * The shape of the chart: half 1 is one labelled segment for each item
   * before the cut, in order; half 2 is at most one unlabelled dummy followed
   * by one labelled segment for each remaining item, in order.
   */
  lemma PartitionShape(items: seq<Item>)
    ensures List1(items, |items|) == Firsts(items, Cut(items))
    ensures List2(items, |items|) == DummyFor(items) + Seconds(items, Cut(items), |items|)
  {
    FirstListUpTo(items, |items|);
    SecondListUpTo(items, |items|);
  }

  /** Exactly one labelled segment per item, plus at most one dummy. */
  lemma OneSegmentPerItem(items: seq<Item>)
    ensures |List1(items, |items|)| + |List2(items, |items|)| == |items| + |DummyFor(items)|
  {
    PartitionShape(items);
  }
}
