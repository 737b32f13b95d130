/**
 * The dashboard's figures: the header cards (total capacity, average
 * occupancy, average waste rate), the colour band of each hostel's waste
 * rate, and the average waste of each day's three meals.
 *
 * The sums are `reduce` folds from 0; the averages are `Math.round` of a
 * quotient of integers, which for a positive divisor `n` is the floor of
 * `s / n + 1/2`, written here without division by reals as
 * `(2 * s + n) / (2 * n)`.
 */
module Dashboard {

  datatype Hostel = Hostel(name: string, capacity: int, avgOccupancy: int, wasteRate: int)

  datatype DayWaste = DayWaste(day: string, breakfast: int, lunch: int, dinner: int)

  /** `xs.reduce((sum, x) => sum + x, 0)`: a sum of non-negative values is
      non-negative and at least each of them. */
  function Sum(xs: seq<int>): (total: int)
    ensures (forall i :: 0 <= i < |xs| ==> xs[i] >= 0) ==> total >= 0
    ensures (forall i :: 0 <= i < |xs| ==> xs[i] >= 0) ==> forall i :: 0 <= i < |xs| ==> xs[i] <= total
  {
    if xs == [] then 0 else Sum(xs[..|xs| - 1]) + xs[|xs| - 1]
  }

  function Min(xs: seq<int>): int
    requires |xs| > 0
  {
    if |xs| == 1 then xs[0]
    else
      var m := Min(xs[..|xs| - 1]);
      if xs[|xs| - 1] < m then xs[|xs| - 1] else m
  }

  function Max(xs: seq<int>): int
    requires |xs| > 0
  {
    if |xs| == 1 then xs[0]
    else
      var m := Max(xs[..|xs| - 1]);
      if xs[|xs| - 1] > m then xs[|xs| - 1] else m
  }

  /** Every element lies between the minimum and the maximum, and both are
      elements. */
  lemma {:induction false} MinMaxBound(xs: seq<int>)
    requires |xs| > 0
    ensures forall i :: 0 <= i < |xs| ==> Min(xs) <= xs[i] <= Max(xs)
    ensures Min(xs) in xs && Max(xs) in xs
  {
    if |xs| > 1 {
      MinMaxBound(xs[..|xs| - 1]);
      assert forall i :: 0 <= i < |xs| - 1 ==> xs[..|xs| - 1][i] == xs[i];
    }
  }

  /** The sum of `n` values lies between `n` times the least and `n` times
      the greatest. */
  lemma {:induction false} SumBetween(xs: seq<int>)
    requires |xs| > 0
    ensures |xs| * Min(xs) <= Sum(xs) <= |xs| * Max(xs)
  {
    if |xs| > 1 {
      var init, last := xs[..|xs| - 1], xs[|xs| - 1];
      var n, lo, hi := |init|, Min(xs), Max(xs);
      SumBetween(init);
      assert Sum(xs) == Sum(init) + last;
      assert lo <= Min(init) && Max(init) <= hi && lo <= last <= hi;
      assert n * lo <= Sum(init) by {
        MultiplyMonotone(n, lo, Min(init));
      }
      assert Sum(init) <= n * hi by {
        MultiplyMonotone(n, Max(init), hi);
      }
      MultiplySucc(n, lo);
      MultiplySucc(n, hi);
    }
  }

  lemma MultiplySucc(n: nat, a: int)
    ensures (n + 1) * a == n * a + a
  {
  }

  lemma MultiplyMonotone(n: nat, a: int, b: int)
    requires a <= b
    ensures n * a <= n * b
  {
    assert n * b - n * a == n * (b - a);
  }

  /** The fold adds up the two halves of a split list separately. */
  lemma {:induction false} SumConcat(a: seq<int>, b: seq<int>)
    ensures Sum(a + b) == Sum(a) + Sum(b)
  {
    if b != [] {
      var init := b[..|b| - 1];
      assert (a + b)[..|a + b| - 1] == a + init;
      SumConcat(a, init);
    } else {
      assert a + b == a;
    }
  }

  /** `Math.round(s / n)` for `n > 0`: the integer nearest to `s / n`, a
      half rounded up. */
  function RoundDiv(s: int, n: int): (r: int)
    requires n > 0
    ensures 2 * n * r - n <= 2 * s < 2 * n * r + n
  {
    var q := (2 * s + n) / (2 * n);
    assert (2 * n) * q <= 2 * s + n < (2 * n) * q + 2 * n;
    q
  }

  /** The rounded mean of a non-empty list lies between its least and its
      greatest element. */
  function RoundedMean(xs: seq<int>): (m: int)
    requires |xs| > 0
    ensures Min(xs) <= m <= Max(xs)
    ensures 2 * |xs| * m - |xs| <= 2 * Sum(xs) < 2 * |xs| * m + |xs|
  {
    var n, s := |xs|, Sum(xs);
    var m := RoundDiv(s, n);
    SumBetween(xs);
    RoundedBetween(s, n, m, Min(xs), Max(xs));
    m
  }

  /** A rounded quotient stays within the bounds of the values averaged. */
  lemma RoundedBetween(s: int, n: int, m: int, lo: int, hi: int)
    requires n > 0
    requires n * lo <= s <= n * hi
    requires 2 * n * m - n <= 2 * s < 2 * n * m + n
    ensures lo <= m <= hi
  {
    if m < lo {
      MultiplyMonotone(2 * n, m, lo - 1);
    }
    if m > hi {
      MultiplyMonotone(2 * n, hi + 1, m);
    }
  }

  function Capacities(hs: seq<Hostel>): seq<int>
  {
    seq(|hs|, i requires 0 <= i < |hs| => hs[i].capacity)
  }

  function Occupancies(hs: seq<Hostel>): seq<int>
  {
    seq(|hs|, i requires 0 <= i < |hs| => hs[i].avgOccupancy)
  }

  function WasteRates(hs: seq<Hostel>): seq<int>
  {
    seq(|hs|, i requires 0 <= i < |hs| => hs[i].wasteRate)
  }

  /** The "Total Capacity" card. */
  function TotalCapacity(hs: seq<Hostel>): (total: int)
    ensures (forall i :: 0 <= i < |hs| ==> hs[i].capacity >= 0) ==> forall i :: 0 <= i < |hs| ==> 0 <= hs[i].capacity <= total
    ensures |hs| > 0 ==> |hs| * Min(Capacities(hs)) <= total <= |hs| * Max(Capacities(hs))
  {
    var caps := Capacities(hs);
    assert forall i :: 0 <= i < |hs| ==> caps[i] == hs[i].capacity;
    if |hs| > 0 then SumBetween(caps); Sum(caps) else Sum(caps)
  }

  /** The capacity of two groups of hostels is the sum of their capacities;
      in particular, adding a hostel adds exactly its capacity. */
  lemma TotalCapacityConcat(a: seq<Hostel>, b: seq<Hostel>)
    ensures TotalCapacity(a + b) == TotalCapacity(a) + TotalCapacity(b)
    ensures TotalCapacity([]) == 0
  {
    assert Capacities(a + b) == Capacities(a) + Capacities(b);
    SumConcat(Capacities(a), Capacities(b));
  }

  /** The "Avg Occupancy" card. */
  function AverageOccupancy(hs: seq<Hostel>): (m: int)
    requires |hs| > 0
    ensures exists i, j :: 0 <= i < |hs| && 0 <= j < |hs| && hs[i].avgOccupancy <= m <= hs[j].avgOccupancy
    ensures 2 * |hs| * m - |hs| <= 2 * Sum(Occupancies(hs)) < 2 * |hs| * m + |hs|
  {
    var xs := Occupancies(hs);
    MinMaxBound(xs);
    RoundedMean(xs)
  }

  /** The "Avg Waste Rate" card. */
  function AverageWasteRate(hs: seq<Hostel>): (m: int)
    requires |hs| > 0
    ensures exists i, j :: 0 <= i < |hs| && 0 <= j < |hs| && hs[i].wasteRate <= m <= hs[j].wasteRate
    ensures 2 * |hs| * m - |hs| <= 2 * Sum(WasteRates(hs)) < 2 * |hs| * m + |hs|
  {
    var xs := WasteRates(hs);
    MinMaxBound(xs);
    RoundedMean(xs)
  }

  /** The badge variant of a hostel's waste rate. */
  function BadgeVariant(wasteRate: int): (v: string)
    ensures v == "destructive" <==> wasteRate > 25
    ensures v == "warning" <==> 20 < wasteRate <= 25
    ensures v == "success" <==> wasteRate <= 20
  {
    if wasteRate > 25 then "destructive" else if wasteRate > 20 then "warning" else "success"
  }

  /** The colour class of a hostel's waste bar, written out separately from
      the badge: it always picks the badge's band. */
  function BarClass(wasteRate: int): (c: string)
    ensures c == "bg-" + BadgeVariant(wasteRate)
  {
    if wasteRate > 25 then "bg-destructive" else if wasteRate > 20 then "bg-warning" else "bg-success"
  }

  /** The "Avg" figure of one day: the rounded mean of its three meals. */
  function DayAverage(d: DayWaste): (a: int)
    ensures 6 * a - 3 <= 2 * (d.breakfast + d.lunch + d.dinner) < 6 * a + 3
    ensures a >= d.breakfast || a >= d.lunch || a >= d.dinner
    ensures a <= d.breakfast || a <= d.lunch || a <= d.dinner
  {
    RoundDiv(d.breakfast + d.lunch + d.dinner, 3)
  }

  // ---------------------------------------------------------------------
  // The sample figures the dashboard shows

  const SampleHostels: seq<Hostel> := [
    Hostel("Om Sai Hostel", 60, 75, 23),
    Hostel("Amrutha Hostel", 55, 82, 18),
    Hostel("Dwaraka Hostel", 60, 68, 31),
    Hostel("Vijaya Aditya Hostel", 60, 88, 15)
  ]

  const SampleWeek: seq<DayWaste> := [
    DayWaste("Monday", 15, 12, 25),
    DayWaste("Tuesday", 18, 14, 22),
    DayWaste("Wednesday", 12, 16, 28),
    DayWaste("Thursday", 20, 11, 24),
    DayWaste("Friday", 22, 19, 35),
    DayWaste("Saturday", 35, 28, 42),
    DayWaste("Sunday", 38, 32, 45)
  ]

  /** The header cards and the hostel bands for the sample hostels. */
  lemma SampleHostelFigures()
    ensures TotalCapacity(SampleHostels) == 235
    ensures AverageOccupancy(SampleHostels) == 78
    ensures AverageWasteRate(SampleHostels) == 22
    ensures |SampleHostels| == 4
    ensures seq(4, i requires 0 <= i < 4 => BadgeVariant(SampleHostels[i].wasteRate))
         == ["warning", "success", "destructive", "success"]
  {
    SampleCapacity();
    SampleOccupancy();
    SampleWasteRate();
    SampleBadges();
  }

  lemma SampleCapacity()
    ensures TotalCapacity(SampleHostels) == 235
  {
    assert Capacities(SampleHostels) == [60, 55, 60, 60];
    SumOfFour(60, 55, 60, 60);
  }

  lemma SampleOccupancy()
    ensures AverageOccupancy(SampleHostels) == 78
  {
    assert Occupancies(SampleHostels) == [75, 82, 68, 88];
    SumOfFour(75, 82, 68, 88);
    SampleRounding();
  }

  lemma SampleWasteRate()
    ensures AverageWasteRate(SampleHostels) == 22
  {
    assert WasteRates(SampleHostels) == [23, 18, 31, 15];
    SumOfFour(23, 18, 31, 15);
    SampleRounding();
  }

  lemma SampleRounding()
    ensures RoundDiv(313, 4) == 78 && RoundDiv(87, 4) == 22
  {
  }

  lemma SampleBadges()
    ensures seq(4, i requires 0 <= i < 4 => BadgeVariant(SampleHostels[i].wasteRate))
         == ["warning", "success", "destructive", "success"]
  {
    var badges := seq(4, i requires 0 <= i < 4 => BadgeVariant(SampleHostels[i].wasteRate));
    assert badges[0] == "warning" && badges[1] == "success";
    assert badges[2] == "destructive" && badges[3] == "success";
  }

  lemma SumOfFour(a: int, b: int, c: int, d: int)
    ensures Sum([a, b, c, d]) == a + b + c + d
  {
    assert Sum([a]) == a by {
      assert [a][..0] == [];
    }
    assert Sum([a, b]) == a + b by {
      assert [a, b][..1] == [a];
    }
    assert Sum([a, b, c]) == a + b + c by {
      assert [a, b, c][..2] == [a, b];
    }
    assert [a, b, c, d][..3] == [a, b, c];
  }

  /** The "Avg" figure of each sample day. */
  lemma SampleWeekFigures()
    ensures seq(7, i requires 0 <= i < 7 => DayAverage(SampleWeek[i])) == [17, 18, 19, 18, 25, 35, 38]
  {
  }
}
