/** The progress screen: stored daily results are sorted by date in place,
    split into one series per category, and averaged. */
module Progress {
  import opened JsMath

  /** One stored day. `fecha` is the date as an ordered key (calendar
      parsing is not modelled); the scores are the 0..100 category results. */
  datatype DailyResult = DailyResult(
    fecha: int,
    fuerza: real,
    velocidad: real,
    flexibilidad: real,
    resistencia: real,
    imc: string)

  ghost predicate SortedByFecha(s: seq<DailyResult>)
  {
    forall k, l :: 0 <= k < l < |s| ==> s[k].fecha <= s[l].fecha
  }

  /** Exchanges `a[j - 1]` and `a[j]`, keeping the same elements. */
  method SwapAdjacent(a: array<DailyResult>, j: int)
    requires 0 < j < a.Length
    modifies a
    ensures a[j - 1] == old(a[j]) && a[j] == old(a[j - 1])
    ensures forall k :: 0 <= k < a.Length && k != j - 1 && k != j ==> a[k] == old(a[k])
    ensures multiset(a[..]) == multiset(old(a[..]))
  {
    a[j - 1], a[j] := a[j], a[j - 1];
  }

  /** `arr.sort((a, b) => date(a) - date(b))`: ascending by date, in place
      (an insertion sort by adjacent swaps). */
  method SortByFecha(a: array<DailyResult>)
    modifies a
    ensures SortedByFecha(a[..])
    ensures multiset(a[..]) == multiset(old(a[..]))
  {
    if a.Length == 0 {
      return;
    }
    var i := 1;
    while i < a.Length
      invariant 1 <= i <= a.Length
      invariant forall k, l :: 0 <= k < l < i ==> a[k].fecha <= a[l].fecha
      invariant multiset(a[..]) == multiset(old(a[..]))
    {
      var j := i;
      while j > 0 && a[j - 1].fecha > a[j].fecha
        invariant 0 <= j <= i
        invariant forall k, l :: 0 <= k < l <= i && k != j && l != j ==> a[k].fecha <= a[l].fecha
        invariant forall l :: j < l <= i ==> a[j].fecha < a[l].fecha
        invariant multiset(a[..]) == multiset(old(a[..]))
      {
        SwapAdjacent(a, j);
        j := j - 1;
      }
      i := i + 1;
    }
  }

  lemma QuotientBounds(a: real, n: real, lo: real, hi: real)
    requires n > 0.0 && n * lo <= a <= n * hi
    ensures lo <= a / n <= hi
  {
    var q := a / n;
    assert q * n == a;
    if q < lo {
      assert false;
    }
    if q > hi {
      assert false;
    }
  }

  /** The rounded mean of a series, 0 for an empty series. */
  function Avg(nums: seq<real>): (r: int)
    ensures nums == [] ==> r == 0
  {
    if |nums| > 0 then Round(Sum(nums) / |nums| as real) else 0
  }

  /** A mean of values in 0..100 stays in 0..100. */
  lemma AvgBounds(nums: seq<real>)
    requires forall i :: 0 <= i < |nums| ==> 0.0 <= nums[i] <= 100.0
    ensures 0 <= Avg(nums) <= 100
  {
    if |nums| > 0 {
      SumBounds(nums, 0.0, 100.0);
      QuotientBounds(Sum(nums), |nums| as real, 0.0, 100.0);
      RoundWithin(Sum(nums) / |nums| as real, 0, 100);
    }
  }

  /** The general average of the four series averages. */
  function GeneralAvg(avgF: int, avgV: int, avgL: int, avgR: int): (r: int)
    ensures 0 <= avgF <= 100 && 0 <= avgV <= 100 && 0 <= avgL <= 100 && 0 <= avgR <= 100 ==>
      0 <= r <= 100
  {
    Round((avgF + avgV + avgL + avgR) as real / 4.0)
  }

  datatype ChartData = ChartData(
    labels: seq<int>,
    fuerza: seq<real>,
    velocidad: seq<real>,
    flexibilidad: seq<real>,
    resistencia: seq<real>,
    avgF: int,
    avgV: int,
    avgL: int,
    avgR: int,
    general: int)

  ghost predicate InRange(arr: seq<DailyResult>)
  {
    forall i :: 0 <= i < |arr| ==>
      && 0.0 <= arr[i].fuerza <= 100.0 && 0.0 <= arr[i].velocidad <= 100.0
      && 0.0 <= arr[i].flexibilidad <= 100.0 && 0.0 <= arr[i].resistencia <= 100.0
  }

  /** `computeChartData`: one point per day in every series, in order, and
      the averages of the series. */
  method ComputeChartData(arr: seq<DailyResult>) returns (data: ChartData)
    ensures |data.labels| == |arr| && |data.fuerza| == |arr| && |data.velocidad| == |arr|
    ensures |data.flexibilidad| == |arr| && |data.resistencia| == |arr|
    ensures forall i :: 0 <= i < |arr| ==>
      && data.labels[i] == arr[i].fecha
      && data.fuerza[i] == arr[i].fuerza
      && data.velocidad[i] == arr[i].velocidad
      && data.flexibilidad[i] == arr[i].flexibilidad
      && data.resistencia[i] == arr[i].resistencia
    ensures data.avgF == Avg(data.fuerza) && data.avgV == Avg(data.velocidad)
    ensures data.avgL == Avg(data.flexibilidad) && data.avgR == Avg(data.resistencia)
    ensures data.general == GeneralAvg(data.avgF, data.avgV, data.avgL, data.avgR)
    ensures arr == [] ==> data.general == 0
    ensures InRange(arr) ==> 0 <= data.general <= 100
  {
    var labels: seq<int> := [];
    var fuerzaArr: seq<real> := [];
    var velocidadArr: seq<real> := [];
    var flexArr: seq<real> := [];
    var resArr: seq<real> := [];
    var n := 0;
    while n < |arr|
      invariant 0 <= n <= |arr|
      invariant |labels| == n && |fuerzaArr| == n && |velocidadArr| == n
      invariant |flexArr| == n && |resArr| == n
      invariant forall i :: 0 <= i < n ==>
        && labels[i] == arr[i].fecha
        && fuerzaArr[i] == arr[i].fuerza
        && velocidadArr[i] == arr[i].velocidad
        && flexArr[i] == arr[i].flexibilidad
        && resArr[i] == arr[i].resistencia
    {
      var item := arr[n];
      labels := labels + [item.fecha];
      fuerzaArr := fuerzaArr + [item.fuerza];
      velocidadArr := velocidadArr + [item.velocidad];
      flexArr := flexArr + [item.flexibilidad];
      resArr := resArr + [item.resistencia];
      n := n + 1;
    }
    var avgF, avgV, avgL, avgR := Avg(fuerzaArr), Avg(velocidadArr), Avg(flexArr), Avg(resArr);
    if InRange(arr) {
      AvgBounds(fuerzaArr);
      AvgBounds(velocidadArr);
      AvgBounds(flexArr);
      AvgBounds(resArr);
    }
    data := ChartData(labels, fuerzaArr, velocidadArr, flexArr, resArr,
                      avgF, avgV, avgL, avgR, GeneralAvg(avgF, avgV, avgL, avgR));
  }

  /** `loadProgress` once the stored list is read: sort it, then chart it. */
  method LoadProgress(arr: array<DailyResult>) returns (data: ChartData)
    modifies arr
    ensures SortedByFecha(arr[..])
    ensures multiset(arr[..]) == multiset(old(arr[..]))
    ensures |data.labels| == arr.Length && |data.fuerza| == arr.Length
    ensures |data.velocidad| == arr.Length && |data.flexibilidad| == arr.Length
    ensures |data.resistencia| == arr.Length
    ensures forall i :: 0 <= i < arr.Length ==>
      data.labels[i] == arr[i].fecha && data.fuerza[i] == arr[i].fuerza &&
      data.velocidad[i] == arr[i].velocidad && data.flexibilidad[i] == arr[i].flexibilidad &&
      data.resistencia[i] == arr[i].resistencia
    ensures data.avgF == Avg(data.fuerza) && data.avgV == Avg(data.velocidad)
    ensures data.avgL == Avg(data.flexibilidad) && data.avgR == Avg(data.resistencia)
    ensures data.general == GeneralAvg(data.avgF, data.avgV, data.avgL, data.avgR)
    ensures arr.Length == 0 ==> data.general == 0
    ensures InRange(arr[..]) ==> 0 <= data.general <= 100
  {
    SortByFecha(arr);
    data := ComputeChartData(arr[..]);
  }
}
