/** The live part of the dashboard (front/src/App.tsx): the window of the
    latest 100 readings received over the WebSocket, the over-temperature
    alert, and the up/down trends shown on the two cards. */
module Dashboard {

  /** One reading as the dashboard receives it. */
  datatype SensorData = SensorData(timestamp: int, temperature: real, humidity: real)

  /** `TEMPERATURE_THRESHOLD`. */
  const TemperatureThreshold: real := 26.0

  /** How many readings the dashboard keeps. */
  const WindowSize: nat := 100

  /** The last `n` elements of `s`, or all of them when `s` is shorter. */
  function Last(s: seq<SensorData>, n: nat): (r: seq<SensorData>)
    ensures |r| == if |s| < n then |s| else n
    ensures forall k :: 0 <= k < |r| ==> r[k] == s[|s| - |r| + k]
  {
    if |s| < n then s else s[|s| - n..]
  }

  // ------------------------------------------------------------ the window

  /** The updater passed to `setData`: append the reading, and keep only the
      last 100 when that makes more than 100. */
  function Window(prev: seq<SensorData>, x: SensorData): (r: seq<SensorData>)
    ensures |r| <= WindowSize
    ensures r != [] && r[|r| - 1] == x
    ensures r == Last(prev + [x], WindowSize)
  {
    var updated := prev + [x];
    if |updated| > WindowSize then updated[|updated| - WindowSize..] else updated
  }

  /** Nothing is dropped exactly when fewer than 100 readings were kept
      before. */
  lemma WindowDropsOnlyWhenFull(prev: seq<SensorData>, x: SensorData)
    ensures Window(prev, x) == prev + [x] <==> |prev| < WindowSize
  {
    if |prev| >= WindowSize {
      assert |Window(prev, x)| != |prev + [x]|;
    }
  }

  /** The window after the readings `xs` arrive one after another. */
  function Replay(prev: seq<SensorData>, xs: seq<SensorData>): seq<SensorData>
    decreases |xs|
  {
    if xs == [] then prev else Replay(Window(prev, xs[0]), xs[1..])
  }

  /** Keeping the last `n` twice, with more appended in between, is keeping
      the last `n` of the whole. */
  lemma LastOfLast(a: seq<SensorData>, b: seq<SensorData>, n: nat)
    ensures Last(Last(a, n) + b, n) == Last(a + b, n)
  {
    if |a| >= n {
      var ab := a + b;
      var m := a[|a| - n..];
      assert Last(a, n) == m;
      assert m + b == ab[|a| - n..];
      assert |ab[|a| - n..]| >= n;
      assert Last(m + b, n) == ab[|a| - n..][|b|..];
      assert ab[|a| - n..][|b|..] == ab[|ab| - n..];
    } else {
      assert Last(a, n) == a;
    }
  }

  /** However many readings arrive, starting from at most 100, the window
      holds the latest 100 of all of them, oldest first. */
  lemma {:induction false} ReplayKeepsLatest(prev: seq<SensorData>, xs: seq<SensorData>)
    requires |prev| <= WindowSize
    ensures Replay(prev, xs) == Last(prev + xs, WindowSize)
    decreases |xs|
  {
    if xs == [] {
      assert prev + xs == prev;
    } else {
      var w := Window(prev, xs[0]);
      assert prev + [xs[0]] + xs[1..] == prev + xs;
      calc {
        Replay(prev, xs);
        Replay(w, xs[1..]);
        { ReplayKeepsLatest(w, xs[1..]); }
        Last(w + xs[1..], WindowSize);
        Last(Last(prev + [xs[0]], WindowSize) + xs[1..], WindowSize);
        { LastOfLast(prev + [xs[0]], xs[1..], WindowSize); }
        Last(prev + xs, WindowSize);
      }
    }
  }

  // ---------------------------------------------------------- the handler

  /** The two state fields `onData` sets: `data` and `alertActive`. */
  class LiveState {
    var data: seq<SensorData>
    var alertActive: bool

    ghost predicate Valid()
      reads this
    {
      |data| <= WindowSize
    }

    constructor ()
      ensures Valid()
      ensures data == [] && !alertActive
    {
      data := [];
      alertActive := false;
    }

    /** `onData`: the window takes the reading, and the alert is on exactly
        when this reading is at or above the threshold, whatever came before. */
    method OnData(sensorData: SensorData)
      requires Valid()
      modifies this
      ensures Valid()
      ensures data == Window(old(data), sensorData)
      ensures alertActive <==> sensorData.temperature >= TemperatureThreshold
    {
      data := Window(data, sensorData);
      if sensorData.temperature >= TemperatureThreshold {
        alertActive := true;
      } else {
        alertActive := false;
      }
    }
  }

  // ------------------------------------------------------------ the trends

  /** The fallback `{timestamp: Date.now(), temperature: 0, humidity: 0}`. */
  function Fallback(now: int): SensorData
  {
    SensorData(now, 0.0, 0.0)
  }

  /** `latestData`: the last reading, or the fallback when there is none. */
  function LatestData(data: seq<SensorData>, now: int): (d: SensorData)
    ensures |data| >= 1 ==> d == data[|data| - 1]
    ensures |data| == 0 ==> d == Fallback(now)
  {
    if |data| >= 1 then data[|data| - 1] else Fallback(now)
  }

  /** `previousData`: the one before the last, or the fallback. */
  function PreviousData(data: seq<SensorData>, now: int): (d: SensorData)
    ensures |data| >= 2 ==> d == data[|data| - 2]
    ensures |data| < 2 ==> d == Fallback(now)
  {
    if |data| >= 2 then data[|data| - 2] else Fallback(now)
  }

  /** A trend: `'up'`, `'down'` or `undefined`. */
  datatype Trend = Up | Down | Undefined

  /** The ternary shared by both cards. */
  function TrendOf(latest: real, previous: real): (t: Trend)
    ensures t == Up <==> latest > previous
    ensures t == Down <==> latest < previous
    ensures t == Undefined <==> latest == previous
  {
    if latest > previous then Up
    else if latest < previous then Down
    else Undefined
  }

  function TempTrend(data: seq<SensorData>, now: int): Trend
  {
    TrendOf(LatestData(data, now).temperature, PreviousData(data, now).temperature)
  }

  function HumidityTrend(data: seq<SensorData>, now: int): Trend
  {
    TrendOf(LatestData(data, now).humidity, PreviousData(data, now).humidity)
  }

  /** A trend's text: empty without a trend, otherwise the magnitude as
      `format` writes it followed by the unit. */
  function TrendText(trend: Trend, magnitude: string, unit: string): (text: string)
    requires unit != []
    ensures text == [] <==> trend == Undefined
  {
    if trend == Undefined then "" else magnitude + unit
  }

  function Abs(x: real): real
  {
    if x < 0.0 then -x else x
  }

  /** `tempTrendValue`; `format` stands for `.toFixed(1)`. */
  function TempTrendValue(data: seq<SensorData>, now: int, format: real -> string): string
  {
    TrendText(TempTrend(data, now),
      format(Abs(LatestData(data, now).temperature - PreviousData(data, now).temperature)), "°C")
  }

  /** `humidityTrendValue`; `format` stands for `.toFixed(1)`. */
  function HumidityTrendValue(data: seq<SensorData>, now: int, format: real -> string): string
  {
    TrendText(HumidityTrend(data, now),
      format(Abs(LatestData(data, now).humidity - PreviousData(data, now).humidity)), "%")
  }

  /** Each trend compares the last two readings' own field, a missing reading
      counting as 0: with two or more readings the last two, with one the
      reading against 0, with none no trend at all. */
  lemma TrendsCompareLastTwo(data: seq<SensorData>, now: int)
    ensures |data| >= 2 ==>
      (TempTrend(data, now) == Up <==> data[|data| - 1].temperature > data[|data| - 2].temperature) &&
      (TempTrend(data, now) == Down <==> data[|data| - 1].temperature < data[|data| - 2].temperature) &&
      (HumidityTrend(data, now) == Up <==> data[|data| - 1].humidity > data[|data| - 2].humidity) &&
      (HumidityTrend(data, now) == Down <==> data[|data| - 1].humidity < data[|data| - 2].humidity)
    ensures |data| == 1 ==>
      TempTrend(data, now) == TrendOf(data[0].temperature, 0.0) &&
      HumidityTrend(data, now) == TrendOf(data[0].humidity, 0.0)
    ensures |data| == 0 ==>
      TempTrend(data, now) == Undefined && HumidityTrend(data, now) == Undefined
  {
  }

  /** One reading of 5 degrees shows the temperature going up. */
  lemma SingleReadingTrendsUp(now: int, t: int, h: real)
    ensures TempTrend([SensorData(t, 5.0, h)], now) == Up
  {
  }

  /** The temperature trend reads only temperatures and the humidity trend
      only humidities: changing the other field of any reading changes
      neither. */
  lemma TrendsIndependent(a: seq<SensorData>, b: seq<SensorData>, now: int, later: int)
    requires |a| == |b|
    ensures (forall k :: 0 <= k < |a| ==> a[k].temperature == b[k].temperature) ==>
      TempTrend(a, now) == TempTrend(b, later)
    ensures (forall k :: 0 <= k < |a| ==> a[k].humidity == b[k].humidity) ==>
      HumidityTrend(a, now) == HumidityTrend(b, later)
  {
  }

  /** Each trend text is empty exactly when its trend is undefined. */
  lemma TrendTextsEmptyIffUndefined(data: seq<SensorData>, now: int, format: real -> string)
    ensures TempTrendValue(data, now, format) == "" <==> TempTrend(data, now) == Undefined
    ensures HumidityTrendValue(data, now, format) == "" <==> HumidityTrend(data, now) == Undefined
  {
  }
}
