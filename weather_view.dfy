/** The five-day forecast of the weather screen: the icon and description
    of a weather code, the most frequent code of a day, and which hourly
    codes make up each day. */
module WeatherView {
  import opened Wrappers

  /** `getWeatherIcon`'s table. */
  function IconName(code: int): Option<string> {
    match code
    case 0 => Some("sun")
    case 1 => Some("sun")
    case 2 => Some("cloud-sun")
    case 3 => Some("cloud")
    case 45 => Some("smog")
    case 48 => Some("smog")
    case 51 => Some("cloud-rain")
    case 53 => Some("cloud-rain")
    case 55 => Some("cloud-showers-heavy")
    case 61 => Some("cloud-rain")
    case 63 => Some("cloud-showers-heavy")
    case 65 => Some("cloud-showers-heavy")
    case 80 => Some("cloud-rain")
    case 81 => Some("cloud-showers-heavy")
    case 82 => Some("cloud-showers-heavy")
    case 95 => Some("bolt")
    case 96 => Some("cloud-bolt")
    case 99 => Some("cloud-bolt")
    case _ => None
  }

  /** The description table. */
  function DescriptionOf(code: int): Option<string> {
    match code
    case 0 => Some("Clear sky")
    case 1 => Some("Mainly clear")
    case 2 => Some("Partly cloudy")
    case 3 => Some("Overcast")
    case 45 => Some("Foggy")
    case 48 => Some("Depositing rime fog")
    case 51 => Some("Light drizzle")
    case 53 => Some("Moderate drizzle")
    case 55 => Some("Dense drizzle")
    case 61 => Some("Slight rain")
    case 63 => Some("Moderate rain")
    case 65 => Some("Heavy rain")
    case 80 => Some("Slight rain showers")
    case 81 => Some("Moderate rain showers")
    case 82 => Some("Violent rain showers")
    case 95 => Some("Thunderstorm")
    case 96 => Some("Thunderstorm with hail")
    case 99 => Some("Thunderstorm with heavy hail")
    case _ => None
  }

  /** The codes both tables list. */
  const ListedCodes: set<int> := {0, 1, 2, 3, 45, 48, 51, 53, 55, 61, 63, 65, 80, 81, 82, 95, 96, 99}

  /** The icon class of a day; a day without codes has an undefined code. */
  function WeatherIcon(code: Option<int>): string {
    "fas fa-" + (if code.Some? && IconName(code.value).Some? then IconName(code.value).value else "cloud")
  }

  function Description(code: Option<int>): string {
    if code.Some? && DescriptionOf(code.value).Some? then DescriptionOf(code.value).value else "Unknown weather"
  }

  /** The two tables list the same codes; any other code, or none, gets the
      cloud icon and "Unknown weather". */
  lemma TablesCoverListedCodes(code: int)
    ensures IconName(code).Some? <==> code in ListedCodes
    ensures DescriptionOf(code).Some? <==> code in ListedCodes
    ensures code !in ListedCodes ==>
      WeatherIcon(Some(code)) == "fas fa-cloud" && Description(Some(code)) == "Unknown weather"
    ensures WeatherIcon(None) == "fas fa-cloud" && Description(None) == "Unknown weather"
  {
  }

  /** Occurrences of `c` in `s`. */
  function Count(s: seq<int>, c: int): nat {
    if s == [] then 0 else Count(s[..|s| - 1], c) + (if s[|s| - 1] == c then 1 else 0)
  }

  lemma CountPrefixStep(s: seq<int>, n: nat, c: int)
    requires n < |s|
    ensures Count(s[..n + 1], c) == Count(s[..n], c) + (if s[n] == c then 1 else 0)
  {
    assert s[..n + 1][..n] == s[..n];
  }

  lemma {:induction false} CountPositive(s: seq<int>, c: int)
    requires Count(s, c) > 0
    ensures c in s
    decreases |s|
  {
    if s[|s| - 1] != c {
      CountPositive(s[..|s| - 1], c);
    }
  }

  /** Counting over a longer prefix never gives less. */
  lemma {:induction false} CountMonotone(s: seq<int>, n1: nat, n2: nat, c: int)
    requires n1 <= n2 <= |s|
    ensures Count(s[..n1], c) <= Count(s[..n2], c)
    decreases n2 - n1
  {
    if n1 < n2 {
      CountPrefixStep(s, n2 - 1, c);
      CountMonotone(s, n1, n2 - 1, c);
    }
  }

  /** `r` is what the loop returns: a most frequent code that reached its
      count no later than any other code did. */
  ghost predicate IsFirstMode(codes: seq<int>, r: int) {
    && r in codes
    && (forall c :: Count(codes, c) <= Count(codes, r))
    && (forall n, c :: 0 <= n <= |codes| && Count(codes[..n], c) >= Count(codes, r) ==>
          Count(codes[..n], r) >= Count(codes, r))
  }

  /** The first prefix in which `c` occurs `m` times ends with `c`. */
  lemma {:induction false} FirstReach(s: seq<int>, c: int, m: nat) returns (n: nat)
    requires 1 <= m <= Count(s, c)
    ensures 1 <= n <= |s| && Count(s[..n], c) >= m && Count(s[..n - 1], c) < m && s[n - 1] == c
    decreases |s|
  {
    var t := s[..|s| - 1];
    if Count(t, c) >= m {
      n := FirstReach(t, c, m);
      assert s[..n] == t[..n] && s[..n - 1] == t[..n - 1];
    } else {
      n := |s|;
      assert s[..n] == s && s[..n - 1] == t;
    }
  }

  /** The tie-break makes the answer unique: at most one code is a first mode. */
  lemma FirstModeUnique(codes: seq<int>, a: int, b: int)
    requires IsFirstMode(codes, a) && IsFirstMode(codes, b)
    ensures a == b
  {
    var m := Count(codes, a);
    assert m == Count(codes, b);
    assert m >= 1 by {
      assert codes == codes[..|codes|];
      var i :| 0 <= i < |codes| && codes[i] == a;
      CountPrefixStep(codes, i, a);
      CountMonotone(codes, i + 1, |codes|, a);
    }
    var na := FirstReach(codes, a, m);
    var nb := FirstReach(codes, b, m);
    if na < nb {
      CountMonotone(codes, na, nb - 1, a);
    } else if nb < na {
      CountMonotone(codes, nb, na - 1, b);
    }
  }

  /** Within the first `i` codes, every prefix in which some code reaches
      `m` occurrences already holds `m` occurrences of `r`. */
  ghost predicate ReachedFirst(codes: seq<int>, i: nat, r: int, m: nat)
    requires i <= |codes|
  {
    forall n, c :: 0 <= n <= i && Count(codes[..n], c) >= m ==> Count(codes[..n], r) >= m
  }

  /** A code that goes ahead of every count so far reached its new count
      first. */
  lemma NewLeader(codes: seq<int>, i: nat)
    requires i < |codes|
    requires forall c :: Count(codes[..i], c) < Count(codes[..i + 1], codes[i])
    ensures ReachedFirst(codes, i + 1, codes[i], Count(codes[..i + 1], codes[i]))
  {
    var m := Count(codes[..i + 1], codes[i]);
    forall n, c | 0 <= n <= i && Count(codes[..n], c) >= m
      ensures false
    {
      CountMonotone(codes, n, i, c);
    }
  }

  /** A step that does not beat the leader's count keeps the leader. */
  lemma KeepLeader(codes: seq<int>, i: nat, r: int, m: nat)
    requires i < |codes|
    requires ReachedFirst(codes, i, r, m) && Count(codes[..i], r) >= m
    ensures ReachedFirst(codes, i + 1, r, m)
  {
    CountMonotone(codes, i, i + 1, r);
  }

  /** `getMostFrequentWeatherCode`: counts each code in a dictionary and keeps
      the first code whose count beats the best so far. For an empty list
      the result is `codes[0]`, undefined, here `None`. */
  method MostFrequentWeatherCode(codes: seq<int>) returns (r: Option<int>)
    ensures r.None? <==> codes == []
    ensures r.Some? ==> IsFirstMode(codes, r.value)
  {
    var frequency: map<int, nat> := map[];
    var maxFreq: nat := 0;
    var mostFrequent: Option<int> := if |codes| > 0 then Some(codes[0]) else None;
    ghost var at: nat := 0;
    var i := 0;
    while i < |codes|
      invariant 0 <= i <= |codes|
      invariant mostFrequent.None? <==> codes == []
      invariant forall c :: c in frequency ==> frequency[c] == Count(codes[..i], c)
      invariant forall c :: c !in frequency ==> Count(codes[..i], c) == 0
      invariant forall c :: Count(codes[..i], c) <= maxFreq
      invariant i > 0 ==> mostFrequent.Some? && Count(codes[..i], mostFrequent.value) == maxFreq
      invariant i > 0 ==> at < i && codes[at] == mostFrequent.value
      invariant i > 0 ==> ReachedFirst(codes, i, mostFrequent.value, maxFreq)
      invariant i == 0 ==> maxFreq == 0
    {
      var code := codes[i];
      var old_freq := if code in frequency then frequency[code] else 0;
      forall c
        ensures Count(codes[..i + 1], c) == Count(codes[..i], c) + (if code == c then 1 else 0)
      {
        CountPrefixStep(codes, i, c);
      }
      frequency := frequency[code := old_freq + 1];
      if frequency[code] > maxFreq {
        NewLeader(codes, i);
        maxFreq := frequency[code];
        mostFrequent := Some(code);
        at := i;
      } else {
        KeepLeader(codes, i, mostFrequent.value, maxFreq);
      }
      i := i + 1;
    }
    assert codes[..i] == codes;
    r := mostFrequent;
  }

  /** `slice(start, end)`, clamped to the list as JavaScript does. */
  function Slice(s: seq<int>, start: nat, end: nat): (r: seq<int>)
    ensures start <= |s| && start <= end ==> r == s[start..if end <= |s| then end else |s|]
    ensures start >= |s| || end <= start ==> r == []
  {
    if start >= |s| || end <= start then []
    else s[start..if end <= |s| then end else |s|]
  }

  /** The hourly codes of day `i`: hours `24 i` to `24 i + 24`. */
  function DayWindow(hourly: seq<int>, i: nat): seq<int> {
    Slice(hourly, 24 * i, 24 * i + 24)
  }

  /** A day covers at most 24 hours, exactly the hours `[24 i, 24 i + 24)` of
      the hourly list, all of them when the list reaches that far. */
  lemma DayWindowSpec(hourly: seq<int>, i: nat)
    ensures |DayWindow(hourly, i)| <= 24
    ensures forall k :: 0 <= k < |DayWindow(hourly, i)| ==>
      24 * i + k < |hourly| && DayWindow(hourly, i)[k] == hourly[24 * i + k]
    ensures 24 * i + 24 <= |hourly| ==> |DayWindow(hourly, i)| == 24
    ensures 24 * i >= |hourly| ==> DayWindow(hourly, i) == []
  {
  }

  /** The icon and description shown for day `i`. */
  method DaySummary(hourly: seq<int>, i: nat) returns (icon: string, description: string, code: Option<int>)
    ensures code.None? <==> DayWindow(hourly, i) == []
    ensures code.Some? ==> IsFirstMode(DayWindow(hourly, i), code.value) && code.value in hourly
    ensures icon == WeatherIcon(code) && description == Description(code)
  {
    var window := DayWindow(hourly, i);
    code := MostFrequentWeatherCode(window);
    if code.Some? {
      DayWindowSpec(hourly, i);
      var k :| 0 <= k < |window| && window[k] == code.value;
      assert hourly[24 * i + k] == code.value;
    }
    icon := WeatherIcon(code);
    description := Description(code);
  }
}
