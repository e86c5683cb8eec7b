/** The live dashboard: a window of at most 50 readings that is seeded from
    the history endpoint (reversed into oldest-first order) and grows by one
    reading each time the socket delivers one, dropping its oldest entry once
    it would exceed 50; and the statistics shown beside it. */
module Dashboard {
  import opened Common
  import Socket

  /** The window bound the append effect enforces. */
  const Capacity: nat := 50

  /** The append effect's update: `[...prev, r]`, without its head when that
      is longer than 50. */
  function Appended(prev: seq<Reading>, r: Reading): (w: seq<Reading>)
    ensures |w| == if |prev| < Capacity then |prev| + 1 else |prev|
    ensures w[|w| - 1] == r
    ensures |prev| < Capacity ==> w == prev + [r]
    ensures |prev| >= Capacity ==> w == prev[1..] + [r]
    ensures |prev| <= Capacity ==> |w| <= Capacity
    ensures |prev| > Capacity ==> |w| > Capacity
  {
    var next := prev + [r];
    if |next| > Capacity then next[1..] else next
  }

  /** `Array.prototype.reverse`: the history endpoint lists newest first. */
  function Reversed(s: seq<Reading>): (r: seq<Reading>)
    ensures |r| == |s|
    ensures |s| > 0 ==> r[0] == s[|s| - 1] && r[|r| - 1] == s[0]
  {
    seq(|s|, i requires 0 <= i < |s| => s[|s| - 1 - i])
  }

  /** Reversing loses and invents no reading. */
  lemma {:induction false} ReversedPermutes(s: seq<Reading>)
    ensures multiset(Reversed(s)) == multiset(s)
  {
    if s != [] {
      var init := s[..|s| - 1];
      ReversedPermutes(init);
      assert Reversed(s) == [s[|s| - 1]] + Reversed(init);
      assert s == init + [s[|s| - 1]];
    }
  }

  /** Seeding puts the server's newest reading last and its oldest first,
      and reversing is undone by reversing again. */
  lemma SeedOrder(data: seq<Reading>)
    ensures data != [] ==> Reversed(data)[|data| - 1] == data[0] && Reversed(data)[0] == data[|data| - 1]
    ensures Reversed(Reversed(data)) == data
  {
  }

  /** The newest `n` entries of `s`, or all of `s` when it is shorter. */
  function Newest(s: seq<Reading>, n: nat): (t: seq<Reading>)
    ensures |t| == if |s| <= n then |s| else n
    ensures t == s[|s| - |t|..]
  {
    if |s| <= n then s else s[|s| - n..]
  }

  /** The window after the socket delivers `rs`, one append per reading. */
  function AppendAll(w: seq<Reading>, rs: seq<Reading>): seq<Reading>
    decreases |rs|
  {
    if rs == [] then w else AppendAll(Appended(w, rs[0]), rs[1..])
  }

  /** Dropping the head of a sequence longer than `n` keeps its newest `n`. */
  lemma NewestAfterDrop(s: seq<Reading>, n: nat)
    requires |s| > n
    ensures Newest(s[1..], n) == Newest(s, n)
  {
  }

  /** A window that starts within the bound holds exactly the 50 newest of
      the seed followed by the appended readings, oldest first. */
  lemma {:induction false} WindowHoldsNewest(w: seq<Reading>, rs: seq<Reading>)
    requires |w| <= Capacity
    ensures AppendAll(w, rs) == Newest(w + rs, Capacity)
    decreases |rs|
  {
    if rs == [] {
      assert w + rs == w;
    } else {
      var w1 := Appended(w, rs[0]);
      WindowHoldsNewest(w1, rs[1..]);
      assert [rs[0]] + rs[1..] == rs;
      Regroup(w, [rs[0]], rs[1..]);
      if |w| >= Capacity {
        DropHeadConcat(w + [rs[0]], rs[1..]);
        NewestAfterDrop(w + rs, Capacity);
      }
    }
  }

  /** Length of the window after `N` appends to a seed within the bound:
      `min(seed + N, 50)`; the bound is kept. */
  lemma WindowLength(w: seq<Reading>, rs: seq<Reading>)
    requires |w| <= Capacity
    ensures |AppendAll(w, rs)| == if |w| + |rs| <= Capacity then |w| + |rs| else Capacity
    ensures |AppendAll(w, rs)| <= Capacity
  {
    WindowHoldsNewest(w, rs);
  }

  /** The seed is not truncated: a window seeded over the bound keeps its
      length forever, each append dropping exactly its oldest entry. */
  lemma {:induction false} OverlongSeedStaysOverlong(w: seq<Reading>, rs: seq<Reading>)
    requires |w| > Capacity
    ensures AppendAll(w, rs) == (w + rs)[|rs|..]
    ensures |AppendAll(w, rs)| == |w| > Capacity
    decreases |rs|
  {
    if rs == [] {
      assert w + rs == w;
    } else {
      var w1 := Appended(w, rs[0]);
      OverlongSeedStaysOverlong(w1, rs[1..]);
      assert [rs[0]] + rs[1..] == rs;
      Regroup(w, [rs[0]], rs[1..]);
      DropHeadConcat(w + [rs[0]], rs[1..]);
      assert w1 + rs[1..] == (w + rs)[1..];
      DropDrop(w + rs, 1, |rs| - 1);
    }
  }

  /** After at least one append the window ends with the last reading. */
  lemma {:induction false} AppendAllLast(w: seq<Reading>, rs: seq<Reading>)
    requires rs != []
    ensures AppendAll(w, rs) != [] && AppendAll(w, rs)[|AppendAll(w, rs)| - 1] == rs[|rs| - 1]
    decreases |rs|
  {
    if |rs| > 1 {
      AppendAllLast(Appended(w, rs[0]), rs[1..]);
    }
  }

  /** 55 readings pushed into an empty window leave the 6th to the 55th. */
  lemma FiftyFiveReadings(rs: seq<Reading>)
    requires |rs| == 55
    ensures AppendAll([], rs) == rs[5..]
  {
    WindowHoldsNewest([], rs);
    assert [] + rs == rs;
  }

  /** With one append per `new_sensor_reading`, the newest entry of the
      window is the hook's `lastReading`. */
  lemma NewestEntryIsLastReading(seed: seq<Reading>, events: seq<Socket.Event>)
    requires Socket.ReadingsOf(events) != []
    ensures var w := AppendAll(seed, Socket.ReadingsOf(events));
            w != [] && Socket.LatestReading(events) == Some(w[|w| - 1])
  {
    Socket.LatestReadingIsLastPayload(events);
    AppendAllLast(seed, Socket.ReadingsOf(events));
  }

  /** The averages the statistics endpoint returns. */
  datatype StatsPayload = StatsPayload(avgPh: Option<real>, avgTemp: Option<real>, avgTurb: Option<real>)

  /** What `Promise.all` over the history and statistics requests yields:
      either one of them threw, or both responses. */
  datatype DashboardFetch =
    | FetchThrew
    | FetchSettled(historyRes: Response<seq<Reading>>, statsRes: Response<StatsPayload>)

  /** What the statistics-only request yields. */
  datatype StatsFetch = StatsThrew | StatsSettled(res: Response<StatsPayload>)

  /** The dashboard's state cells. */
  class DashboardView {
    var history: seq<Reading>
    var stats: Option<StatsPayload>
    var loading: bool
    var statsPeriod: string

    ghost predicate WithinCapacity()
      reads this
    {
      |history| <= Capacity
    }

    constructor ()
      ensures history == [] && stats == None && loading && statsPeriod == "week"
      ensures WithinCapacity()
    {
      history := [];
      stats := None;
      loading := true;
      statsPeriod := "week";
    }

    /** `fetchData`: both requests, then the history is re-seeded and the
        statistics replaced, each on its own success flag; if either request
        throws neither changes. `loading` ends false. Returns the statistics
        URL requested. */
    method FetchData(apiUrl: string, outcome: DashboardFetch) returns (statsUrl: string)
      modifies this
      ensures statsUrl == StatsPeriodUrl(apiUrl, old(statsPeriod))
      ensures history == (if outcome.FetchSettled? && outcome.historyRes.success
                          then Reversed(outcome.historyRes.data) else old(history))
      ensures stats == (if outcome.FetchSettled? && outcome.statsRes.success
                        then Some(outcome.statsRes.data) else old(stats))
      ensures !loading && statsPeriod == old(statsPeriod)
      ensures WithinCapacity() <==>
                if outcome.FetchSettled? && outcome.historyRes.success
                then |outcome.historyRes.data| <= Capacity else old(WithinCapacity())
    {
      loading := true;
      statsUrl := StatsPeriodUrl(apiUrl, statsPeriod);
      match outcome {
        case FetchThrew =>
        case FetchSettled(historyRes, statsRes) =>
          if historyRes.success {
            history := Reversed(historyRes.data);
          }
          if statsRes.success {
            stats := Some(statsRes.data);
          }
      }
      loading := false;
    }

    /** The effect on `lastReading`: a present reading is appended to the
        window; an absent one changes nothing. */
    method OnLastReading(lastReading: Option<Reading>)
      modifies this
      ensures history == (if lastReading.Some? then Appended(old(history), lastReading.value)
                          else old(history))
      ensures lastReading.Some? ==> history[|history| - 1] == lastReading.value
      ensures old(WithinCapacity()) ==> WithinCapacity()
      ensures stats == old(stats) && loading == old(loading) && statsPeriod == old(statsPeriod)
    {
      if lastReading.Some? {
        history := Appended(history, lastReading.value);
      }
    }

    /** `fetchStatsOnly`: the statistics are replaced on success, kept
        otherwise; nothing else changes. */
    method FetchStatsOnly(apiUrl: string, period: string, outcome: StatsFetch) returns (url: string)
      modifies this
      ensures url == StatsPeriodUrl(apiUrl, period)
      ensures stats == (if outcome.StatsSettled? && outcome.res.success
                        then Some(outcome.res.data) else old(stats))
      ensures history == old(history) && loading == old(loading) && statsPeriod == old(statsPeriod)
    {
      url := StatsPeriodUrl(apiUrl, period);
      if outcome.StatsSettled? && outcome.res.success {
        stats := Some(outcome.res.data);
      }
    }

    /** `handlePeriodChange`: select the period and fetch its statistics. */
    method HandlePeriodChange(apiUrl: string, newPeriod: string, outcome: StatsFetch) returns (url: string)
      modifies this
      ensures statsPeriod == newPeriod
      ensures url == StatsPeriodUrl(apiUrl, newPeriod)
      ensures stats == (if outcome.StatsSettled? && outcome.res.success
                        then Some(outcome.res.data) else old(stats))
      ensures history == old(history) && loading == old(loading)
    {
      statsPeriod := newPeriod;
      url := FetchStatsOnly(apiUrl, newPeriod, outcome);
    }
  }
}
