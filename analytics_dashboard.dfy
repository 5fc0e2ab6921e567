/**
 * The administrator's analytics page: the per-status counts folded into one
 * record with a total, the chart rows labelled for display, and what the
 * page shows after loading.
 */
module AnalyticsDashboard {
  import opened Wrappers
  import opened Seqs

  datatype StatRow = StatRow(status: string, count: int)

  /** Sum of the counts of all rows. */
  function SumCounts(rows: seq<StatRow>): int {
    if rows == [] then 0 else SumCounts(rows[..|rows| - 1]) + rows[|rows| - 1].count
  }

  /** Some row carries `status`. */
  predicate HasStatus(rows: seq<StatRow>, status: string) {
    exists j :: 0 <= j < |rows| && rows[j].status == status
  }

  /** The position of the last row carrying `status`. */
  function LastRow(rows: seq<StatRow>, status: string): (j: nat)
    requires HasStatus(rows, status)
    ensures j < |rows| && rows[j].status == status
    ensures forall k :: j < k < |rows| ==> rows[k].status != status
  {
    if rows[|rows| - 1].status == status then |rows| - 1
    else
      assert HasStatus(rows[..|rows| - 1], status) by {
        var j :| 0 <= j < |rows| && rows[j].status == status;
        assert rows[..|rows| - 1][j].status == status;
      }
      LastRow(rows[..|rows| - 1], status)
  }

  /**
   * `formattedStats`: the `reduce` writes each row's count under its status,
   * so a status repeated in the data keeps the count of its last row; then
   * `total` is set to the sum of all counts, replacing a status literally
   * named "total".
   */
  method FormatStats(statsData: seq<StatRow>) returns (stats: map<string, int>)
    ensures stats.Keys == (set j | 0 <= j < |statsData| :: statsData[j].status) + {"total"}
    ensures stats["total"] == SumCounts(statsData)
    ensures forall s :: s in stats && s != "total" ==>
              HasStatus(statsData, s) && stats[s] == statsData[LastRow(statsData, s)].count
  {
    var acc: map<string, int> := map[];
    var i := 0;
    while i < |statsData|
      invariant 0 <= i <= |statsData|
      invariant acc.Keys == set j | 0 <= j < i :: statsData[j].status
      invariant forall s :: s in acc ==>
                  HasStatus(statsData[..i], s) && acc[s] == statsData[LastRow(statsData[..i], s)].count
    {
      var item := statsData[i];
      acc := acc[item.status := item.count];
      assert statsData[..i + 1][..i] == statsData[..i];
      forall s | s in acc
        ensures HasStatus(statsData[..i + 1], s)
        ensures acc[s] == statsData[LastRow(statsData[..i + 1], s)].count
      {
        if s != item.status {
          var j := LastRow(statsData[..i], s);
          assert statsData[..i + 1][j].status == s;
        }
      }
      i := i + 1;
    }
    assert statsData[..i] == statsData;
    var sum := 0;
    var k := 0;
    while k < |statsData|
      invariant 0 <= k <= |statsData| && sum == SumCounts(statsData[..k])
    {
      assert statsData[..k + 1][..k] == statsData[..k];
      sum := sum + statsData[k].count;
      k := k + 1;
    }
    stats := acc["total" := sum];
  }

  /** `stats.x || 0`: a status missing from the data shows 0. */
  function Display(stats: map<string, int>, key: string): (n: int)
    ensures key !in stats ==> n == 0
    ensures key in stats ==> n == stats[key]
  {
    if key in stats && stats[key] != 0 then stats[key] else 0
  }

  datatype Participation = Participation(month: string, studentCount: int)
  datatype Distribution = Distribution(category: string, count: int)

  /** A chart row: the original fields plus the axis label `name`. */
  datatype ParticipationBar = ParticipationBar(name: string, month: string, studentCount: int)
  datatype DistributionBar = DistributionBar(name: string, category: string, count: int)

  /** `participationData.map(p => ({ ...p, name: p.month }))` */
  function ParticipationBars(rows: seq<Participation>): (r: seq<ParticipationBar>)
    ensures |r| == |rows|
    ensures forall i :: 0 <= i < |r| ==> r[i].name == rows[i].month
  {
    seq(|rows|, i requires 0 <= i < |rows| => ParticipationBar(rows[i].month, rows[i].month, rows[i].studentCount))
  }

  /** `distributionData.map(d => ({ ...d, name: d.category }))` */
  function DistributionBars(rows: seq<Distribution>): (r: seq<DistributionBar>)
    ensures |r| == |rows|
    ensures forall i :: 0 <= i < |r| ==> r[i].name == rows[i].category
  {
    seq(|rows|, i requires 0 <= i < |rows| => DistributionBar(rows[i].category, rows[i].category, rows[i].count))
  }

  /** Dropping the label from a bar gives back the row it came from. */
  function ParticipationOf(b: ParticipationBar): Participation {
    Participation(b.month, b.studentCount)
  }

  function DistributionOf(b: DistributionBar): Distribution {
    Distribution(b.category, b.count)
  }

  /** Labelling keeps every row and every field, in order. */
  lemma BarsKeepRows(ps: seq<Participation>, ds: seq<Distribution>)
    ensures seq(|ps|, i requires 0 <= i < |ps| => ParticipationOf(ParticipationBars(ps)[i])) == ps
    ensures seq(|ds|, i requires 0 <= i < |ds| => DistributionOf(DistributionBars(ds)[i])) == ds
  {
  }

  /** The three query results, which arrive together or not at all. */
  datatype Fetched = Fetched(stats: seq<StatRow>, participation: seq<Participation>,
                             distribution: seq<Distribution>)

  const FetchError := "Failed to fetch analytics data. Please try again later."

  /** What the page shows. */
  datatype View = LoadingView | ErrorView(message: string) | StatsView

  class AnalyticsPage {
    var stats: map<string, int>
    var participation: seq<ParticipationBar>
    var distribution: seq<DistributionBar>
    var loading: bool
    var error: Option<string>

    constructor()
      ensures stats == map[] && participation == [] && distribution == [] && loading && error == None
    {
      stats := map[];
      participation := [];
      distribution := [];
      loading := true;
      error := None;
    }

    function Shown(): View
      reads this
    {
      if loading then LoadingView
      else if error.Some? then ErrorView(error.value)
      else StatsView
    }

    /**
     * `fetchData`: on failure the error message is set and the page shows it
     * instead of the stats; on success the formatted stats and labelled rows
     * are stored and the error cleared; loading ends either way.
     */
    method FetchData(fetched: Result<Fetched, string>)
      modifies this
      ensures !loading
      ensures fetched.Failure? ==> error == Some(FetchError) && Shown() == ErrorView(FetchError)
                                   && stats == old(stats) && participation == old(participation)
                                   && distribution == old(distribution)
      ensures fetched.Success? ==> error == None && Shown() == StatsView
                                   && stats.Keys == (set j | 0 <= j < |fetched.value.stats| :: fetched.value.stats[j].status) + {"total"}
                                   && stats["total"] == SumCounts(fetched.value.stats)
                                   && (forall s :: s in stats && s != "total" ==>
                                         var rows := fetched.value.stats;
                                         HasStatus(rows, s) && stats[s] == rows[LastRow(rows, s)].count)
                                   && participation == ParticipationBars(fetched.value.participation)
                                   && distribution == DistributionBars(fetched.value.distribution)
    {
      loading := true;
      if fetched.Failure? {
        error := Some(FetchError);
      } else {
        var formatted := FormatStats(fetched.value.stats);
        stats := formatted;
        participation := ParticipationBars(fetched.value.participation);
        distribution := DistributionBars(fetched.value.distribution);
        error := None;
      }
      loading := false;
    }
  }
}
