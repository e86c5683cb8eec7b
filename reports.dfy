/** The reports page: the statistics request for the selected period (with
    the custom date range when the period is "custom"), the statistics it
    stores, the status log of the audit document, and the export of that
    document: a raster placed aspect-preserved and centred on one landscape
    page, saved under a dated file name, with a flag that disables the
    download button while the export runs. */
module Reports {
  import opened Common

  const CustomPeriod := "custom"

  /** The dates the "custom" period sends (`customRange`). */
  datatype CustomRange = CustomRange(start: string, end: string)

  /* ---------- The statistics request ---------- */

  /** The URL `fetchStats` requests. */
  function StatsUrl(apiUrl: string, period: string, range: CustomRange): (url: string)
    ensures period != CustomPeriod ==> url == StatsPeriodUrl(apiUrl, period)
    ensures period == CustomPeriod ==>
              |url| == |StatsPeriodUrl(apiUrl, period)| + |"&startDate="| + |range.start| + |"&endDate="| + |range.end|
    ensures url[..|StatsPeriodUrl(apiUrl, period)|] == StatsPeriodUrl(apiUrl, period)
  {
    StatsPeriodUrl(apiUrl, period)
      + (if period == CustomPeriod then "&startDate=" + range.start + "&endDate=" + range.end else "")
  }

  /** `let url = …; if (period === 'custom') url += …;` */
  method BuildStatsUrl(apiUrl: string, period: string, range: CustomRange) returns (url: string)
    ensures url == StatsUrl(apiUrl, period, range)
    ensures url[..|StatsPeriodUrl(apiUrl, period)|] == StatsPeriodUrl(apiUrl, period)
    ensures period == CustomPeriod <==> |url| > |StatsPeriodUrl(apiUrl, period)|
  {
    url := StatsPeriodUrl(apiUrl, period);
    if period == CustomPeriod {
      url := url + "&startDate=" + range.start + "&endDate=" + range.end;
    }
  }

  /** `s.split(sep)`. */
  function Split(s: string, sep: char): (parts: seq<string>)
    ensures |parts| >= 1
    decreases |s|
  {
    var i := IndexOf(s, sep);
    if i == |s| then [s] else [s[..i]] + Split(s[i + 1..], sep)
  }

  /** The text after the first '?', empty when there is none. */
  function QueryOf(url: string): string {
    var q := IndexOf(url, '?');
    if q == |url| then "" else url[q + 1..]
  }

  /** One `key=value` pair of a query string; a part without '=' has an
      empty value. */
  function Param(part: string): (string, string) {
    var e := IndexOf(part, '=');
    if e == |part| then (part, "") else (part[..e], part[e + 1..])
  }

  /** The query parameters a server reads from `url`, in order, as split at
      '&' and then at the first '=' (no percent-decoding). */
  function QueryParams(url: string): (ps: seq<(string, string)>)
    ensures |ps| == |Split(QueryOf(url), '&')|
  {
    var parts := Split(QueryOf(url), '&');
    seq(|parts|, i requires 0 <= i < |parts| => Param(parts[i]))
  }

  lemma SplitWhole(a: string, sep: char)
    requires sep !in a
    ensures Split(a, sep) == [a]
  {
  }

  lemma SplitAt(a: string, b: string, sep: char)
    requires sep !in a
    ensures Split(a + [sep] + b, sep) == [a] + Split(b, sep)
  {
    var s := a + [sep] + b;
    IndexOfAfter(a, [sep] + b, sep);
    Regroup(a, [sep], b);
    assert s[..|a|] == a;
    assert s[|a| + 1..] == b;
  }

  lemma SplitThree(a: string, b: string, c: string, sep: char)
    requires sep !in a && sep !in b && sep !in c
    ensures Split(a + [sep] + (b + [sep] + c), sep) == [a, b, c]
  {
    SplitAt(a, b + [sep] + c, sep);
    SplitAt(b, c, sep);
    SplitWhole(c, sep);
  }

  /** One query parameter as written: `key=value`. */
  function Pair(key: string, value: string): string {
    key + "=" + value
  }

  lemma ParamOf(key: string, value: string)
    requires '=' !in key
    ensures Param(Pair(key, value)) == (key, value)
  {
    var s := Pair(key, value);
    IndexOfAfter(key, "=" + value, '=');
    Regroup(key, "=", value);
    assert s[..|key|] == key;
    assert s[|key| + 1..] == value;
  }

  /** The literal pieces of the URL template, cut at '?', '&' and '='. */
  lemma TemplatePieces()
    ensures "/api/reports/stats?period=" == "/api/reports/stats" + "?" + "period" + "="
    ensures '?' !in "/api/reports/stats"
    ensures "&startDate=" == "&" + "startDate" + "="
    ensures "&endDate=" == "&" + "endDate" + "="
  {
  }

  /** Regrouping the statistics URL around its '?'; a fact about
      concatenation alone. */
  lemma RegroupPath(api: string, path: string, q: string, key: string, eq: string, v: string, t: string)
    ensures api + (path + q + key + eq) + v + t == (api + path) + (q + (key + eq + v + t))
  {
  }

  /** The query of a statistics URL is everything after the path's '?'. */
  lemma QueryOfStatsUrl(apiUrl: string, period: string, tail: string)
    requires '?' !in apiUrl
    ensures QueryOf(StatsPeriodUrl(apiUrl, period) + tail) == Pair("period", period) + tail
  {
    TemplatePieces();
    var head := apiUrl + "/api/reports/stats";
    var query := Pair("period", period) + tail;
    var url := StatsPeriodUrl(apiUrl, period) + tail;
    RegroupPath(apiUrl, "/api/reports/stats", "?", "period", "=", period, tail);
    assert url == head + ("?" + query);
    IndexOfAfter(head, "?" + query, '?');
    assert url[|head| + 1..] == query;
  }

  /** The parts of the statistics URL's query, as split at '&'. */
  function QueryParts(period: string, range: CustomRange): seq<string> {
    [Pair("period", period)]
    + (if period == CustomPeriod then [Pair("startDate", range.start), Pair("endDate", range.end)] else [])
  }

  /** Regrouping the custom tail `&k1=s&k2=e` around its separators; a fact
      about concatenation alone. */
  lemma RegroupTail(amp: string, eq: string, k1: string, s: string, k2: string, e: string)
    ensures amp + k1 + eq + s + (amp + k2 + eq) + e == amp + (k1 + eq + s + amp + (k2 + eq + e))
  {
  }

  /** The query of the custom period's URL, cut into its three parameters. */
  lemma CustomStatsQuery(apiUrl: string, range: CustomRange)
    requires '?' !in apiUrl
    ensures QueryOf(StatsUrl(apiUrl, CustomPeriod, range))
            == Pair("period", CustomPeriod) + ['&'] + (Pair("startDate", range.start) + ['&'] + Pair("endDate", range.end))
  {
    var p1, p2, p3 := Pair("period", CustomPeriod), Pair("startDate", range.start), Pair("endDate", range.end);
    var tail := "&startDate=" + range.start + "&endDate=" + range.end;
    TemplatePieces();
    RegroupTail("&", "=", "startDate", range.start, "endDate", range.end);
    assert tail == "&" + (p2 + "&" + p3);
    assert StatsUrl(apiUrl, CustomPeriod, range) == StatsPeriodUrl(apiUrl, CustomPeriod) + tail;
    QueryOfStatsUrl(apiUrl, CustomPeriod, tail);
    Regroup(p1, "&", p2 + "&" + p3);
  }

  /** The query of any other period's URL is its one parameter. */
  lemma PlainStatsQuery(apiUrl: string, period: string, range: CustomRange)
    requires '?' !in apiUrl && period != CustomPeriod
    ensures QueryOf(StatsUrl(apiUrl, period, range)) == Pair("period", period)
  {
    assert StatsUrl(apiUrl, period, range) == StatsPeriodUrl(apiUrl, period) + "";
    QueryOfStatsUrl(apiUrl, period, "");
    assert Pair("period", period) + "" == Pair("period", period);
  }

  /** The keys hold neither separator. */
  lemma KeysClean()
    ensures '&' !in "period" && '&' !in "startDate" && '&' !in "endDate" && '&' !in "="
    ensures '=' !in "period" && '=' !in "startDate" && '=' !in "endDate"
  {
  }

  lemma PairClean(key: string, value: string, sep: char)
    requires sep !in key && sep !in value && sep != '='
    ensures sep !in Pair(key, value)
  {
  }

  lemma CustomStatsUrlParts(apiUrl: string, range: CustomRange)
    requires '?' !in apiUrl
    requires '&' !in range.start && '&' !in range.end
    ensures Split(QueryOf(StatsUrl(apiUrl, CustomPeriod, range)), '&') == QueryParts(CustomPeriod, range)
  {
    KeysClean();
    PairClean("period", CustomPeriod, '&');
    PairClean("startDate", range.start, '&');
    PairClean("endDate", range.end, '&');
    CustomStatsQuery(apiUrl, range);
    SplitThree(Pair("period", CustomPeriod), Pair("startDate", range.start), Pair("endDate", range.end), '&');
  }

  lemma StatsUrlParts(apiUrl: string, period: string, range: CustomRange)
    requires '?' !in apiUrl
    requires '&' !in period
    requires period == CustomPeriod ==> '&' !in range.start && '&' !in range.end
    ensures Split(QueryOf(StatsUrl(apiUrl, period, range)), '&') == QueryParts(period, range)
  {
    if period == CustomPeriod {
      CustomStatsUrlParts(apiUrl, range);
    } else {
      KeysClean();
      PairClean("period", period, '&');
      PlainStatsQuery(apiUrl, period, range);
      SplitWhole(Pair("period", period), '&');
    }
  }

  /** Reading one parameter back from a query that is one part. */
  lemma OneParam(url: string, k: string, v: string)
    requires '=' !in k
    requires Split(QueryOf(url), '&') == [Pair(k, v)]
    ensures QueryParams(url) == [(k, v)]
  {
    ParamOf(k, v);
  }

  /** Reading three parameters back from a query of three parts. */
  lemma ThreeParams(url: string, k1: string, v1: string, k2: string, v2: string, k3: string, v3: string)
    requires '=' !in k1 && '=' !in k2 && '=' !in k3
    requires Split(QueryOf(url), '&') == [Pair(k1, v1), Pair(k2, v2), Pair(k3, v3)]
    ensures QueryParams(url) == [(k1, v1), (k2, v2), (k3, v3)]
  {
    ParamOf(k1, v1);
    ParamOf(k2, v2);
    ParamOf(k3, v3);
  }

  /** The parameters read back from a custom-period query. */
  lemma CustomParamsFromParts(url: string, range: CustomRange)
    requires Split(QueryOf(url), '&') == QueryParts(CustomPeriod, range)
    ensures QueryParams(url) == [("period", CustomPeriod), ("startDate", range.start), ("endDate", range.end)]
  {
    KeysClean();
    assert QueryParts(CustomPeriod, range)
           == [Pair("period", CustomPeriod), Pair("startDate", range.start), Pair("endDate", range.end)];
    ThreeParams(url, "period", CustomPeriod, "startDate", range.start, "endDate", range.end);
  }

  /** The parameters read back from any other period's query. */
  lemma PlainParamsFromParts(url: string, period: string, range: CustomRange)
    requires period != CustomPeriod
    requires Split(QueryOf(url), '&') == QueryParts(period, range)
    ensures QueryParams(url) == [("period", period)]
  {
    KeysClean();
    OneParam(url, "period", period);
  }

  /** The parameters read back from a query that splits into the parts the
      page builds. */
  lemma ParamsFromParts(url: string, period: string, range: CustomRange)
    requires Split(QueryOf(url), '&') == QueryParts(period, range)
    ensures QueryParams(url) ==
              [("period", period)]
              + (if period == CustomPeriod then [("startDate", range.start), ("endDate", range.end)] else [])
  {
    if period == CustomPeriod {
      CustomParamsFromParts(url, range);
    } else {
      PlainParamsFromParts(url, period, range);
    }
  }

  /** The request carries exactly the parameters the page means to send:
      `period`, and the two dates only for the custom period. Because no
      value is encoded, this holds only for values without '&' (true of the
      period buttons' values and of date-input values); the dates matter only
      for the custom period, the one that sends them. */
  lemma StatsUrlParams(apiUrl: string, period: string, range: CustomRange)
    requires '?' !in apiUrl
    requires '&' !in period
    requires period == CustomPeriod ==> '&' !in range.start && '&' !in range.end
    ensures QueryParams(StatsUrl(apiUrl, period, range)) ==
              [("period", period)]
              + (if period == CustomPeriod then [("startDate", range.start), ("endDate", range.end)] else [])
  {
    StatsUrlParts(apiUrl, period, range);
    ParamsFromParts(StatsUrl(apiUrl, period, range), period, range);
  }

  /* ---------- The statistics stored ---------- */

  /** The `dateRange` the server reports; either end may be null. */
  datatype DateRange = DateRange(start: Option<string>, end: Option<string>)

  /** The report payload: chart history and the hardware lists of the log. */
  datatype ReportData = ReportData(
    history: seq<Reading>,
    sensors: Option<seq<Asset>>,
    actuators: Option<seq<Asset>>)

  /** The `stats` state: the payload with its `dateRange`. */
  datatype ReportStats = ReportStats(data: ReportData, dateRange: DateRange)

  /** What the statistics request yields: it threw, or it answered
      `{ success, data, dateRange }`. */
  datatype StatsFetch =
    | Threw
    | Answered(success: bool, data: ReportData, dateRange: Option<DateRange>)

  /** The stats after a request: replaced on success, with a missing
      `dateRange` read as both ends null; kept otherwise. */
  function StatsAfter(old_stats: Option<ReportStats>, outcome: StatsFetch): (s: Option<ReportStats>)
    ensures !(outcome.Answered? && outcome.success) ==> s == old_stats
    ensures outcome.Answered? && outcome.success ==>
              s.Some? && s.value.data == outcome.data
              && (outcome.dateRange.Some? ==> s.value.dateRange == outcome.dateRange.value)
              && (outcome.dateRange.None? ==> s.value.dateRange == DateRange(None, None))
  {
    if outcome.Answered? && outcome.success
    then Some(ReportStats(outcome.data, outcome.dateRange.GetOr(DateRange(None, None))))
    else old_stats
  }

  /* ---------- The status log ---------- */

  datatype AssetClass = SensorClass | ActuatorClass

  /** One row of the operational status log: the name, the class column, the
      upper-cased status shown, and whether it is drawn green. */
  datatype StatusRow = StatusRow(name: string, cls: AssetClass, health: Option<string>, healthy: bool)

  predicate IsHealthyLabel(shown: string) {
    shown == "ACTIF" || shown == "ON" || shown == "WORKING"
  }

  function RowOf(a: Asset): (row: StatusRow)
    ensures row.name == a.name
    ensures row.cls == SensorClass <==> a.kind.Some? && a.kind.value != ""
    ensures row.health == (if a.status.Some? then Some(Upper(a.status.value)) else None)
    ensures row.healthy <==> a.status.Some? && IsHealthyLabel(Upper(a.status.value))
  {
    var health := if a.status.Some? then Some(Upper(a.status.value)) else None;
    StatusRow(a.name,
              if TruthyString(a.kind) then SensorClass else ActuatorClass,
              health,
              health.Some? && IsHealthyLabel(health.value))
  }

  /** `stats?.sensors?.concat(stats?.actuators || []).map(row)`: sensors then
      actuators; no rows at all without a sensors list. */
  function StatusRows(stats: Option<ReportStats>): (rows: seq<StatusRow>)
    ensures stats.None? || stats.value.data.sensors.None? ==> rows == []
    ensures stats.Some? && stats.value.data.sensors.Some? ==>
              var ss := stats.value.data.sensors.value;
              var acts := stats.value.data.actuators.GetOr([]);
              && |rows| == |ss| + |acts|
              && (forall i :: 0 <= i < |ss| ==> rows[i] == RowOf(ss[i]))
              && (forall i :: 0 <= i < |acts| ==> rows[|ss| + i] == RowOf(acts[i]))
  {
    if stats.None? || stats.value.data.sensors.None? then []
    else
      var entries := stats.value.data.sensors.value + stats.value.data.actuators.GetOr([]);
      seq(|entries|, i requires 0 <= i < |entries| => RowOf(entries[i]))
  }

  /** The log's health colour ignores how the status is cased. */
  lemma HealthIgnoresCase(a: Asset, status: string)
    requires a.status == Some(status)
    ensures RowOf(a).healthy == RowOf(a.(status := Some(Upper(status)))).healthy
    ensures RowOf(a).healthy == RowOf(a.(status := Some(Lower(status)))).healthy
  {
    UpperIdempotent(status);
    UpperIgnoresCase(status);
  }

  /* ---------- Placing the raster on the page ---------- */

  /** The rectangle `addImage` draws into: offsets and size. */
  datatype Placement = Placement(x: real, y: real, width: real, height: real)

  function Min(a: real, b: real): real {
    if a <= b then a else b
  }

  /** The reference contain-fit: scale the raster by the largest factor that
      keeps both sides on the page, and centre it. */
  function ContainFit(imgW: real, imgH: real, pageW: real, pageH: real): (p: Placement)
    requires imgW > 0.0 && imgH > 0.0 && pageW > 0.0 && pageH > 0.0
    ensures 0.0 < p.width <= pageW && 0.0 < p.height <= pageH
    ensures p.width * imgH == p.height * imgW
    ensures p.width == pageW || p.height == pageH
    ensures p.x >= 0.0 && p.y >= 0.0
    ensures 2.0 * p.x + p.width == pageW && 2.0 * p.y + p.height == pageH
  {
    var s := Min(pageW / imgW, pageH / imgH);
    assert s * imgW <= pageW && s * imgH <= pageH by {
      assert (pageW / imgW) * imgW == pageW;
      assert (pageH / imgH) * imgH == pageH;
      MulLeq(s, pageW / imgW, imgW);
      MulLeq(s, pageH / imgH, imgH);
    }
    Placement((pageW - s * imgW) / 2.0, (pageH - s * imgH) / 2.0, s * imgW, s * imgH)
  }

  lemma MulLeq(a: real, b: real, c: real)
    requires a <= b && c > 0.0
    ensures a * c <= b * c
  {
  }

  /** No rectangle of the raster's proportions that fits on the page is
      larger than the contain-fit one. */
  lemma ContainFitIsLargest(imgW: real, imgH: real, pageW: real, pageH: real, w: real, h: real)
    requires imgW > 0.0 && imgH > 0.0 && pageW > 0.0 && pageH > 0.0
    requires w > 0.0 && h > 0.0 && w * imgH == h * imgW && w <= pageW && h <= pageH
    ensures w <= ContainFit(imgW, imgH, pageW, pageH).width
    ensures h <= ContainFit(imgW, imgH, pageW, pageH).height
  {
    var p := ContainFit(imgW, imgH, pageW, pageH);
    var k := w / imgW;
    assert w == k * imgW;
    assert h == k * imgH by {
      assert h * imgW == k * imgW * imgH;
    }
    var s := Min(pageW / imgW, pageH / imgH);
    assert k <= pageW / imgW by {
      assert k * imgW <= pageW;
    }
    assert k <= pageH / imgH by {
      assert k * imgH <= pageH;
    }
    assert k <= s;
    MulLeq(k, s, imgW);
    MulLeq(k, s, imgH);
  }

  lemma DivRatio(a: real, w: real, h: real)
    requires w > 0.0 && h > 0.0
    ensures a / (w / h) == (a / w) * h
  {
  }

  lemma MulRatio(a: real, w: real, h: real)
    requires w > 0.0 && h > 0.0
    ensures a * (w / h) == (a / h) * w
  {
  }

  /** When the width-filling size fits, it is the contain-fit. */
  lemma WidthFills(imgW: real, imgH: real, pageW: real, pageH: real)
    requires imgW > 0.0 && imgH > 0.0 && pageW > 0.0 && pageH > 0.0
    requires pageW / (imgW / imgH) <= pageH
    ensures ContainFit(imgW, imgH, pageW, pageH)
            == Placement((pageW - pageW) / 2.0, (pageH - pageW / (imgW / imgH)) / 2.0, pageW, pageW / (imgW / imgH))
  {
    DivRatio(pageW, imgW, imgH);
    assert pageW / imgW <= pageH / imgH by {
      assert (pageW / imgW) * imgH <= pageH;
    }
    assert (pageW / imgW) * imgW == pageW;
  }

  /** When the width-filling size is too tall, the height-filling one is the
      contain-fit, and it does not fill the width. */
  lemma HeightFills(imgW: real, imgH: real, pageW: real, pageH: real)
    requires imgW > 0.0 && imgH > 0.0 && pageW > 0.0 && pageH > 0.0
    requires pageW / (imgW / imgH) > pageH
    ensures ContainFit(imgW, imgH, pageW, pageH)
            == Placement((pageW - pageH * (imgW / imgH)) / 2.0, (pageH - pageH) / 2.0, pageH * (imgW / imgH), pageH)
    ensures pageH * (imgW / imgH) != pageW
  {
    DivRatio(pageW, imgW, imgH);
    MulRatio(pageH, imgW, imgH);
    assert pageH / imgH < pageW / imgW by {
      assert (pageW / imgW) * imgH > pageH;
    }
    assert (pageH / imgH) * imgH == pageH;
    assert (pageH / imgH) * imgW < pageW by {
      MulLeq(pageH / imgH, pageW / imgW, imgW);
      assert (pageW / imgW) * imgW == pageW;
    }
  }

  /** `handleDownloadPDF`'s placement arithmetic, as the handler performs it:
      the width-filling size first, replaced by the height-filling one when
      it is too tall. It computes the reference contain-fit, and takes the
      width-filling branch exactly when `pdfWidth / ratio <= pdfHeight`. */
  method PlaceImage(imgW: real, imgH: real, pdfWidth: real, pdfHeight: real)
    returns (marginX: real, marginY: real, finalWidth: real, finalHeight: real)
    requires imgW > 0.0 && imgH > 0.0 && pdfWidth > 0.0 && pdfHeight > 0.0
    ensures Placement(marginX, marginY, finalWidth, finalHeight) == ContainFit(imgW, imgH, pdfWidth, pdfHeight)
    ensures finalWidth == pdfWidth <==> pdfWidth / (imgW / imgH) <= pdfHeight
    ensures finalWidth != pdfWidth ==> finalHeight == pdfHeight
  {
    var ratio := imgW / imgH;
    finalWidth := pdfWidth;
    finalHeight := pdfWidth / ratio;
    if finalHeight > pdfHeight {
      finalHeight := pdfHeight;
      finalWidth := finalHeight * ratio;
      HeightFills(imgW, imgH, pdfWidth, pdfHeight);
    } else {
      WidthFills(imgW, imgH, pdfWidth, pdfHeight);
    }
    marginX := (pdfWidth - finalWidth) / 2.0;
    marginY := (pdfHeight - finalHeight) / 2.0;
  }

  /** A wide raster fills the width and is centred vertically. */
  lemma WideRasterExample()
    ensures ContainFit(1600.0, 900.0, 1200.0, 800.0) == Placement(0.0, 62.5, 1200.0, 675.0)
  {
  }

  /** A tall raster fills the height and is centred horizontally. */
  lemma TallRasterExample()
    ensures ContainFit(900.0, 1600.0, 1200.0, 800.0) == Placement(375.0, 0.0, 450.0, 800.0)
  {
  }

  /* ---------- The file name ---------- */

  const FilePrefix := "Aquarium_Audit_HighFidelity_"

  /** `iso.split('T')[0]`: the timestamp up to its first 'T'. */
  function DatePart(iso: string): (d: string)
    ensures d <= iso && 'T' !in d
    ensures |d| < |iso| ==> iso[|d|] == 'T'
  {
    iso[..IndexOf(iso, 'T')]
  }

  /** The name `pdf.save` is given. The date between the fixed prefix and the
      extension can be read back from it. */
  function PdfFileName(nowIso: string): (name: string)
    ensures |name| == |FilePrefix| + |DatePart(nowIso)| + 4
    ensures name[..|FilePrefix|] == FilePrefix
    ensures name[|name| - 4..] == ".pdf"
    ensures name[|FilePrefix|..|name| - 4] == DatePart(nowIso)
    ensures 'T' !in name
  {
    FilePrefix + DatePart(nowIso) + ".pdf"
  }

  /** For an ISO-8601 timestamp (`YYYY-MM-DDTHH:mm:ss.sssZ`) the name carries
      its first ten characters, the calendar date. */
  lemma IsoTimestampFileName(nowIso: string)
    requires |nowIso| > 10 && nowIso[10] == 'T' && 'T' !in nowIso[..10]
    ensures PdfFileName(nowIso) == FilePrefix + nowIso[..10] + ".pdf"
    ensures |PdfFileName(nowIso)| == 42
  {
  }

  /* ---------- The page ---------- */

  /** What became of the export after the settling delay: rasterising or
      writing failed, or html2canvas produced a raster of this size. */
  datatype ExportStep = ExportFailed | Rasterized(width: real, height: real)

  /** The saved document: its name and where the raster sits on the page. */
  datatype PdfFile = PdfFile(name: string, placement: Placement)

  /** The reports page's state cells. The ghost `running` counts the
      download handlers started and not yet finished. */
  class ReportsPage {
    var stats: Option<ReportStats>
    var loading: bool
    var period: string
    var customRange: CustomRange
    var isDownloading: bool
    ghost var running: nat

    /** While only the button starts exports, at most one runs, and the flag
        says whether one does. */
    ghost predicate Valid()
      reads this
    {
      running <= 1 && (isDownloading <==> running == 1)
    }

    /** The initial state: period "custom" over the week up to now (the two
        timestamps are the clock's, cut to their dates). */
    constructor (nowIso: string, weekAgoIso: string)
      ensures Valid() && running == 0
      ensures stats == None && loading && period == CustomPeriod && !isDownloading
      ensures customRange == CustomRange(DatePart(weekAgoIso), DatePart(nowIso))
    {
      stats := None;
      loading := true;
      period := CustomPeriod;
      customRange := CustomRange(DatePart(weekAgoIso), DatePart(nowIso));
      isDownloading := false;
      running := 0;
    }

    /** `fetchStats`: request the current period's statistics; store them
        on success, keep them otherwise; `loading` ends false. */
    method FetchStats(apiUrl: string, outcome: StatsFetch) returns (url: string)
      modifies this
      ensures url == StatsUrl(apiUrl, old(period), old(customRange))
      ensures stats == StatsAfter(old(stats), outcome)
      ensures !loading
      ensures period == old(period) && customRange == old(customRange)
      ensures isDownloading == old(isDownloading) && running == old(running)
    {
      loading := true;
      url := BuildStatsUrl(apiUrl, period, customRange);
      if outcome.Answered? && outcome.success {
        stats := Some(ReportStats(outcome.data, outcome.dateRange.GetOr(DateRange(None, None))));
      }
      loading := false;
    }

    /** A period button: the period is selected, and the effect on `period`
        refetches only when the value actually changed. */
    method SelectPeriod(apiUrl: string, p: string, outcome: StatsFetch) returns (url: Option<string>)
      modifies this
      ensures period == p && customRange == old(customRange)
      ensures old(period) == p ==> url == None && stats == old(stats) && loading == old(loading)
      ensures old(period) != p ==>
                url == Some(StatsUrl(apiUrl, p, old(customRange)))
                && stats == StatsAfter(old(stats), outcome) && !loading
      ensures isDownloading == old(isDownloading) && running == old(running)
    {
      if p == period {
        url := None;
      } else {
        period := p;
        var u := FetchStats(apiUrl, outcome);
        url := Some(u);
      }
    }

    /** The start-date input. */
    method SetStartDate(start: string)
      modifies this
      ensures customRange == old(customRange).(start := start)
      ensures stats == old(stats) && loading == old(loading) && period == old(period)
      ensures isDownloading == old(isDownloading) && running == old(running)
    {
      customRange := customRange.(start := start);
    }

    /** The end-date input. */
    method SetEndDate(end: string)
      modifies this
      ensures customRange == old(customRange).(end := end)
      ensures stats == old(stats) && loading == old(loading) && period == old(period)
      ensures isDownloading == old(isDownloading) && running == old(running)
    {
      customRange := customRange.(end := end);
    }

    /** `disabled={isDownloading}`. */
    function DownloadEnabled(): (enabled: bool)
      reads this
      ensures enabled <==> !isDownloading
      ensures Valid() ==> (enabled <==> running == 0)
    {
      !isDownloading
    }

    /** The first half of `handleDownloadPDF`, up to its first await: with
        no capture target it returns at once; otherwise it raises the flag.
        It does not check the flag itself. */
    method BeginDownload(hasTarget: bool) returns (started: bool)
      modifies this
      ensures started == hasTarget
      ensures isDownloading == (hasTarget || old(isDownloading))
      ensures running == old(running) + (if hasTarget then 1 else 0)
      ensures stats == old(stats) && loading == old(loading)
      ensures period == old(period) && customRange == old(customRange)
    {
      if !hasTarget {
        return false;
      }
      isDownloading := true;
      running := running + 1;
      started := true;
    }

    /** The rest of `handleDownloadPDF`: on a raster, place it on the page and
        save it under the dated name; on any failure save nothing. Either
        way the flag is lowered. */
    method CompleteDownload(step: ExportStep, pdfWidth: real, pdfHeight: real, nowIso: string)
      returns (file: Option<PdfFile>)
      requires running > 0
      requires step.Rasterized? ==> step.width > 0.0 && step.height > 0.0
      requires pdfWidth > 0.0 && pdfHeight > 0.0
      modifies this
      ensures !isDownloading && running == old(running) - 1
      ensures file.Some? <==> step.Rasterized?
      ensures step.Rasterized? ==>
                file.value.name == PdfFileName(nowIso)
                && file.value.placement == ContainFit(step.width, step.height, pdfWidth, pdfHeight)
      ensures stats == old(stats) && loading == old(loading)
      ensures period == old(period) && customRange == old(customRange)
    {
      match step {
        case ExportFailed =>
          file := None;
        case Rasterized(w, h) =>
          var x, y, fw, fh := PlaceImage(w, h, pdfWidth, pdfHeight);
          file := Some(PdfFile(PdfFileName(nowIso), Placement(x, y, fw, fh)));
      }
      isDownloading := false;
      running := running - 1;
    }

    /** A click on the download button: a disabled button ignores it, so a
        second export never starts while one runs. */
    method ClickDownload(hasTarget: bool) returns (started: bool)
      requires Valid()
      modifies this
      ensures Valid()
      ensures started <==> old(DownloadEnabled()) && hasTarget
      ensures started ==> isDownloading && running == old(running) + 1
      ensures !started ==> isDownloading == old(isDownloading) && running == old(running)
      ensures stats == old(stats) && loading == old(loading)
      ensures period == old(period) && customRange == old(customRange)
    {
      if DownloadEnabled() {
        started := BeginDownload(hasTarget);
      } else {
        started := false;
      }
    }
  }
}
