/**
 * src/commands/f1.js: the `/f1 check type:stats` command. It fetches the
 * last race's results, renders them as text (race header, podium, a padded
 * results table and the fastest lap) and edits the deferred reply. The HTTP
 * request and the XML parsing are represented by their outcome: the parsed
 * race, or the error either step threw. A result's fields are taken where
 * the code reads them.
 */
module F1 {
  import opened Wrappers
  import opened JsText
  import opened Errors

  const FetchFailedText := "Failed to fetch F1 data. " + "Please try again later."
  const ErrorReplyText := "❌ Sorry, there was an error fetching F1 data. " + "Please try again later."

  datatype Lap = Lap(lap: string, time: string, averageSpeed: string, units: string)

  /** One `Result` entry; `time` is `Time._` when the entry has a Time. */
  datatype RaceResult = RaceResult(position: string, points: string, givenName: string, familyName: string,
                                   constructorName: string, time: Option<string>, status: string,
                                   fastestLap: Option<Lap>)

  datatype Race = Race(raceName: string, circuitName: string, locality: string, country: string, date: string,
                       results: seq<RaceResult>)

  // ---------------------------------------------------------------- fetchF1Data

  /** `fetchF1Data()`: every failure of the request or the parse becomes one fixed error. */
  function FetchF1Data(response: Result<Race, Error>): (r: Result<Race, Error>)
    ensures r.Ok? <==> response.Ok?
    ensures r.Ok? ==> r == response
    ensures r.Err? ==> r.error == PlainError(FetchFailedText)
  {
    match response
    case Ok(race) => Ok(race)
    case Err(_) => Err(PlainError(FetchFailedText))
  }

  // ---------------------------------------------------------------- formatting

  /** `formatTime(timeStr)`: the value when truthy, else 'N/A'. */
  function FormatTime(t: Option<string>): (r: string)
    ensures Truthy(t) ==> r == t.value
    ensures !Truthy(t) ==> r == "N/A"
  {
    Or(t, "N/A")
  }

  /** `result.Time ? result.Time._ : result.Status` */
  function TimeOrStatus(r: RaceResult): string
  {
    if r.time.Some? then r.time.value else r.status
  }

  function DriverName(r: RaceResult): string
  {
    r.givenName + " " + r.familyName
  }

  function RaceInfo(race: Race): string
  {
    "🏎️ **" + race.raceName + "**\n" +
    "🏁 Circuit: " + race.circuitName + "\n" +
    "📍 Location: " + race.locality + ", " + race.country + "\n" +
    "📅 Date: " + race.date + "\n\n"
  }

  const PodiumHeader := "🏆 **Podium**\n"

  /** The podium line of the entry in place `i` (0-based). */
  function PodiumLine(i: nat, r: RaceResult): string
  {
    NatToString(i + 1) + ". " + DriverName(r) + " (" + r.constructorName + ") " +
    "- " + FormatTime(if r.time.Some? then r.time else Some(r.status)) + "\n"
  }

  /** The podium after its first `n` lines. */
  function PodiumUpTo(results: seq<RaceResult>, n: nat): string
    requires n <= |results|
  {
    if n == 0 then PodiumHeader else PodiumUpTo(results, n - 1) + PodiumLine(n - 1, results[n - 1])
  }

  const TableHeader := "\n📊 **Full Results**\n```\n" + "Pos  Driver                  Time/Status          Points\n"
  const RuleLine := "──────────────────" + "──────────────────" + "──────────────────" + "\n"

  /** One results-table row: position padded to 2 on the left, driver to 20 and time to 18 on the right, points to 3 on the left. */
  function Row(r: RaceResult): string
  {
    Columns(PadStart(r.position, 2), PadEnd(DriverName(r), 20), PadEnd(TimeOrStatus(r), 18), PadStart(r.points, 3))
  }

  /** `${position}   ${driverName} ${timeStatus} ${points}\n` */
  function Columns(position: string, driver: string, time: string, points: string): string
  {
    position + "   " + driver + " " + time + " " + points + "\n"
  }

  /** Where each column of a row lies. */
  lemma {:induction false} ColumnsLayout(position: string, driver: string, time: string, points: string)
    ensures var row := Columns(position, driver, time, points);
            |row| == |position| + |driver| + |time| + |points| + 6 &&
            row[..|position|] == position &&
            row[|position| + 3..|position| + 3 + |driver|] == driver &&
            row[|position| + 4 + |driver|..|position| + 4 + |driver| + |time|] == time &&
            row[|row| - 1 - |points|..|row| - 1] == points &&
            row[|row| - 1] == '\n'
  {
    var x2 := position + "   " + driver;
    var x4 := x2 + " " + time;
    var x6 := x4 + " " + points;
    assert x2[..|position|] == position && x2[|position| + 3..] == driver;
    assert x4[..|x2|] == x2 && x4[|x2| + 1..] == time;
    assert x6[..|x4|] == x4 && x6[|x4| + 1..] == points;
    assert Columns(position, driver, time, points) == x6 + "\n";
  }

  /** The rows of `results`, in order. */
  function Rows(results: seq<RaceResult>): string
  {
    if |results| == 0 then "" else Rows(results[..|results| - 1]) + Row(results[|results| - 1])
  }

  /** The full results: header, rule, one row per result, and the closing code fence. */
  function Table(results: seq<RaceResult>): string
  {
    TableHeader + RuleLine + Rows(results) + "```\n"
  }

  /** One step of the fastest-lap `reduce`; `faster(a, b)` is the comparison of two lap times. */
  function Step(fastest: RaceResult, current: RaceResult, faster: (string, string) -> bool): (r: RaceResult)
    ensures r == fastest || r == current
    ensures fastest.fastestLap.Some? ==> r.fastestLap.Some?
    ensures r != fastest ==> current.fastestLap.Some? || fastest.fastestLap.None?
  {
    if fastest.fastestLap.None? then current
    else if current.fastestLap.None? then fastest
    else if faster(current.fastestLap.value.time, fastest.fastestLap.value.time) then current
    else fastest
  }

  function Fold(acc: RaceResult, rest: seq<RaceResult>, faster: (string, string) -> bool): (r: RaceResult)
    ensures r == acc || r in rest
    ensures acc.fastestLap.Some? ==> r.fastestLap.Some?
    decreases |rest|
  {
    if |rest| == 0 then acc else Fold(Step(acc, rest[0], faster), rest[1..], faster)
  }

  /** `results.reduce(...)` with no initial value: the first entry starts the fold. */
  function FastestEntry(results: seq<RaceResult>, faster: (string, string) -> bool): (r: RaceResult)
    requires |results| > 0
    ensures r in results
    ensures r.fastestLap.Some? <==> exists i :: 0 <= i < |results| && results[i].fastestLap.Some?
  {
    FoldPicksLapHolder(results[0], results[1..], faster);
    assert forall i :: 0 <= i < |results| - 1 ==> results[1..][i] == results[i + 1];
    Fold(results[0], results[1..], faster)
  }

  function FastestLapInfo(e: RaceResult): string
  {
    "⚡ **Fastest Lap**\n" +
    if e.fastestLap.None? then ""
    else
      var lap := e.fastestLap.value;
      DriverName(e) + " - " + lap.time + "\n" +
      "Lap: " + lap.lap + " | Avg Speed: " + lap.averageSpeed + " " + lap.units + "\n"
  }

  /** What reading `Driver` of a missing podium entry throws. */
  const MissingEntry := External("TypeError", "Cannot read properties of undefined (reading 'Driver')", None)

  /** `createRaceEmbed(data)`: fewer than three results make the podium loop throw. */
  function RaceEmbed(race: Race, faster: (string, string) -> bool): (r: Result<string, Error>)
    ensures r.Ok? <==> |race.results| >= 3
    ensures r.Err? ==> r.error == MissingEntry
  {
    var results := race.results;
    if |results| < 3 then Err(MissingEntry)
    else Ok(RaceInfo(race) + PodiumUpTo(results, 3) + "\n" + Table(results) + "\n" + FastestLapInfo(FastestEntry(results, faster)))
  }

  /** The podium loop of `createRaceEmbed`: it throws on reaching a missing entry. */
  method BuildPodium(results: seq<RaceResult>) returns (r: Result<string, Error>)
    ensures |results| < 3 ==> r == Err(MissingEntry)
    ensures |results| >= 3 ==> r == Ok(PodiumUpTo(results, 3))
  {
    var podium := PodiumHeader;
    for i := 0 to 3
      invariant i <= |results|
      invariant podium == PodiumUpTo(results, i)
    {
      if i >= |results| {
        return Err(MissingEntry);
      }
      podium := podium + PodiumLine(i, results[i]);
    }
    r := Ok(podium);
  }

  /** The `forEach` of `createRaceEmbed` that appends one row per result. */
  method BuildRows(results: seq<RaceResult>) returns (rows: string)
    ensures rows == Rows(results)
  {
    rows := "";
    assert Rows(results[..0]) == rows;
    for i := 0 to |results|
      invariant rows == Rows(results[..i])
    {
      assert results[..i + 1][..i] == results[..i] && results[..i + 1][i] == results[i];
      rows := rows + Row(results[i]);
    }
    assert results[..|results|] == results;
  }

  method CreateRaceEmbed(race: Race, faster: (string, string) -> bool) returns (r: Result<string, Error>)
    ensures r == RaceEmbed(race, faster)
  {
    var results := race.results;
    var raceInfo := RaceInfo(race);
    var podium := BuildPodium(results);
    if podium.Err? {
      return Err(podium.error);
    }
    var rows := BuildRows(results);
    var fullResults := TableHeader + RuleLine + rows + "```\n";
    var fastestLap := FastestEntry(results, faster);
    var fastestLapInfo := FastestLapInfo(fastestLap);
    r := Ok(raceInfo + podium.value + "\n" + fullResults + "\n" + fastestLapInfo);
  }

  // ---------------------------------------------------------------- lap-time comparison

  /** The leading run of decimal digits. */
  function LeadingDigits(s: string): (d: string)
    ensures AllDigits(d) && d <= s
  {
    if |s| > 0 && IsDigit(s[0]) then [s[0]] + LeadingDigits(s[1..]) else ""
  }

  /**
   * `parseFloat(t)` on a lap time of the form 'm:ss.sss': the number read
   * ends at the colon, so it is the minutes alone; `None` is NaN.
   */
  function ParseFloatOfLapTime(t: string): Option<nat>
  {
    var d := LeadingDigits(t);
    if d == "" then None else Some(DigitsValue(d))
  }

  /** The comparison as written: `parseFloat(a) < parseFloat(b)`, false when either is NaN. */
  predicate AsWrittenFaster(a: string, b: string)
  {
    var x := ParseFloatOfLapTime(a);
    var y := ParseFloatOfLapTime(b);
    x.Some? && y.Some? && x.value < y.value
  }

  /** A lap time 'm:ss.sss' in milliseconds; `None` when it has another form. */
  function LapMillis(t: string): Option<nat>
  {
    var parts := Split(t, ':');
    if |parts| != 2 then None
    else
      var seconds := Split(parts[1], '.');
      if |seconds| == 2 && |parts[0]| > 0 && AllDigits(parts[0]) && |seconds[0]| == 2 && AllDigits(seconds[0]) &&
         |seconds[1]| == 3 && AllDigits(seconds[1])
      then Some(DigitsValue(parts[0]) * 60000 + DigitsValue(seconds[0]) * 1000 + DigitsValue(seconds[1]))
      else None
  }

  /** The intended comparison: by the whole time, a readable time before an unreadable one. */
  predicate CorrectedFaster(a: string, b: string)
  {
    var x := LapMillis(a);
    var y := LapMillis(b);
    x.Some? && (y.None? || x.value < y.value)
  }

  /** What a minimum-finding fold needs of its comparison. */
  ghost predicate StrictWeakOrder(faster: (string, string) -> bool)
  {
    (forall a :: !faster(a, a)) &&
    (forall a, b, c :: faster(a, b) && faster(b, c) ==> faster(a, c)) &&
    (forall a, b, c :: !faster(a, b) && !faster(b, c) ==> !faster(a, c))
  }

  // ---------------------------------------------------------------- the command

  datatype Call = DeferCall | EditCall(content: string, ephemeral: bool, suppressMentions: bool)

  /** Which Discord calls throw: `deferReply`, the results edit, the error edit. */
  datatype Faults = Faults(defer: Option<Error>, edit: Option<Error>, errorEdit: Option<Error>)

  /** The calls made, and the error `execute` throws, if any. */
  datatype Outcome = Outcome(calls: seq<Call>, thrown: Option<Error>)

  /** `execute(interaction)`; `optionType` is the `type` option, `fetched` the request and parse outcome. */
  function Execute(optionType: Option<string>, fetched: Result<Race, Error>, faults: Faults,
                   faster: (string, string) -> bool): (o: Outcome)
    ensures optionType != Some("stats") ==> o == Outcome([], None)
    ensures optionType == Some("stats") ==> |o.calls| >= 1 && o.calls[0] == DeferCall
    ensures o.thrown.Some? ==> o.thrown == faults.defer || o.thrown == faults.errorEdit
    ensures (|o.calls| >= 2 && o.calls[1].EditCall? && !o.calls[1].ephemeral) <==>
              optionType == Some("stats") && faults.defer.None? && FetchF1Data(fetched).Ok? &&
              RaceEmbed(FetchF1Data(fetched).value, faster).Ok?
    ensures |o.calls| >= 2 && o.calls[1].EditCall? && !o.calls[1].ephemeral ==>
              o.calls[1] == EditCall(RaceEmbed(FetchF1Data(fetched).value, faster).value, false, true)
  {
    if optionType != Some("stats") then Outcome([], None)
    else if faults.defer.Some? then Outcome([DeferCall], faults.defer)
    else
      var data := FetchF1Data(fetched);
      var embed := if data.Ok? then RaceEmbed(data.value, faster) else Err(data.error);
      var failure := [EditCall(ErrorReplyText, true, false)];
      match embed
      case Ok(text) =>
        if faults.edit.None? then Outcome([DeferCall, EditCall(text, false, true)], None)
        else Outcome([DeferCall, EditCall(text, false, true)] + failure, faults.errorEdit)
      case Err(_) => Outcome([DeferCall] + failure, faults.errorEdit)
  }

  // ---------------------------------------------------------------- properties

  /** `formatTime` never yields the empty text, and formatting twice changes nothing. */
  lemma FormatTimeIdempotent(t: Option<string>)
    ensures FormatTime(t) != ""
    ensures FormatTime(Some(FormatTime(t))) == FormatTime(t)
  {
  }

  /** The podium is the header and the lines of results 0, 1 and 2, numbered 1 to 3; later results do not matter. */
  lemma {:induction false} PodiumIsTopThree(results: seq<RaceResult>)
    requires |results| >= 3
    ensures PodiumUpTo(results, 3) ==
            PodiumHeader + PodiumLine(0, results[0]) + PodiumLine(1, results[1]) + PodiumLine(2, results[2])
    ensures PodiumUpTo(results, 3) == PodiumUpTo(results[..3], 3)
    ensures forall i :: 0 <= i < 3 ==> PodiumLine(i, results[i])[..3] == [DigitChar(i + 1)] + ". "
  {
    assert NatToString(1) == "1" && NatToString(2) == "2" && NatToString(3) == "3";
    var top := results[..3];
    assert top[0] == results[0] && top[1] == results[1] && top[2] == results[2];
    assert PodiumUpTo(top, 0) == PodiumHeader == PodiumUpTo(results, 0);
    assert PodiumUpTo(top, 1) == PodiumUpTo(top, 0) + PodiumLine(0, top[0]);
    assert PodiumUpTo(results, 1) == PodiumUpTo(results, 0) + PodiumLine(0, results[0]);
    assert PodiumUpTo(top, 2) == PodiumUpTo(top, 1) + PodiumLine(1, top[1]);
    assert PodiumUpTo(results, 2) == PodiumUpTo(results, 1) + PodiumLine(1, results[1]);
  }

  /** Fewer than three results is the TypeError of the podium loop. */
  lemma TooFewResultsThrow(race: Race, faster: (string, string) -> bool)
    requires |race.results| < 3
    ensures RaceEmbed(race, faster) == Err(MissingEntry)
  {
  }

  /**
   * A row whose fields fit their columns is 49 characters wide, each field
   * in a fixed column: position right-aligned in 0-1, driver from 5, time
   * from 26, points right-aligned in 45-47.
   */
  lemma {:induction false} RowColumns(r: RaceResult)
    requires |r.position| <= 2 && |DriverName(r)| <= 20 && |TimeOrStatus(r)| <= 18 && |r.points| <= 3
    ensures |Row(r)| == 49 && Row(r)[48] == '\n'
    ensures Row(r)[2 - |r.position|..2] == r.position
    ensures Row(r)[5..5 + |DriverName(r)|] == DriverName(r)
    ensures Row(r)[26..26 + |TimeOrStatus(r)|] == TimeOrStatus(r)
    ensures Row(r)[48 - |r.points|..48] == r.points
  {
    var a := PadStart(r.position, 2);
    var b := PadEnd(DriverName(r), 20);
    var c := PadEnd(TimeOrStatus(r), 18);
    var d := PadStart(r.points, 3);
    PositionColumn(r.position, b, c, d);
    DriverColumn(a, DriverName(r), c, d);
    TimeColumn(a, b, TimeOrStatus(r), d);
    PointsColumn(a, b, c, r.points);
  }

  lemma {:induction false} PositionColumn(position: string, b: string, c: string, d: string)
    requires |position| <= 2
    ensures Columns(PadStart(position, 2), b, c, d)[2 - |position|..2] == position
  {
    var row := Columns(PadStart(position, 2), b, c, d);
    ColumnsLayout(PadStart(position, 2), b, c, d);
    SliceOfSlice(row, 0, 2, 2 - |position|, 2);
  }

  lemma {:induction false} DriverColumn(a: string, driver: string, c: string, d: string)
    requires |a| == 2 && |driver| <= 20
    ensures Columns(a, PadEnd(driver, 20), c, d)[5..5 + |driver|] == driver
  {
    var row := Columns(a, PadEnd(driver, 20), c, d);
    ColumnsLayout(a, PadEnd(driver, 20), c, d);
    SliceOfSlice(row, 5, 25, 0, |driver|);
  }

  lemma {:induction false} TimeColumn(a: string, b: string, time: string, d: string)
    requires |a| == 2 && |b| == 20 && |time| <= 18
    ensures Columns(a, b, PadEnd(time, 18), d)[26..26 + |time|] == time
  {
    var row := Columns(a, b, PadEnd(time, 18), d);
    ColumnsLayout(a, b, PadEnd(time, 18), d);
    SliceOfSlice(row, 26, 44, 0, |time|);
  }

  lemma {:induction false} PointsColumn(a: string, b: string, c: string, points: string)
    requires |a| == 2 && |b| == 20 && |c| == 18 && |points| <= 3
    ensures Columns(a, b, c, PadStart(points, 3))[48 - |points|..48] == points
  {
    var row := Columns(a, b, c, PadStart(points, 3));
    ColumnsLayout(a, b, c, PadStart(points, 3));
    SliceOfSlice(row, 45, 48, 3 - |points|, 3);
  }

  lemma {:induction false} SliceOfSlice(s: string, i: nat, j: nat, k: nat, l: nat)
    requires i <= j <= |s| && k <= l <= j - i
    ensures s[i..j][k..l] == s[i + k..i + l]
  {
    var u, v := s[i..j][k..l], s[i + k..i + l];
    assert |u| == |v|;
    forall t | 0 <= t < |u|
      ensures u[t] == v[t]
    {
      assert u[t] == s[i..j][k + t] == s[i + k + t];
    }
  }

  /** Padding never shortens: the position and the driver appear whole in a row, whatever their length. */
  lemma {:induction false} RowKeepsFields(r: RaceResult)
    ensures var a := |PadStart(r.position, 2)|;
            |Row(r)| >= 49 &&
            Row(r)[a - |r.position|..a] == r.position &&
            Row(r)[a + 3..a + 3 + |DriverName(r)|] == DriverName(r)
  {
    KeptFields(r.position, DriverName(r), PadEnd(TimeOrStatus(r), 18), PadStart(r.points, 3));
  }

  lemma {:induction false} KeptFields(position: string, driver: string, c: string, d: string)
    requires |c| >= 18 && |d| >= 3
    ensures var a := |PadStart(position, 2)|;
            var row := Columns(PadStart(position, 2), PadEnd(driver, 20), c, d);
            |row| >= 49 && row[a - |position|..a] == position && row[a + 3..a + 3 + |driver|] == driver
  {
    var a := PadStart(position, 2);
    var b := PadEnd(driver, 20);
    ColumnsLayout(a, b, c, d);
    KeptPosition(position, b, c, d);
    KeptDriver(a, driver, c, d);
  }

  lemma {:induction false} KeptPosition(position: string, b: string, c: string, d: string)
    ensures var a := PadStart(position, 2);
            Columns(a, b, c, d)[|a| - |position|..|a|] == position
  {
    var a := PadStart(position, 2);
    var row := Columns(a, b, c, d);
    ColumnsLayout(a, b, c, d);
    SliceOfSlice(row, 0, |a|, |a| - |position|, |a|);
  }

  lemma {:induction false} KeptDriver(a: string, driver: string, c: string, d: string)
    ensures var b := PadEnd(driver, 20);
            Columns(a, b, c, d)[|a| + 3..|a| + 3 + |driver|] == driver
  {
    var b := PadEnd(driver, 20);
    var row := Columns(a, b, c, d);
    ColumnsLayout(a, b, c, d);
    SliceOfSlice(row, |a| + 3, |a| + 3 + |b|, 0, |driver|);
  }

  predicate Fits(r: RaceResult)
  {
    |r.position| <= 2 && |DriverName(r)| <= 20 && |TimeOrStatus(r)| <= 18 && |r.points| <= 3
  }

  lemma {:induction false} RowWidth(r: RaceResult)
    requires Fits(r)
    ensures |Row(r)| == 49
  {
    RowColumns(r);
  }

  /** When every entry fits, the table has one 49-character row per result, in order. */
  lemma {:induction false} RowsLayout(results: seq<RaceResult>)
    requires forall i :: 0 <= i < |results| ==> Fits(results[i])
    ensures |Rows(results)| == 49 * |results|
    ensures forall k :: 0 <= k < |results| ==> Rows(results)[49 * k..49 * k + 49] == Row(results[k])
  {
    RowsLength(results);
    forall k | 0 <= k < |results|
      ensures Rows(results)[49 * k..49 * k + 49] == Row(results[k])
    {
      RowsBlock(results, k);
    }
  }

  lemma {:induction false} RowsLength(results: seq<RaceResult>)
    requires forall i :: 0 <= i < |results| ==> Fits(results[i])
    ensures |Rows(results)| == 49 * |results|
  {
    if |results| > 0 {
      var n := |results| - 1;
      var front := results[..n];
      assert forall i :: 0 <= i < |front| ==> Fits(front[i]) by {
        forall i | 0 <= i < |front| ensures Fits(front[i]) { assert front[i] == results[i]; }
      }
      RowsLength(front);
      RowWidth(results[n]);
    }
  }

  lemma {:induction false} RowsBlock(results: seq<RaceResult>, k: nat)
    requires forall i :: 0 <= i < |results| ==> Fits(results[i])
    requires k < |results|
    ensures |Rows(results)| == 49 * |results|
    ensures Rows(results)[49 * k..49 * k + 49] == Row(results[k])
  {
    var n := |results| - 1;
    var front := results[..n];
    assert forall i :: 0 <= i < |front| ==> Fits(front[i]) by {
      forall i | 0 <= i < |front| ensures Fits(front[i]) { assert front[i] == results[i]; }
    }
    RowsLength(front);
    RowWidth(results[n]);
    if k < n {
      RowsBlock(front, k);
      assert front[k] == results[k];
    }
    BlockOfAppend(Rows(front), Row(results[n]), n, k, Row(results[k]));
  }

  /** Block `k` of `u + v`, where `u` holds `n` blocks of 49 characters and `v` is one more. */
  lemma BlockOfAppend(u: string, v: string, n: nat, k: nat, b: string)
    requires |u| == 49 * n && |v| == 49 && k <= n
    requires k < n ==> u[49 * k..49 * k + 49] == b
    requires k == n ==> v == b
    ensures |u + v| == 49 * (n + 1)
    ensures (u + v)[49 * k..49 * k + 49] == b
  {
    if k < n {
      assert 49 * k + 49 <= 49 * n;
      assert (u + v)[49 * k..49 * k + 49] == u[49 * k..49 * k + 49];
    } else {
      assert (u + v)[49 * n..] == v;
    }
  }

  /** An entry without a fastest lap never displaces one with it, and an accumulator without one is always displaced. */
  lemma StepRules(fastest: RaceResult, current: RaceResult, faster: (string, string) -> bool)
    ensures fastest.fastestLap.Some? && current.fastestLap.None? ==> Step(fastest, current, faster) == fastest
    ensures fastest.fastestLap.None? ==> Step(fastest, current, faster) == current
  {
  }

  /** The fold picks an entry it was given, and one with a fastest lap exactly when there is one. */
  lemma {:induction false} FoldPicksLapHolder(acc: RaceResult, rest: seq<RaceResult>, faster: (string, string) -> bool)
    ensures Fold(acc, rest, faster) == acc || Fold(acc, rest, faster) in rest
    ensures Fold(acc, rest, faster).fastestLap.Some? <==>
            acc.fastestLap.Some? || exists i :: 0 <= i < |rest| && rest[i].fastestLap.Some?
    decreases |rest|
  {
    if |rest| > 0 {
      FoldPicksLapHolder(Step(acc, rest[0], faster), rest[1..], faster);
      if exists i :: 0 <= i < |rest| && rest[i].fastestLap.Some? {
        var i :| 0 <= i < |rest| && rest[i].fastestLap.Some?;
        if i > 0 {
          assert rest[1..][i - 1].fastestLap.Some?;
        }
      }
    }
  }

  /** From an accumulator with a lap, no entry's lap is faster than the chosen one, under a strict weak order. */
  lemma {:induction false} FoldFromLapHolder(acc: RaceResult, rest: seq<RaceResult>, faster: (string, string) -> bool)
    requires StrictWeakOrder(faster) && acc.fastestLap.Some?
    ensures Fold(acc, rest, faster).fastestLap.Some?
    ensures !faster(acc.fastestLap.value.time, Fold(acc, rest, faster).fastestLap.value.time)
    ensures forall i :: 0 <= i < |rest| && rest[i].fastestLap.Some? ==>
              !faster(rest[i].fastestLap.value.time, Fold(acc, rest, faster).fastestLap.value.time)
    decreases |rest|
  {
    if |rest| > 0 {
      var s := Step(acc, rest[0], faster);
      FoldFromLapHolder(s, rest[1..], faster);
      forall i | 1 <= i < |rest| && rest[i].fastestLap.Some?
        ensures !faster(rest[i].fastestLap.value.time, Fold(acc, rest, faster).fastestLap.value.time)
      {
        assert rest[1..][i - 1] == rest[i];
      }
    }
  }

  /** Under a strict weak order, no entry has a lap faster than the one the fold chose. */
  lemma {:induction false} FoldIsFastest(acc: RaceResult, rest: seq<RaceResult>, faster: (string, string) -> bool)
    requires StrictWeakOrder(faster)
    ensures var r := Fold(acc, rest, faster);
            r.fastestLap.Some? ==>
              (acc.fastestLap.Some? ==> !faster(acc.fastestLap.value.time, r.fastestLap.value.time)) &&
              forall i :: 0 <= i < |rest| && rest[i].fastestLap.Some? ==>
                !faster(rest[i].fastestLap.value.time, r.fastestLap.value.time)
    decreases |rest|
  {
    if acc.fastestLap.Some? {
      FoldFromLapHolder(acc, rest, faster);
    } else if |rest| > 0 {
      FoldIsFastest(rest[0], rest[1..], faster);
      forall i | 1 <= i < |rest|
        ensures rest[1..][i - 1] == rest[i]
      {
      }
    }
  }

  /** The intended comparison is a strict weak order: unreadable times rank after every readable one. */
  lemma CorrectedIsStrictWeakOrder()
    ensures StrictWeakOrder(CorrectedFaster)
  {
  }

  /** With the intended comparison, the reported lap is the fastest of all readable lap times. */
  lemma {:induction false} CorrectedPicksFastestLap(results: seq<RaceResult>)
    requires |results| > 0
    ensures var r := FastestEntry(results, CorrectedFaster);
            forall i :: 0 <= i < |results| && results[i].fastestLap.Some? && LapMillis(results[i].fastestLap.value.time).Some? ==>
              r.fastestLap.Some? && LapMillis(r.fastestLap.value.time).Some? &&
              LapMillis(r.fastestLap.value.time).value <= LapMillis(results[i].fastestLap.value.time).value
  {
    CorrectedIsStrictWeakOrder();
    FoldIsFastest(results[0], results[1..], CorrectedFaster);
    FoldPicksLapHolder(results[0], results[1..], CorrectedFaster);
    forall i | 1 <= i < |results|
      ensures results[1..][i - 1] == results[i]
    {
    }
  }

  /** A time written 'm:ss.sss' is read field by field. */
  lemma {:induction false} LapMillisOf(t: string, m: string, ss: string, ms: string)
    requires |m| > 0 && AllDigits(m) && |ss| == 2 && AllDigits(ss) && |ms| == 3 && AllDigits(ms)
    requires t == m + ":" + ss + "." + ms
    ensures LapMillis(t) == Some(DigitsValue(m) * 60000 + DigitsValue(ss) * 1000 + DigitsValue(ms))
  {
    var sec := ss + ['.'] + ms;
    NoSeparator(ss, '.');
    NoSeparator(ms, '.');
    SplitPair(ss, '.', ms);
    NoSeparator(m, ':');
    NoSeparator(ss, ':');
    NoSeparator(ms, ':');
    SplitPair(m, ':', sec);
    assert t == m + [':'] + sec;
  }

  /** A run of digits contains no separator. */
  lemma NoSeparator(s: string, c: char)
    requires AllDigits(s) && !IsDigit(c)
    ensures c !in s
  {
  }

  lemma SplitPair(a: string, c: char, b: string)
    requires c !in a && c !in b
    ensures Split(a + [c] + b, c) == [a, b]
  {
    SplitAt(a, c, b);
    SplitWithout(b, c);
  }

  const SlowLap := "1:40.000"
  const FastLap := "1:30.000"

  lemma LapTimesOfExample()
    ensures LapMillis(FastLap) == Some(90000) && LapMillis(SlowLap) == Some(100000)
  {
    FastLapTime();
    SlowLapTime();
  }

  lemma FastLapTime()
    ensures LapMillis(FastLap) == Some(90000)
  {
    var m, s, z := "1", "30", "000";
    ExampleDigits(m, s, z, 30);
    LapMillisOf(FastLap, m, s, z);
  }

  lemma SlowLapTime()
    ensures LapMillis(SlowLap) == Some(100000)
  {
    var m, s, z := "1", "40", "000";
    ExampleDigits(m, s, z, 40);
    LapMillisOf(SlowLap, m, s, z);
  }

  lemma {:induction false} ExampleDigits(m: string, s: string, z: string, v: nat)
    requires m == "1" && z == "000" && ((s == "30" && v == 30) || (s == "40" && v == 40))
    ensures DigitsValue(m) == 1 && DigitsValue(z) == 0 && DigitsValue(s) == v
  {
    assert s[..1] == [s[0]];
    assert z[..1] == "0" && DigitsValue(z[..1]) == 0;
    assert z[..2] == "00" && z[..2][..1] == z[..1] && DigitsValue(z[..2]) == 0;
  }

  /** A lap of 1:40.000 followed by one of 1:30.000. */
  function SlowThenFast(): seq<RaceResult>
  {
    [RaceResult("1", "25", "A", "A", "T", Some("1:20:00.000"), "Finished", Some(Lap("50", SlowLap, "200", "kph"))),
     RaceResult("2", "18", "B", "B", "T", Some("+1.000"), "Finished", Some(Lap("51", FastLap, "210", "kph")))]
  }

  /**
   * As written, the comparison reads only the minutes, so the slower lap,
   * seen first, is reported; the intended comparison reports the faster.
   */
  lemma AsWrittenReportsSlowerLap()
    ensures LapMillis(FastLap) == Some(90000) && LapMillis(SlowLap) == Some(100000)
    ensures FastestEntry(SlowThenFast(), AsWrittenFaster) == SlowThenFast()[0]
    ensures FastestEntry(SlowThenFast(), CorrectedFaster) == SlowThenFast()[1]
  {
    var slow, fast := SlowLap, FastLap;
    assert LeadingDigits(slow) == "1" && LeadingDigits(fast) == "1";
    assert !AsWrittenFaster(fast, slow);
    LapTimesOfExample();
    assert CorrectedFaster(fast, slow);
    var rs := SlowThenFast();
    assert FastestEntry(rs, AsWrittenFaster) == Step(rs[0], rs[1], AsWrittenFaster);
    assert FastestEntry(rs, CorrectedFaster) == Step(rs[0], rs[1], CorrectedFaster);
  }

  /** Fastest-lap details are printed exactly when the chosen entry has a fastest lap. */
  lemma FastestDetailsOnlyWithLap(e: RaceResult)
    ensures FastestLapInfo(e) == "⚡ **Fastest Lap**\n" <==> e.fastestLap.None?
  {
  }

  /** Only the 'stats' type does anything. */
  lemma OnlyStatsHandled(optionType: Option<string>, fetched: Result<Race, Error>, faults: Faults,
                         faster: (string, string) -> bool)
    requires optionType != Some("stats")
    ensures Execute(optionType, fetched, faults, faster) == Outcome([], None)
  {
  }

  /** Every fetch failure, whatever its cause, gets the same ephemeral apology after the deferral. */
  lemma FetchFailureAnswered(fetched: Result<Race, Error>, faults: Faults, faster: (string, string) -> bool)
    requires fetched.Err? && faults.defer.None?
    ensures FetchF1Data(fetched) == Err(PlainError(FetchFailedText))
    ensures Execute(Some("stats"), fetched, faults, faster) ==
            Outcome([DeferCall, EditCall(ErrorReplyText, true, false)], faults.errorEdit)
  {
  }

  /**
   * A fetched race is posted as the rendered text, with mentions suppressed,
   * in one edit of the deferred reply, whichever lap comparison the fold uses.
   */
  lemma StatsPostsRace(race: Race, faults: Faults, faster: (string, string) -> bool)
    requires faults.defer.None? && faults.edit.None? && |race.results| >= 3
    ensures RaceEmbed(race, faster).Ok?
    ensures Execute(Some("stats"), Ok(race), faults, faster) ==
            Outcome([DeferCall, EditCall(RaceEmbed(race, faster).value, false, true)], None)
  {
  }

  /**
   * The command as written posts the race with the `parseFloat` comparison:
   * for the laps of `SlowThenFast` followed by a result without a fastest
   * lap, its fastest-lap section names the slower lap, of the first result.
   */
  lemma {:induction false} AsWrittenCommandPostsSlowerLap(race: Race, faults: Faults, third: RaceResult)
    requires faults.defer.None? && faults.edit.None?
    requires race.results == SlowThenFast() + [third] && third.fastestLap.None?
    ensures Execute(Some("stats"), Ok(race), faults, AsWrittenFaster) ==
            Outcome([DeferCall, EditCall(RaceEmbed(race, AsWrittenFaster).value, false, true)], None)
    ensures RaceEmbed(race, AsWrittenFaster).value ==
            RaceInfo(race) + PodiumUpTo(race.results, 3) + "\n" + Table(race.results) + "\n" +
            FastestLapInfo(race.results[0])
  {
    StatsPostsRace(race, faults, AsWrittenFaster);
    AsWrittenReportsSlowerLap();
    var rs := race.results;
    assert rs[1..][1..] == [third];
    assert Fold(rs[0], rs[1..], AsWrittenFaster) == Fold(Step(rs[0], rs[1], AsWrittenFaster), [third], AsWrittenFaster);
    assert Step(rs[0], rs[1], AsWrittenFaster) == rs[0];
  }
}
