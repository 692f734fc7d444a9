/** The run extractors of codes/functionality.py: `read_hotcore_data` and
    `read_cshock_data` walk the accepted catalog rows in order, gate each run,
    find its transition age once and emit one flat record per sample;
    `extract_hotcore` and `extract_cshock` collect what they emit. The two
    families share one model, parameterised by `Family`. */
module Extraction {
  import opened Types
  import opened Stages
  import opened Finders

  datatype Family = HotcoreFamily | CshockFamily

  /** The `model_type` a run of the family carries in the catalog. */
  function ModelType(f: Family): string
  {
    match f
    case HotcoreFamily => "hotcore"
    case CshockFamily => "cshock"
  }

  /** The stage labels of the family. */
  predicate IsFamilyLabel(f: Family, s: Stage)
  {
    match f
    case HotcoreFamily => IsHotcoreLabel(s)
    case CshockFamily => IsShockLabel(s)
  }

  /** The columns only one family's records have. */
  datatype FamilyParams =
    | HotcoreParams(finalTemp: real, index: int)
    | CshockParams(shockVel: real)

  /** One emitted row: the sample's values, the run's parameters, the
      parent's parameters, the stage, and one column per requested species. */
  datatype Record = Record(
    age: real,
    locDens: real,
    locTemp: real,
    av: real,
    stage: Stage,
    runId: string,
    parentRunId: string,
    bm0: real,
    params: FamilyParams,
    initialDens: real,
    initialTemp: real,
    zeta: real,
    radfield: real,
    metallicity: real,
    cloudRadfield: real,
    cloudZeta: real,
    species: map<string, real>)

  /** The temperature the last sample must be at: `final_temp` for a hot
      core, `initialTemp` for a shock (the model returns to steady state). */
  function TerminalTemp(f: Family, row: CatalogRow): real
  {
    match f
    case HotcoreFamily => row.finalTemp
    case CshockFamily => row.initialTemp
  }

  /** `(df['gasTemp'] > initialTemp).any()`. */
  predicate ShockOccurred(df: seq<Sample>, initialTemp: real)
  {
    exists k :: 0 <= k < |df| && df[k].gasTemp > initialTemp
  }

  /** The convergence gate applied to a non-empty series. */
  predicate PassesGate(f: Family, row: CatalogRow, df: seq<Sample>)
    requires |df| > 0
  {
    df[|df| - 1].gasTemp == TerminalTemp(f, row) &&
    (f == CshockFamily ==> ShockOccurred(df, row.initialTemp))
  }

  /** The transition age, computed once per run. */
  function TransitionAge(f: Family, row: CatalogRow, df: seq<Sample>): Option<real>
  {
    match f
    case HotcoreFamily => FindAgeForFinalTemp(df, row.finalTemp)
    case CshockFamily => FindAgeForPostShock(df, row.initialTemp)
  }

  /** The stage of one sample of the run. */
  function StageOf(f: Family, row: CatalogRow, age: real, s: Sample): (r: Stage)
    ensures IsFamilyLabel(f, r)
  {
    match f
    case HotcoreFamily => HotcoreStage(s.gasTemp, s.time, row.initialTemp, row.finalTemp, age)
    case CshockFamily => ShockStage(s.time, s.gasTemp, row.initialTemp, age)
  }

  function Params(f: Family, row: CatalogRow): FamilyParams
  {
    match f
    case HotcoreFamily => HotcoreParams(row.finalTemp, row.modelIndex)
    case CshockFamily => CshockParams(row.shockVel)
  }

  /** The first requested species the sample has no column for. */
  function FirstMissing(species: seq<string>, abundances: map<string, real>): (r: Option<string>)
    ensures r.None? <==> forall k :: 0 <= k < |species| ==> species[k] in abundances
    ensures r.Some? ==> r.value in species && r.value !in abundances
    ensures r.Some? ==> exists k :: 0 <= k < |species| && species[k] == r.value &&
                          forall j :: 0 <= j < k ==> species[j] in abundances
  {
    if |species| == 0 then None
    else if species[0] !in abundances then Some(species[0])
    else
      var r := FirstMissing(species[1..], abundances);
      assert forall k :: 1 <= k < |species| ==> species[k] == species[1..][k - 1];
      r
  }

  /** The record `read_*_data` yields for one sample, or the KeyError of a
      requested species the series has no column for. */
  function MakeRecord(f: Family, runId: string, row: CatalogRow, parent: CatalogRow, age: real,
                      s: Sample, species: seq<string>): (r: Result<Record>)
    ensures r.Ok? <==> forall k :: 0 <= k < |species| ==> species[k] in s.abundances
    ensures r.Ok? ==> r.value.species.Keys == set k | 0 <= k < |species| :: species[k]
    ensures r.Ok? ==> forall k :: 0 <= k < |species| ==> r.value.species[species[k]] == s.abundances[species[k]]
    ensures r.Err? ==> r.error.MissingSpecies? && r.error.runId == runId
  {
    match FirstMissing(species, s.abundances)
    case Some(sp) => Err(MissingSpecies(runId, sp))
    case None =>
      var columns := map sp | sp in species :: s.abundances[sp];
      assert columns.Keys == set k | 0 <= k < |species| :: species[k] by {
        forall sp | sp in columns.Keys ensures sp in set k | 0 <= k < |species| :: species[k] {
          var k :| 0 <= k < |species| && species[k] == sp;
        }
      }
      Ok(Record(
        age := s.time,
        locDens := s.density,
        locTemp := s.gasTemp,
        av := s.av,
        stage := StageOf(f, row, age, s),
        runId := runId,
        parentRunId := row.parentRunId,
        bm0 := row.bm0,
        params := Params(f, row),
        initialDens := row.initialDens,
        initialTemp := row.initialTemp,
        zeta := row.zeta,
        radfield := row.radfield,
        metallicity := parent.metallicity,
        cloudRadfield := parent.radfield,
        cloudZeta := parent.zeta,
        species := columns))
  }

  /** Sequencing of two steps that may raise: the first failure wins,
      otherwise the outputs are concatenated. */
  function Then(x: Result<seq<Record>>, y: Result<seq<Record>>): Result<seq<Record>>
  {
    if x.Err? then x else if y.Err? then y else Ok(x.value + y.value)
  }

  lemma ThenAssociative(x: Result<seq<Record>>, y: Result<seq<Record>>, z: Result<seq<Record>>)
    ensures Then(Then(x, y), z) == Then(x, Then(y, z))
  {
    if x.Ok? && y.Ok? && z.Ok? {
      assert (x.value + y.value) + z.value == x.value + (y.value + z.value);
    }
  }

  function Single(r: Result<Record>): Result<seq<Record>>
  {
    if r.Err? then Err(r.error) else Ok([r.value])
  }

  /** The records yielded for the samples of one accepted run, in sample
      order; the first sample that raises ends the run. */
  function SampleRecords(f: Family, runId: string, row: CatalogRow, parent: CatalogRow, age: real,
                         df: seq<Sample>, species: seq<string>): (r: Result<seq<Record>>)
    ensures r.Ok? <==> forall k :: 0 <= k < |df| ==> MakeRecord(f, runId, row, parent, age, df[k], species).Ok?
    ensures r.Ok? ==> |r.value| == |df|
    ensures r.Ok? ==> forall k :: 0 <= k < |df| ==> r.value[k] == MakeRecord(f, runId, row, parent, age, df[k], species).value
    ensures r.Err? ==> r.error.MissingSpecies? && r.error.runId == runId
  {
    if |df| == 0 then Ok([])
    else
      var prefix := SampleRecords(f, runId, row, parent, age, df[..|df| - 1], species);
      var last := MakeRecord(f, runId, row, parent, age, df[|df| - 1], species);
      assert forall k :: 0 <= k < |df| - 1 ==> df[..|df| - 1][k] == df[k];
      Then(prefix, Single(last))
  }

  /** What one iteration of the outer loop of `read_*_data` yields for a run:
      look up the run and then its parent (both fatal when absent), skip a run
      of the wrong family, read its series, skip a run that fails the
      convergence gate, find the transition age, and emit its samples. */
  function RunRecords(f: Family, grid: seq<CatalogRow>, runId: string, series: SeriesStore,
                      species: seq<string>): Result<seq<Record>>
  {
    match FindRun(grid, runId)
    case None => Err(RunNotFound(runId))
    case Some(row) =>
      match FindRun(grid, row.parentRunId)
      case None => Err(ParentNotFound(runId, row.parentRunId))
      case Some(parent) =>
        if row.modelType != ModelType(f) then Ok([])
        else if runId !in series then Err(SeriesNotFound(runId))
        else if |series[runId]| == 0 then Err(EmptySeries(runId))
        else if !PassesGate(f, row, series[runId]) then Ok([])
        else
          match TransitionAge(f, row, series[runId])
          case None => Err(TransitionNotFound(runId))
          case Some(age) => SampleRecords(f, runId, row, parent, age, series[runId], species)
  }

  /** Everything `read_*_data` yields over the accepted rows, in catalog
      order, or the first exception it raises. */
  function ReadData(f: Family, grid: seq<CatalogRow>, runs: seq<CatalogRow>, series: SeriesStore,
                    species: seq<string>): Result<seq<Record>>
  {
    if |runs| == 0 then Ok([])
    else Then(ReadData(f, grid, runs[..|runs| - 1], series, species),
              RunRecords(f, grid, runs[|runs| - 1].runId, series, species))
  }

  /** A run the extractor keeps: its row exists, it belongs to the family,
      its series exists, is non-empty and passes the convergence gate. */
  predicate Accepted(f: Family, grid: seq<CatalogRow>, runId: string, series: SeriesStore)
  {
    var row := FindRun(grid, runId);
    row.Some? && row.value.modelType == ModelType(f) &&
    runId in series && |series[runId]| > 0 && PassesGate(f, row.value, series[runId])
  }

  /** How many records the accepted runs among `runs` contribute. */
  function AcceptedSamples(f: Family, grid: seq<CatalogRow>, runs: seq<CatalogRow>, series: SeriesStore): nat
  {
    if |runs| == 0 then 0
    else
      var id := runs[|runs| - 1].runId;
      AcceptedSamples(f, grid, runs[..|runs| - 1], series) +
      (if Accepted(f, grid, id, series) then |series[id]| else 0)
  }

  // ---------------------------------------------------------------------------
  // Properties of one run

  /** The convergence gate: a run of the wrong family, or one whose series
      fails the gate, yields no records once its rows are found. */
  lemma RejectedRunYieldsNothing(f: Family, grid: seq<CatalogRow>, runId: string, series: SeriesStore,
                                 species: seq<string>)
    requires FindRun(grid, runId).Some?
    requires FindRun(grid, FindRun(grid, runId).value.parentRunId).Some?
    requires FindRun(grid, runId).value.modelType != ModelType(f) ||
             (runId in series && |series[runId]| > 0 &&
              !PassesGate(f, FindRun(grid, runId).value, series[runId]))
    ensures !Accepted(f, grid, runId, series)
    ensures RunRecords(f, grid, runId, series, species) == Ok([])
  {
  }

  /** After the hot-core gate the final-temperature search cannot fail, so a
      hot-core run never raises for a missing transition. */
  lemma HotcoreTransitionAlwaysFound(grid: seq<CatalogRow>, runId: string, series: SeriesStore,
                                     species: seq<string>)
    ensures !RunRecords(HotcoreFamily, grid, runId, series, species).Err? ||
            !RunRecords(HotcoreFamily, grid, runId, series, species).error.TransitionNotFound?
  {
    var row := FindRun(grid, runId);
    if row.Some? && runId in series && |series[runId]| > 0 &&
       PassesGate(HotcoreFamily, row.value, series[runId]) {
      FinalTempFoundAfterGate(series[runId], row.value.finalTemp);
    }
  }

  /** The shock gate gives no such guarantee: a run that returns to
      `initialTemp` by age 8 after a shock at age 5 passes the gate and then
      raises, because no sample past age 10 is back at `initialTemp`. */
  lemma CshockTransitionCanBeMissing()
    ensures var row := CatalogRow("run", "cloud", "cshock", 20.0, 1.0, 1.0, 1.0, 0.0, 10.0, 1.0, 1.0, 0);
            var parent := CatalogRow("cloud", "", "cloud", 20.0, 1.0, 1.0, 1.0, 0.0, 0.0, 0.0, 1.0, 0);
            var df := [Sample(0.0, 20.0, 1.0, 1.0, map[]), Sample(5.0, 45.0, 1.0, 1.0, map[]),
                       Sample(8.0, 20.0, 1.0, 1.0, map[])];
            Accepted(CshockFamily, [row, parent], "run", map["run" := df]) &&
            RunRecords(CshockFamily, [row, parent], "run", map["run" := df], []) == Err(TransitionNotFound("run"))
  {
    var row := CatalogRow("run", "cloud", "cshock", 20.0, 1.0, 1.0, 1.0, 0.0, 10.0, 1.0, 1.0, 0);
    var parent := CatalogRow("cloud", "", "cloud", 20.0, 1.0, 1.0, 1.0, 0.0, 0.0, 0.0, 1.0, 0);
    var df := [Sample(0.0, 20.0, 1.0, 1.0, map[]), Sample(5.0, 45.0, 1.0, 1.0, map[]),
               Sample(8.0, 20.0, 1.0, 1.0, map[])];
    assert ShockOccurred(df, 20.0) by { assert df[1].gasTemp > 20.0; }
    var grid := [row, parent];
    assert grid[0].runId != "cloud" by { assert |grid[0].runId| != |"cloud"|; }
    assert grid[1..] == [parent];
    assert RunIndex(grid[1..], "cloud") == 0;
    assert RunIndex(grid, "cloud") == 1;
    assert FindRun(grid, "run") == Some(row);
    assert FindRun(grid, "cloud") == Some(parent);
    PostShockSearchCanFailAfterGate();
  }

  /** An accepted run that does not raise yields one record per sample, in
      sample order: the sample's own values, its stage under the run's
      transition age, the parent's metallicity, radiation field and zeta as
      the cloud columns, everything else from the run's row, and the
      requested species columns. */
  lemma {:induction false} AcceptedRunRecords(f: Family, grid: seq<CatalogRow>, runId: string,
                                               series: SeriesStore, species: seq<string>)
    requires Accepted(f, grid, runId, series)
    requires RunRecords(f, grid, runId, series, species).Ok?
    ensures var rs := RunRecords(f, grid, runId, series, species).value;
            var row := FindRun(grid, runId).value;
            var parent := FindRun(grid, row.parentRunId).value;
            var df := series[runId];
            TransitionAge(f, row, df).Some? &&
            |rs| == |df| &&
            forall k :: 0 <= k < |df| ==>
              rs[k].age == df[k].time && rs[k].locTemp == df[k].gasTemp &&
              rs[k].locDens == df[k].density && rs[k].av == df[k].av &&
              rs[k].stage == StageOf(f, row, TransitionAge(f, row, df).value, df[k]) &&
              rs[k].runId == runId && rs[k].parentRunId == row.parentRunId &&
              rs[k].metallicity == parent.metallicity &&
              rs[k].cloudRadfield == parent.radfield && rs[k].cloudZeta == parent.zeta &&
              rs[k].zeta == row.zeta && rs[k].radfield == row.radfield &&
              rs[k].initialTemp == row.initialTemp && rs[k].initialDens == row.initialDens &&
              rs[k].bm0 == row.bm0 && rs[k].params == Params(f, row) &&
              (forall j :: 0 <= j < |species| ==> rs[k].species[species[j]] == df[k].abundances[species[j]])
  {
    var row := FindRun(grid, runId).value;
    var parent := FindRun(grid, row.parentRunId).value;
    var df := series[runId];
    var age := TransitionAge(f, row, df).value;
    var rs := SampleRecords(f, runId, row, parent, age, df, species).value;
    forall k | 0 <= k < |df|
      ensures rs[k] == MakeRecord(f, runId, row, parent, age, df[k], species).value
      ensures MakeRecord(f, runId, row, parent, age, df[k], species).Ok?
    {
    }
  }

  /** The hot-core scenario end to end: initialTemp 15, final_temp 300,
      samples at (0, 15), (500, 150), (1000, 300), (1000 + 1e5 - 1, 300) and
      (1000 + 1e5 + 1, 300) are labelled pre-warmup, warmup, hotcore, hotcore,
      unknown, and every record takes its cloud columns from the parent. */
  lemma HotcoreRunScenario()
    ensures var row := CatalogRow("hc", "cl", "hotcore", 15.0, 1.0, 1.0, 1.0, 300.0, 0.0, 1.0, 1.0, 7);
            var parent := CatalogRow("cl", "", "cloud", 15.0, 1.0, 2.0, 3.0, 0.0, 0.0, 0.0, 4.0, 0);
            var df := [Sample(0.0, 15.0, 1.0, 1.0, map[]), Sample(500.0, 150.0, 1.0, 1.0, map[]),
                       Sample(1000.0, 300.0, 1.0, 1.0, map[]),
                       Sample(1000.0 + StageLifetime - 1.0, 300.0, 1.0, 1.0, map[]),
                       Sample(1000.0 + StageLifetime + 1.0, 300.0, 1.0, 1.0, map[])];
            var rs := RunRecords(HotcoreFamily, [row, parent], "hc", map["hc" := df], []);
            rs.Ok? && |rs.value| == 5 &&
            rs.value[0].stage == PreWarmup && rs.value[1].stage == Warmup &&
            rs.value[2].stage == Hotcore && rs.value[3].stage == Hotcore && rs.value[4].stage == Unknown &&
            forall k :: 0 <= k < 5 ==>
              rs.value[k].cloudZeta == 2.0 && rs.value[k].cloudRadfield == 3.0 && rs.value[k].metallicity == 4.0
  {
    var row := CatalogRow("hc", "cl", "hotcore", 15.0, 1.0, 1.0, 1.0, 300.0, 0.0, 1.0, 1.0, 7);
    var parent := CatalogRow("cl", "", "cloud", 15.0, 1.0, 2.0, 3.0, 0.0, 0.0, 0.0, 4.0, 0);
    var df := [Sample(0.0, 15.0, 1.0, 1.0, map[]), Sample(500.0, 150.0, 1.0, 1.0, map[]),
               Sample(1000.0, 300.0, 1.0, 1.0, map[]),
               Sample(1000.0 + StageLifetime - 1.0, 300.0, 1.0, 1.0, map[]),
               Sample(1000.0 + StageLifetime + 1.0, 300.0, 1.0, 1.0, map[])];
    var grid := [row, parent];
    var series := map["hc" := df];
    assert grid[0].runId != "cl" by { assert grid[0].runId[0] != "cl"[0]; }
    assert grid[1..] == [parent];
    assert RunIndex(grid[1..], "cl") == 0;
    assert FindRun(grid, "hc") == Some(row);
    assert FindRun(grid, "cl") == Some(parent);
    assert Accepted(HotcoreFamily, grid, "hc", series);
    assert FindAgeForFinalTemp(df, 300.0) == Some(1000.0) by {
      var t := ReachesFinalTemp(300.0);
      assert df[1..][1..] == df[2..];
      assert FirstMatchAge(df[2..], t) == Some(1000.0);
      assert FirstMatchAge(df[1..], t) == FirstMatchAge(df[2..], t);
      assert FirstMatchAge(df, t) == FirstMatchAge(df[1..], t);
    }
    AcceptedRunRecords(HotcoreFamily, grid, "hc", series, []);
  }

  // ---------------------------------------------------------------------------
  // Properties of the whole stream

  /** Reading two consecutive stretches of the catalog is reading each in
      turn: records keep catalog order, and the first failure wins. */
  lemma {:induction false} ReadDataConcat(f: Family, grid: seq<CatalogRow>, a: seq<CatalogRow>,
                                          b: seq<CatalogRow>, series: SeriesStore, species: seq<string>)
    ensures ReadData(f, grid, a + b, series, species) ==
            Then(ReadData(f, grid, a, series, species), ReadData(f, grid, b, series, species))
    decreases |b|
  {
    if |b| == 0 {
      assert a + b == a;
      var x := ReadData(f, grid, a, series, species);
      if x.Ok? { assert x.value + [] == x.value; }
    } else {
      var b' := b[..|b| - 1];
      assert (a + b)[..|a + b| - 1] == a + b';
      assert (a + b)[|a + b| - 1] == b[|b| - 1];
      ReadDataConcat(f, grid, a, b', series, species);
      ThenAssociative(ReadData(f, grid, a, series, species), ReadData(f, grid, b', series, species),
                      RunRecords(f, grid, b[|b| - 1].runId, series, species));
    }
  }

  /** Splitting a series in two splits its records the same way. */
  lemma {:induction false} SampleRecordsConcat(f: Family, runId: string, row: CatalogRow, parent: CatalogRow,
                                               age: real, a: seq<Sample>, b: seq<Sample>, species: seq<string>)
    ensures SampleRecords(f, runId, row, parent, age, a + b, species) ==
            Then(SampleRecords(f, runId, row, parent, age, a, species),
                 SampleRecords(f, runId, row, parent, age, b, species))
    decreases |b|
  {
    if |b| == 0 {
      assert a + b == a;
      var x := SampleRecords(f, runId, row, parent, age, a, species);
      if x.Ok? { assert x.value + [] == x.value; }
    } else {
      var b' := b[..|b| - 1];
      assert (a + b)[..|a + b| - 1] == a + b';
      assert (a + b)[|a + b| - 1] == b[|b| - 1];
      SampleRecordsConcat(f, runId, row, parent, age, a, b', species);
      ThenAssociative(SampleRecords(f, runId, row, parent, age, a, species),
                      SampleRecords(f, runId, row, parent, age, b', species),
                      Single(MakeRecord(f, runId, row, parent, age, b[|b| - 1], species)));
    }
  }

  /** A successful pass emits exactly the samples of the accepted runs, every
      record carries one of the family's labels, and every record comes from
      an accepted run: a rejected run_id has no rows. */
  lemma {:induction false} ReadDataShape(f: Family, grid: seq<CatalogRow>, runs: seq<CatalogRow>,
                                         series: SeriesStore, species: seq<string>)
    requires ReadData(f, grid, runs, series, species).Ok?
    ensures |ReadData(f, grid, runs, series, species).value| == AcceptedSamples(f, grid, runs, series)
    ensures forall r :: r in ReadData(f, grid, runs, series, species).value ==>
              IsFamilyLabel(f, r.stage) && Accepted(f, grid, r.runId, series) &&
              exists i :: 0 <= i < |runs| && runs[i].runId == r.runId
  {
    if |runs| > 0 {
      var prefix := runs[..|runs| - 1];
      var id := runs[|runs| - 1].runId;
      ReadDataShape(f, grid, prefix, series, species);
      assert forall i :: 0 <= i < |prefix| ==> prefix[i] == runs[i];
      var rr := RunRecords(f, grid, id, series, species);
      assert rr.Ok?;
      if Accepted(f, grid, id, series) {
        AcceptedRunRecords(f, grid, id, series, species);
        var row := FindRun(grid, id).value;
        forall r | r in rr.value ensures IsFamilyLabel(f, r.stage) && r.runId == id {
          var k :| 0 <= k < |rr.value| && rr.value[k] == r;
        }
      } else {
        assert rr.value == [];
      }
    }
  }

  // ---------------------------------------------------------------------------
  // The generator and the collecting loop

  /** The inner loop of `read_*_data` for an accepted run: every sample's
      record is appended to `extracted` as soon as it is yielded. */
  method AppendSamples(f: Family, runId: string, row: CatalogRow, parent: CatalogRow, age: real,
                       df: seq<Sample>, species: seq<string>, extracted: seq<Record>)
    returns (r: Result<seq<Record>>)
    ensures r == Then(Ok(extracted), SampleRecords(f, runId, row, parent, age, df, species))
  {
    var out := extracted;
    ghost var batch := [];
    var j := 0;
    while j < |df|
      invariant 0 <= j <= |df|
      invariant out == extracted + batch
      invariant SampleRecords(f, runId, row, parent, age, df[..j], species) == Ok(batch)
    {
      assert df[..j + 1][..j] == df[..j];
      var record := MakeRecord(f, runId, row, parent, age, df[j], species);
      if record.Err? {
        assert df == df[..j + 1] + df[j + 1..];
        SampleRecordsConcat(f, runId, row, parent, age, df[..j + 1], df[j + 1..], species);
        return Err(record.error);
      }
      out := out + [record.value];
      batch := batch + [record.value];
      j := j + 1;
    }
    assert df[..j] == df;
    r := Ok(out);
  }

  /** One iteration of the outer loop of `read_*_data`, appending what the
      run yields to `extracted`. */
  method AppendRun(f: Family, grid: seq<CatalogRow>, runId: string, series: SeriesStore,
                   species: seq<string>, extracted: seq<Record>) returns (r: Result<seq<Record>>)
    ensures r == Then(Ok(extracted), RunRecords(f, grid, runId, series, species))
  {
    var rowInfo := FindRun(grid, runId);
    if rowInfo.None? {
      return Err(RunNotFound(runId));
    }
    var row := rowInfo.value;
    var parentInfo := FindRun(grid, row.parentRunId);
    if parentInfo.None? {
      return Err(ParentNotFound(runId, row.parentRunId));
    }
    var parent := parentInfo.value;
    if row.modelType != ModelType(f) {
      assert extracted + [] == extracted;
      return Ok(extracted);
    }
    if runId !in series {
      return Err(SeriesNotFound(runId));
    }
    var df := series[runId];
    if |df| == 0 {
      return Err(EmptySeries(runId));
    }
    if df[|df| - 1].gasTemp != TerminalTemp(f, row) {
      assert extracted + [] == extracted;
      return Ok(extracted);
    }
    if f == CshockFamily && !ShockOccurred(df, row.initialTemp) {
      assert extracted + [] == extracted;
      return Ok(extracted);
    }
    var found := TransitionAge(f, row, df);
    if found.None? {
      return Err(TransitionNotFound(runId));
    }
    r := AppendSamples(f, runId, row, parent, found.value, df, species, extracted);
  }

  /** `read_*_data` feeding the append loop of `extract_*`: every yielded
      record is appended in turn, and an exception ends the pass. */
  method ExtractRuns(f: Family, grid: seq<CatalogRow>, runs: seq<CatalogRow>, series: SeriesStore,
                     species: seq<string>) returns (r: Result<seq<Record>>)
    ensures r == ReadData(f, grid, runs, series, species)
  {
    var extracted: seq<Record> := [];
    var i := 0;
    while i < |runs|
      invariant 0 <= i <= |runs|
      invariant ReadData(f, grid, runs[..i], series, species) == Ok(extracted)
    {
      assert runs[..i + 1][..i] == runs[..i];
      var next := AppendRun(f, grid, runs[i].runId, series, species, extracted);
      if next.Err? {
        assert runs == runs[..i + 1] + runs[i + 1..];
        ReadDataConcat(f, grid, runs[..i + 1], runs[i + 1..], series, species);
        return next;
      }
      extracted := next.value;
      i := i + 1;
    }
    assert runs[..i] == runs;
    r := Ok(extracted);
  }

  /** `extract_hotcore(grid_path, grid_df, hotcore_succesful, species_list)`. */
  method ExtractHotcore(grid: seq<CatalogRow>, hotcoreSuccessful: seq<CatalogRow>, series: SeriesStore,
                        speciesList: seq<string>) returns (r: Result<seq<Record>>)
    ensures r == ReadData(HotcoreFamily, grid, hotcoreSuccessful, series, speciesList)
  {
    r := ExtractRuns(HotcoreFamily, grid, hotcoreSuccessful, series, speciesList);
  }

  /** `extract_cshock(grid_path, grid_df, cshock_succesful, species_list)`. */
  method ExtractCshock(grid: seq<CatalogRow>, cshockSuccessful: seq<CatalogRow>, series: SeriesStore,
                       speciesList: seq<string>) returns (r: Result<seq<Record>>)
    ensures r == ReadData(CshockFamily, grid, cshockSuccessful, series, speciesList)
  {
    r := ExtractRuns(CshockFamily, grid, cshockSuccessful, series, speciesList);
  }
}
