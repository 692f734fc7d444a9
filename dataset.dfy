/** The driver data_extraction.py: flag every catalog row by whether its run
    and its parent were stored in the grid file, select each family's rows,
    split them into successful and unsuccessful runs, and hand the successful
    ones to the extractors. */
module DataExtraction {
  import opened Types
  import opened Stages
  import opened Molecules
  import opened Extraction

  /** `data_keys[1:]`: the keys of the grid file except the first, which
      holds the catalog itself. */
  function RunKeys(dataKeys: seq<string>): (r: seq<string>)
    ensures forall k :: k in r <==> exists i :: 1 <= i < |dataKeys| && dataKeys[i] == k
  {
    if |dataKeys| == 0 then [] else dataKeys[1..]
  }

  /** A catalog row with the two flag columns the driver adds. */
  datatype FlaggedRow = FlaggedRow(row: CatalogRow, isInDatasetKeys: bool, parentIsInDatasetKeys: bool)

  /** The catalog after lines 34-35: each row flagged by membership of its
      run_id, and of its parent_run_id, among the run keys. */
  function FlagRows(rows: seq<CatalogRow>, dataKeys: seq<string>): (r: seq<FlaggedRow>)
    ensures |r| == |rows|
    ensures forall i :: 0 <= i < |rows| ==>
              r[i].row == rows[i] &&
              (r[i].isInDatasetKeys <==> rows[i].runId in RunKeys(dataKeys)) &&
              (r[i].parentIsInDatasetKeys <==> rows[i].parentRunId in RunKeys(dataKeys))
  {
    seq(|rows|, i requires 0 <= i < |rows| =>
      FlaggedRow(rows[i], rows[i].runId in RunKeys(dataKeys), rows[i].parentRunId in RunKeys(dataKeys)))
  }

  /** `grid_df`: the catalog table, to which the driver adds two columns in place. */
  class GridFrame {
    var rows: seq<CatalogRow>
    var isInDatasetKeys: seq<bool>
    var parentIsInDatasetKeys: seq<bool>

    constructor (catalog: seq<CatalogRow>)
      ensures rows == catalog && isInDatasetKeys == [] && parentIsInDatasetKeys == []
    {
      rows := catalog;
      isInDatasetKeys := [];
      parentIsInDatasetKeys := [];
    }

    /** Both flag columns are present, one entry per row. */
    predicate HasFlags()
      reads this
    {
      |isInDatasetKeys| == |rows| && |parentIsInDatasetKeys| == |rows|
    }

    /** The table as flagged rows. */
    function Flagged(): (r: seq<FlaggedRow>)
      reads this
      requires HasFlags()
      ensures |r| == |rows|
    {
      var table, runFlags, parentFlags := rows, isInDatasetKeys, parentIsInDatasetKeys;
      seq(|table|, i requires 0 <= i < |table| => FlaggedRow(table[i], runFlags[i], parentFlags[i]))
    }

    /** Lines 34-35: `grid_df["is_in_dataset_keys"] = grid_df["run_id"].isin(data_keys[1:])`
        and the same for `parent_run_id`. The rows themselves are unchanged. */
    method AddValidityFlags(dataKeys: seq<string>)
      modifies this
      ensures rows == old(rows)
      ensures HasFlags()
      ensures Flagged() == FlagRows(rows, dataKeys)
    {
      var table, keys := rows, RunKeys(dataKeys);
      isInDatasetKeys := seq(|table|, i requires 0 <= i < |table| => table[i].runId in keys);
      parentIsInDatasetKeys := seq(|table|, i requires 0 <= i < |table| => table[i].parentRunId in keys);
    }
  }

  /** The boolean masks and queries of lines 38-46. */
  datatype Mask = CshockRows | HotcoreRows | SuccessfulRuns | UnsuccessfulRuns

  predicate Keeps(m: Mask, x: FlaggedRow)
  {
    match m
    case CshockRows => x.row.modelType == ModelType(CshockFamily) && x.parentIsInDatasetKeys
    case HotcoreRows => x.row.modelType == ModelType(HotcoreFamily) && x.parentIsInDatasetKeys
    case SuccessfulRuns => x.isInDatasetKeys
    case UnsuccessfulRuns => !x.isInDatasetKeys
  }

  /** `df[mask].reset_index(drop=True)`: the rows the mask keeps, in order. */
  function Where(s: seq<FlaggedRow>, m: Mask): (r: seq<FlaggedRow>)
    ensures forall x :: x in r <==> x in s && Keeps(m, x)
    ensures |r| <= |s|
  {
    if |s| == 0 then []
    else if Keeps(m, s[0]) then [s[0]] + Where(s[1..], m)
    else Where(s[1..], m)
  }

  /** Drops the flag columns again. */
  function Rows(s: seq<FlaggedRow>): (r: seq<CatalogRow>)
    ensures |r| == |s| && forall i :: 0 <= i < |s| ==> r[i] == s[i].row
  {
    seq(|s|, i requires 0 <= i < |s| => s[i].row)
  }

  /** Selection keeps relative order: selecting from two consecutive
      stretches is selecting from each in turn. */
  lemma {:induction false} WhereConcat(a: seq<FlaggedRow>, b: seq<FlaggedRow>, m: Mask)
    ensures Where(a + b, m) == Where(a, m) + Where(b, m)
  {
    if |a| == 0 {
      assert a + b == b;
    } else {
      assert (a + b)[1..] == a[1..] + b;
      WhereConcat(a[1..], b, m);
    }
  }

  /** A row of a family selection is of that family and has its parent in
      the grid file; no row is in both selections. */
  lemma FamilySelections(flagged: seq<FlaggedRow>)
    ensures forall x :: x in Where(flagged, CshockRows) <==>
              x in flagged && x.row.modelType == "cshock" && x.parentIsInDatasetKeys
    ensures forall x :: x in Where(flagged, HotcoreRows) <==>
              x in flagged && x.row.modelType == "hotcore" && x.parentIsInDatasetKeys
    ensures forall x :: x in Where(flagged, CshockRows) ==> x !in Where(flagged, HotcoreRows)
  {
  }

  /** The successful and unsuccessful lists partition a selection: together
      they hold each of its rows exactly as often, and they share none. */
  lemma {:induction false} SplitPartitions(s: seq<FlaggedRow>)
    ensures multiset(Where(s, SuccessfulRuns)) + multiset(Where(s, UnsuccessfulRuns)) == multiset(s)
    ensures |Where(s, SuccessfulRuns)| + |Where(s, UnsuccessfulRuns)| == |s|
    ensures forall x :: x in Where(s, SuccessfulRuns) ==> x !in Where(s, UnsuccessfulRuns)
  {
    if |s| > 0 {
      SplitPartitions(s[1..]);
      assert s == [s[0]] + s[1..];
    }
  }

  /** The two extracted tables. */
  datatype Tables = Tables(cshock: seq<Record>, hotcore: seq<Record>)

  /** The successful rows of one family, as the extractors receive them. */
  function Successful(flagged: seq<FlaggedRow>, family: Mask): seq<CatalogRow>
  {
    Rows(Where(Where(flagged, family), SuccessfulRuns))
  }

  /** The whole driver: the cshock table is extracted first, then the
      hot-core table, each from its successful rows, with the unfiltered
      catalog for run and parent lookups and `mol_all` as the species list. */
  function ExtractTables(dataKeys: seq<string>, catalog: seq<CatalogRow>, series: SeriesStore): Result<Tables>
  {
    if |dataKeys| == 0 then Err(NoCatalogKey)
    else
      var flagged := FlagRows(catalog, dataKeys);
      var cshock := ReadData(CshockFamily, catalog, Successful(flagged, CshockRows), series, MolAll);
      if cshock.Err? then Err(cshock.error)
      else
        var hotcore := ReadData(HotcoreFamily, catalog, Successful(flagged, HotcoreRows), series, MolAll);
        if hotcore.Err? then Err(hotcore.error)
        else Ok(Tables(cshock.value, hotcore.value))
  }

  /** A row handed to an extractor is of its family, is stored in the grid
      file, and has its parent stored there too. */
  lemma {:induction false} SuccessfulRowsAreStored(dataKeys: seq<string>, catalog: seq<CatalogRow>, f: Family)
    ensures var rows := Successful(FlagRows(catalog, dataKeys), FamilyMask(f));
            forall i :: 0 <= i < |rows| ==>
              rows[i] in catalog &&
              rows[i].runId in RunKeys(dataKeys) && rows[i].parentRunId in RunKeys(dataKeys) &&
              rows[i].modelType == ModelType(f)
  {
    var flagged := FlagRows(catalog, dataKeys);
    var family := FamilyMask(f);
    var sel := Where(Where(flagged, family), SuccessfulRuns);
    forall i | 0 <= i < |sel|
      ensures sel[i].row in catalog && sel[i].isInDatasetKeys && sel[i].parentIsInDatasetKeys
      ensures sel[i].row.runId in RunKeys(dataKeys) && sel[i].row.parentRunId in RunKeys(dataKeys)
      ensures Keeps(family, sel[i])
    {
      assert sel[i] in sel;
      assert sel[i] in Where(flagged, family);
      var k :| 0 <= k < |flagged| && flagged[k] == sel[i];
    }
  }

  /** The selection mask of a family. */
  function FamilyMask(f: Family): Mask
  {
    match f
    case CshockFamily => CshockRows
    case HotcoreFamily => HotcoreRows
  }

  /** Every row of a family's table belongs to a run that is stored in the
      grid file, was accepted by the family's gate and carries one of the
      family's labels; the table holds exactly the samples of its accepted
      runs. */
  lemma FamilyTableFromStoredRuns(dataKeys: seq<string>, catalog: seq<CatalogRow>, series: SeriesStore,
                                  f: Family)
    requires ReadData(f, catalog, Successful(FlagRows(catalog, dataKeys), FamilyMask(f)), series, MolAll).Ok?
    ensures var runs := Successful(FlagRows(catalog, dataKeys), FamilyMask(f));
            var t := ReadData(f, catalog, runs, series, MolAll).value;
            |t| == AcceptedSamples(f, catalog, runs, series) &&
            forall r :: r in t ==>
              r.runId in RunKeys(dataKeys) && IsFamilyLabel(f, r.stage) && Accepted(f, catalog, r.runId, series)
  {
    var runs := Successful(FlagRows(catalog, dataKeys), FamilyMask(f));
    ReadDataShape(f, catalog, runs, series, MolAll);
    SuccessfulRowsAreStored(dataKeys, catalog, f);
  }

  /** Lines 26-49 of the driver: build `grid_df`, flag it in place, select and
      split each family, and extract both tables. */
  method RunExtraction(dataKeys: seq<string>, catalog: seq<CatalogRow>, series: SeriesStore)
    returns (r: Result<Tables>)
    ensures r == ExtractTables(dataKeys, catalog, series)
  {
    if |dataKeys| == 0 {
      return Err(NoCatalogKey);
    }
    var gridDf := new GridFrame(catalog);
    gridDf.AddValidityFlags(dataKeys);
    var flagged := gridDf.Flagged();
    var cshockDf := Where(flagged, CshockRows);
    var hotcoreDf := Where(flagged, HotcoreRows);
    var cshockSuccessful := Where(cshockDf, SuccessfulRuns);
    var hotcoreSuccessful := Where(hotcoreDf, SuccessfulRuns);
    var processedCshock := ExtractCshock(gridDf.rows, Rows(cshockSuccessful), series, MolAll);
    if processedCshock.Err? {
      return Err(processedCshock.error);
    }
    var processedHotcore := ExtractHotcore(gridDf.rows, Rows(hotcoreSuccessful), series, MolAll);
    if processedHotcore.Err? {
      return Err(processedHotcore.error);
    }
    r := Ok(Tables(processedCshock.value, processedHotcore.value));
  }
}
