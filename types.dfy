/** Entities shared by the extraction pipeline: the grid catalog row, the
    time-series sample, the failures the pipeline can raise, and the catalog
    lookup `grid_df.query("run_id == ...").iloc[0]`. */
module Types {

  datatype Option<T> = None | Some(value: T)

  datatype Result<T> = Ok(value: T) | Err(error: Error)

  /** The exceptions the Python code raises; each one aborts the whole pass. */
  datatype Error =
    | NoCatalogKey                                  // data_keys[0] on a grid file without keys
    | RunNotFound(runId: string)                    // .iloc[0] on an empty run query
    | ParentNotFound(runId: string, parentRunId: string)  // .iloc[0] on an empty parent query
    | SeriesNotFound(runId: string)                 // pd.read_hdf with a missing key
    | EmptySeries(runId: string)                    // df.iloc[-1] on an empty series
    | TransitionNotFound(runId: string)             // temp_df.iloc[0] in a transition-age finder
    | MissingSpecies(runId: string, species: string) // row[species] on a missing column

  /** One row of the grid catalog: the static configuration of a run. */
  datatype CatalogRow = CatalogRow(
    runId: string,
    parentRunId: string,
    modelType: string,
    initialTemp: real,
    initialDens: real,
    zeta: real,
    radfield: real,
    finalTemp: real,
    shockVel: real,
    bm0: real,
    metallicity: real,
    modelIndex: int)

  /** One row of a run's time series; `abundances` holds the species columns. */
  datatype Sample = Sample(
    time: real,
    gasTemp: real,
    density: real,
    av: real,
    abundances: map<string, real>)

  /** The per-run series stored under each run's key in the grid file. */
  type SeriesStore = map<string, seq<Sample>>

  /** Index of the first catalog row whose run_id is `id`, or |grid| if none. */
  function RunIndex(grid: seq<CatalogRow>, id: string): (k: nat)
    ensures k <= |grid|
    ensures forall j :: 0 <= j < k ==> grid[j].runId != id
    ensures k < |grid| ==> grid[k].runId == id
  {
    if |grid| == 0 then 0
    else if grid[0].runId == id then 0
    else 1 + RunIndex(grid[1..], id)
  }

  /** `grid_df.query(f"run_id == '{id}'").iloc[0]`: the first row with that
      run_id; `None` stands for the IndexError of an empty query. */
  function FindRun(grid: seq<CatalogRow>, id: string): (r: Option<CatalogRow>)
    ensures r.None? <==> forall j :: 0 <= j < |grid| ==> grid[j].runId != id
    ensures r.Some? ==> r.value.runId == id && r.value in grid
    ensures r.Some? ==> exists k :: 0 <= k < |grid| && grid[k] == r.value &&
                                     forall j :: 0 <= j < k ==> grid[j].runId != id
  {
    var k := RunIndex(grid, id);
    if k < |grid| then Some(grid[k]) else None
  }
}
