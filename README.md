# CMZ data explorer: stage classification and extraction, in Dafny

This project models the extraction pipeline of the CMZ data explorer. The
pipeline turns the time series of astrochemical simulation runs into two flat
tables, one for hot-core (warm-up) models and one for C-shock models.

- `types.dfy` (`Types`): a grid-catalog row, a time-series sample, the
  exceptions the pipeline raises (`Error`), and the catalog lookup
  `grid_df.query("run_id == ...").iloc[0]` (`FindRun`).
- `stages.dfy` (`Stages`): the two stage classifiers. `hotcore_stage` yields
  pre-warmup, warmup, hotcore or unknown. `shock_stage` yields pre-shock,
  shock, post-shock or unknown. Temperatures and ages are exact `real`s, as
  the source compares floats exactly.
- `finders.dfy` (`Finders`): the two transition-age finders. A failed search
  is `None`, which stands for the `IndexError` of `iloc[0]`. It is never a
  default age.
- `molecules.dfy` (`Molecules`): the species lists (`mol_all` and its parts),
  and `format_molecule_HTML` as a loop proved against `FormattedLabel`.
- `extraction.dfy` (`Extraction`): `read_hotcore_data` and `read_cshock_data`
  share one model, parameterised by `Family`. `RunRecords` is what one run
  yields. `ReadData` is the whole stream in catalog order, or the first
  exception. `ExtractRuns`, `AppendRun` and `AppendSamples` are the loops of
  the generator together with the append loop of `extract_*`. Each is proved
  equal to the stream function.
- `dataset.dfy` (`DataExtraction`): the driver `data_extraction.py`. The
  `GridFrame` class gets its two flag columns in place. `Where` gives the
  boolean-mask selections. `RunExtraction` is proved equal to
  `ExtractTables`.

The HDF5 file is abstract. The catalog is a sequence of rows. The stored
series is a map from `run_id` to a sequence of samples. The keys of the file
are a sequence of strings.

The post-shock search looks for `Time > 1e1` (codes/functionality.py:114).
A run whose series is missing, empty or lacks a requested species raises; it
is not skipped. The finders' docstrings promise `None`, but `iloc[0]` raises,
so a failed search becomes `Err(TransitionNotFound)`. For a hot core this is
proved unreachable (`HotcoreTransitionAlwaysFound`). For a shock,
`CshockTransitionCanBeMissing` exhibits a run that passes the gate and then
raises.

## Model

| member | source | states |
|---|---|---|
| `Types.FindRun` | codes/functionality.py:196-197 | The lookup returns the first catalog row with the requested run_id. It fails exactly when no row has that id. |
| `Stages.HotcoreStage` | codes/functionality.py:158-181 | The result is one of the four hot-core labels. It is pre-warmup iff `temp == initialTemp`, at any age. It is warmup iff `initialTemp < temp < final_temp`. It is hotcore iff `temp == final_temp != initialTemp` and `age <= age_for_final_temp + 1e5`, a closed bound. Otherwise it is unknown, e.g. a temperature below `initialTemp` or above `final_temp` that equals neither of them, or a hot core past its 1e5 window. |
| `Stages.ShockStage` | codes/functionality.py:118-140 | The result is one of the four shock labels. It is pre-shock iff `age == 0` and `temp == initialTemp`. It is shock iff `temp > initialTemp`, at any age. It is post-shock iff `temp == initialTemp`, the age is nonzero and lies in the half-open window `[age_for_post_shock, age_for_post_shock + 1e5)`. A colder sample, or one at `initialTemp` at a nonzero age outside that window, is unknown. |
| `Stages.LabelInjective` | codes/functionality.py:173-181 | Distinct stages are written to the `stage` column as distinct strings. |
| `Stages.HotcoreScenario` | codes/functionality.py:173-181 | For initialTemp 15, final_temp 300 and final temperature first reached at age 1000, samples at ages 0, 500, 1000, 1000+1e5-1 and 1000+1e5+1 are labelled pre-warmup, warmup, hotcore, hotcore and unknown. |
| `Stages.ShockScenario` | codes/functionality.py:132-139 | For initialTemp 20 and post-shock age 20: (0, 20) is pre-shock, (10, 45) is shock, (20, 20) is post-shock and (1e5+21, 20) is unknown. |
| `Finders.FirstMatchAge` | codes/functionality.py:155-156 | The result is the age of the first sample in series order that satisfies the predicate. No earlier sample satisfies it. The result is `None` exactly when no sample does. |
| `Finders.FindAgeForFinalTemp` | codes/functionality.py:142-156 | The result is the age of the first sample with `gasTemp == final_temp`. The search fails iff no sample is at `final_temp`. |
| `Finders.FindAgeForPostShock` | codes/functionality.py:101-115 | The result is the age of the first sample with `gasTemp == initialTemp` and `Time > 10`, so it is above 10. The search fails iff no such sample exists. |
| `Finders.FinalTempFoundAfterGate` | codes/functionality.py:263-267 | If the last sample is at `final_temp`, the final-temperature search succeeds. |
| `Finders.PostShockSearchCanFailAfterGate` | codes/functionality.py:207-214 | The series (0, 20), (5, 45), (8, 20) ends at `initialTemp` and has a shock sample. Its post-shock search still fails. |
| `Molecules.SpeciesListsByPhase` | codes/functionality.py:13-35 | The lists have 24 gas, 22 bulk and 22 surface species, 68 in `mol_all`. Gas names have no prefix, bulk names start with '@' and surface names with '#'. `mol_exc_coms` is contained in `mol_all`. |
| `Molecules.TokenAt` | codes/functionality.py:72-82 | Each loop step consumes at least one character and never runs past the end of the name. |
| `Molecules.FormattedLabel` | codes/functionality.py:59-83 | The display form, token by token from the left. It has no contract of its own. `FormatMoleculeHtml` is proved equal to it, and `PlainLabelUnchanged` and `FormattedConcat` carry its properties. |
| `Molecules.FormatMoleculeHtml` | codes/functionality.py:59-83 | The loop returns exactly the display form `FormattedLabel` of the name. |
| `Molecules.PlainLabelUnchanged` | codes/functionality.py:69-83 | A name with no digit, no '+' and no "SI" pair is returned unchanged. |
| `Molecules.FormattedConcat` | codes/functionality.py:77-79 | Formatting a concatenation formats each part, unless the cut splits an "S" from a following "I". This is the only place where the pair rule couples neighbouring characters. |
| `Extraction.StageOf` | codes/functionality.py:218-275 | A record's stage is always one of its family's four labels. |
| `Extraction.FirstMissing` | codes/functionality.py:235 | It reports the first requested species, in list order, that has no column. It reports none exactly when every requested species has a column. |
| `Extraction.PassesGate` | codes/functionality.py:207-265 | The convergence gate: the last sample is at `final_temp` (hot core), or at `initialTemp` with some sample above it (shock). It has no contract of its own. `RejectedRunYieldsNothing`, `FinalTempFoundAfterGate` and `CshockTransitionCanBeMissing` carry its properties. |
| `Extraction.TransitionAge` | codes/functionality.py:214-267 | The finder each family calls once per run. It has no contract of its own. `HotcoreTransitionAlwaysFound` and `CshockTransitionCanBeMissing` carry its properties. |
| `Extraction.RunRecords` | codes/functionality.py:194-289 | What one run yields: lookups, family skip, series checks, gate, finder and samples, in source order. It has no contract of its own. `RejectedRunYieldsNothing`, `AcceptedRunRecords` and `HotcoreRunScenario` carry its properties, and `AppendRun` is proved against it. |
| `Extraction.ReadData` | codes/functionality.py:183-289 | The whole stream over the accepted rows, or the first exception. It has no contract of its own. `ReadDataShape` and `ReadDataConcat` carry its properties, and `ExtractRuns` is proved equal to it. |
| `Extraction.MakeRecord` | codes/functionality.py:216-236 | A record is built iff every requested species has a column. Its species map then holds exactly the requested species, with the sample's values. Where the source raises `KeyError(species)`, the model's `MissingSpecies` error carries both the run and the species. |
| `Extraction.SampleRecords` | codes/functionality.py:269-289 | When no sample raises, the run yields exactly one record per sample, in sample order, each the record built for that sample. Any failure is a missing species of this run. |
| `Extraction.RejectedRunYieldsNothing` | codes/functionality.py:259-265 | Once its row and parent are found, a run of the wrong `model_type`, or one whose non-empty series fails the convergence gate, is not accepted and yields no records. |
| `Extraction.HotcoreTransitionAlwaysFound` | codes/functionality.py:263-267 | A hot-core run never fails with `TransitionNotFound`. |
| `Extraction.CshockTransitionCanBeMissing` | codes/functionality.py:207-214 | A concrete shock run passes the gate (right `model_type`, last sample at `initialTemp`, one sample above it), yet reading it raises `TransitionNotFound`. |
| `Extraction.AcceptedRunRecords` | codes/functionality.py:250-289 | An accepted run that does not raise yields one record per sample, in order. Each record holds the sample's age, temperature, density and Av, and its stage under the run's transition age. Metallicity, `cloud_radfield` and `cloud_zeta` come from the parent row. `zeta`, `radfield`, the initial conditions, `bm0` and the family columns come from the run row. It also holds the requested species. |
| `Extraction.HotcoreRunScenario` | codes/functionality.py:261-289 | A concrete hot-core run with samples at ages 0, 500, 1000, 1000+1e5-1 and 1000+1e5+1 yields five records. Their stages are pre-warmup, warmup, hotcore, hotcore and unknown, and every record's cloud columns (`cloud_zeta`, `cloud_radfield`, metallicity) come from the parent. |
| `Extraction.ReadDataConcat` | codes/functionality.py:302-305 | Reading two consecutive stretches of the accepted rows gives the first stretch's records followed by the second's. An exception in the first stretch wins. |
| `Extraction.SampleRecordsConcat` | codes/functionality.py:216-236 | Records of two consecutive stretches of a series are those of the first followed by those of the second, and the first failure wins. |
| `Extraction.ReadDataShape` | codes/functionality.py:194-236 | A successful pass yields exactly as many records as the accepted runs have samples. Every record carries a label of its family and belongs to an accepted run that is in the list it was given, so a rejected run has no rows. |
| `Extraction.AppendSamples` | codes/functionality.py:269-289 | Appending each sample's record as it is yielded gives what was collected so far followed by the run's records, or the run's first exception. |
| `Extraction.AppendRun` | codes/functionality.py:250-267 | One iteration of the generator's outer loop appends exactly what the run yields, or raises its error. |
| `Extraction.ExtractRuns` | codes/functionality.py:318-321 | The collecting loop returns exactly the stream `ReadData`. |
| `Extraction.ExtractHotcore` | codes/functionality.py:291-305 | `extract_hotcore` returns the hot-core stream over the rows it is given. |
| `Extraction.ExtractCshock` | codes/functionality.py:307-321 | `extract_cshock` returns the shock stream over the rows it is given. |
| `DataExtraction.RunKeys` | data_extraction.py:34 | A key counts as a run key iff it is a key of the grid file other than the first, which holds the catalog. |
| `DataExtraction.FlagRows` | data_extraction.py:34-35 | Each row is kept as it is. It is flagged `is_in_dataset_keys` iff its run_id is a run key, and `parent_is_in_dataset_keys` iff its parent_run_id is one. |
| `DataExtraction.GridFrame.constructor` | data_extraction.py:31 | The frame holds the catalog rows and no flag columns yet. |
| `DataExtraction.GridFrame.AddValidityFlags` | data_extraction.py:34-35 | The two columns are added in place, one entry per row, equal to `FlagRows`. The rows do not change. |
| `DataExtraction.Where` | data_extraction.py:42-46 | A selection holds exactly the rows that satisfy its mask, and no more rows than its input. |
| `DataExtraction.WhereConcat` | data_extraction.py:38-46 | Selection keeps relative order: selecting from two consecutive stretches selects from each in turn. |
| `DataExtraction.FamilySelections` | data_extraction.py:38-39 | A row is in the cshock (hotcore) selection iff its `model_type` is 'cshock' ('hotcore') and its parent flag holds. The two selections share no row. |
| `DataExtraction.SplitPartitions` | data_extraction.py:42-46 | The successful and unsuccessful lists share no row. Together they hold every row of the selection exactly as often as it occurs there. |
| `DataExtraction.SuccessfulRowsAreStored` | data_extraction.py:38-43 | Each row handed to an extractor is a catalog row of that family. Both its run and its parent are stored in the grid file. |
| `DataExtraction.FamilyTableFromStoredRuns` | data_extraction.py:48-49 | Each table has exactly as many records as its family's accepted successful runs have samples. Every row belongs to a run stored in the grid file that its gate accepted, and carries one of the family's labels. |
| `DataExtraction.ExtractTables` | data_extraction.py:26-49 | The driver as a function: the cshock table, then the hot-core table, or the first exception. It has no contract of its own. `FamilyTableFromStoredRuns` and `SuccessfulRowsAreStored` carry its properties, and `RunExtraction` is proved equal to it. |
| `DataExtraction.RunExtraction` | data_extraction.py:26-49 | The driver computes exactly `ExtractTables`. It flags the catalog and selects and splits each family. Then the cshock successful rows, and after them the hot-core ones, go to their extractors with the unfiltered catalog and `mol_all`. A grid file without keys fails. |

## Left out

- Reading the grid file (`h5py.File`, `pd.read_hdf`), `shape_list` (data_extraction.py:30, never used), and writing the pickles (data_extraction.py:51-57) are I/O. The keys, catalog and series are inputs here, and the tables are the output.
- `ExtractTables`: the keys and the stored series are independent inputs, so the model admits a run key with no series and then fails with `SeriesNotFound`. The program cannot reach that state, because building `shape_list` (data_extraction.py:30) reads every key of `data_keys[1:]` before extraction starts; the model does not promise this.
- The `B0` column (codes/functionality.py:226) and `custom_round` (codes/functionality.py:85-99) use `np.sqrt` and float rounding, so records carry no `B0`.
- `zeta_scaled` is inserted by the dashboard (codes/Protostellar_objects.py, codes/Shocks.py). The dashboard files and codes/config.py are not part of this model.
- Floating point: values are exact reals. NaN, which pandas uses for a column a family does not fill, and IEEE rounding are not modelled.
- `FormatMoleculeHtml`: `str.isdigit` is modelled for ASCII digits '0'..'9' only. Python also accepts other Unicode digits.
- Run and parent lookups compare run_ids as strings. The source builds the `query` text by string interpolation, which a run_id containing a quote would break; that is not modelled.
- A sample's species columns are a map per sample. A pandas frame shares one column set across rows, so a missing column is reported at the first sample that lacks it.
- `pd.DataFrame(extracted_data)` is modelled as the list of records itself.
- The generator is lazy and the model computes each run eagerly. Because `extract_*` collects the whole stream before returning, the result and the first exception are the same.
