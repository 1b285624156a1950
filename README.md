# AstroCast core in Dafny

AstroCast turns dekadal (ten-day) NDVI rasters of East Africa into a
per-county time series of vegetation condition and forecasts it. This
project models the parts of the pipeline that are array, index and state
bookkeeping, and proves what they compute.

- `whittaker_outliers.dfy`, `whittaker_operator.dfy`,
  `whittaker_smoothing.dfy`, `whittaker_strips.dfy`: the per-pixel
  smoothing engine. It has the left-to-right outlier pass. It has the rule
  that sends a pixel with more than 400 sentinel samples to the all-sentinel
  series. `smooth_all` splices the unsmoothed history onto the re-smoothed
  tail. The third-difference operator D sits behind the Whittaker solve.
  `run_smoothing` keeps strip and day bookkeeping (157 strips of 23 columns,
  artifacts keyed by strip and day), and `create_tif` reassembles them.
  `smooth_new`, `smooth_all`, `run_smoothing` and `create_tif` are methods
  over arrays and an artifact store, proved against functions on sequences.
- `vci3m.dfy`: the nine-raster averaging window of `convert_VCI_to_VCI3M`,
  including `insert(-1)` as written, and the padding of rasters from 2019
  on.
- `fix_size.dfy`: the padding of undersized NDVI rasters with the
  sentinel, and its idempotence.
- `normalisation.dfy`: the per-pixel `fmin`/`fmax` accumulators of
  `NDVI_normalisation`, reset only at file index 0.
- `ndvi_to_vci.dfy`: cloud masking, the min/max key and the VCI ratio, with
  the `[6:-7, 5:-5]` crop of the 2019 branch, in NumPy's masked-array
  arithmetic.
- `aggregate.dfy`: the 1% rule, the row layout of `final_array`, the
  dataset names and the create/append semantics of `save_to_hdf`, which
  `open_files` calls after its loop (`Aggregate.Aggregator.OpenFilesAndSave`).
- `hindcasts.dfy`: the diagonal placement of the lagged forecasts and the
  resize/write region of `save_the_data`, including the resized dataset a
  failed write leaves behind.
- `main.dfy` (module `Pipeline`): the mode dispatch, the new-file mask,
  the eight-step back-extension of the VCI file mask, and where each
  branch stops, as written and with its forecast call corrected.
- `values.dfy`, `text.dfy`, `grids.dfy`: the shared model of NumPy values
  (a real, NaN or an infinity), Python string operations on paths, and
  rasters with their padding and cropping.

Pixel values in the smoothing engine are `real`. The no-data sentinel is
1.175494351e-38, written out exactly, and it lies below the 0.01 floor as in
the code. Elsewhere a pixel is a `Value` (a number, NaN or an infinity) with
exact arithmetic. File contents, HDF5 files and artifact stores are maps
from paths or names to rasters or rows. The conjugate-gradient solve and
the Gaussian-process forecast are function parameters.

The outlier test looks one step ahead: a spike at step 20 is caught at
i = 19, and samples 18..21 are rewritten onto the flat line
(`WhittakerOutliers.SpikeFlattened`).

The VCI division of `NDVI_to_VCI.py` divides a NumPy masked array, so a VCI
cell is a value with a mask bit (`Values.MaskedCell`). Every quotient that
is not finite, such as that of a cloud pixel or of a pixel whose minimum and
maximum agree, is masked, and the masked cell keeps NumPy's replacement
data.

## Model

| member | source | states |
|---|---|---|
| WhittakerOutliers.Line | AstroCast/whittaker_smoothing.py:143-147 | the four rewritten samples start at v[i-1], end at v[i+2] and take the values one third and two thirds of the way along the straight line between them |
| WhittakerOutliers.Overwrite | AstroCast/whittaker_smoothing.py:147 | the slice assignment to NDVI[i-1:i+3] keeps the length, leaves every sample outside i-1..i+2 alone and puts the line there |
| WhittakerOutliers.PassFrom | AstroCast/whittaker_smoothing.py:141-147 | the pass from a given index keeps the length and the two end samples, and never changes a sample before start-1 |
| WhittakerOutliers.OutlierPass | AstroCast/whittaker_smoothing.py:141 | the pass over i = 1..N-3 is length-preserving |
| WhittakerOutliers.ShortSeriesUnchanged | AstroCast/whittaker_smoothing.py:141 | with N <= 3 the range is empty and the series is returned unchanged |
| WhittakerOutliers.PassKeepsEnds | AstroCast/whittaker_smoothing.py:141-147 | the first and the last sample are never changed by the pass |
| WhittakerOutliers.SentinelFires | AstroCast/whittaker_smoothing.py:142 | a sample equal to the no-data sentinel (below 0.01) always triggers a correction |
| WhittakerOutliers.FloorPassIdentity | AstroCast/whittaker_smoothing.py:85-92 | the floor-only historical loop of smooth_all leaves a series with no sample below 0.01 unchanged |
| WhittakerOutliers.ConstantPassIdentity | AstroCast/whittaker_smoothing.py:141-147 | a flat series at or above the floor is not changed by the full test |
| WhittakerOutliers.SpikeFlattened | AstroCast/whittaker_smoothing.py:141-147 | a single upward spike of at least 0.2 on a flat series is removed completely: the test fires one step before the spike and rewrites the four samples around it onto the flat line |
| WhittakerOutliers.PassReadsRewrittenSamples | AstroCast/whittaker_smoothing.py:141-147 | the pass is sequential: a correction at i removes a jump that the unmodified input shows at i+1, so the test at i+1 no longer fires |
| WhittakerOutliers.CorrectInPlace | AstroCast/whittaker_smoothing.py:137-147 | the in-place loop over the view a[lo..hi] leaves the array equal to the pass applied to the view, with everything outside the view unchanged |
| WhittakerOutliers.RewriteWindow | AstroCast/whittaker_smoothing.py:143-147 | one in-place correction turns the view into Overwrite of the old view and leaves the rest of the array unchanged |
| WhittakerOperator.Identity | AstroCast/whittaker_smoothing.py:23 | sp.sparse.eye(n) is an n x n grid |
| WhittakerOperator.DiaMatrix | AstroCast/whittaker_smoothing.py:28 | dia_matrix((data, offsets), shape) has the requested shape |
| WhittakerOperator.ThirdDifference | AstroCast/whittaker_smoothing.py:24-28 | D built from d1..d4 at offsets 0..3 has N-3 rows and N columns |
| WhittakerOperator.ThirdDifferenceEntries | AstroCast/whittaker_smoothing.py:24-28 | row i of D holds -1, 3, -3, 1 at columns i..i+3 and zero everywhere else |
| WhittakerOperator.ThirdDifferenceApplied | AstroCast/whittaker_smoothing.py:28 | D applied to a series gives its third forward differences -s[i] + 3 s[i+1] - 3 s[i+2] + s[i+3] |
| WhittakerOperator.ThirdDifferenceKillsQuadratics | AstroCast/whittaker_smoothing.py:28-29 | the roughness penalty is zero on every quadratic trend: D maps it to the zero vector |
| WhittakerOperator.SystemMatrix | AstroCast/whittaker_smoothing.py:29 | E + lmda * D^T D is an N x N matrix |
| WhittakerOperator.SystemMatrixEntry | AstroCast/whittaker_smoothing.py:29 | entry (i, j) is the identity entry plus lambda times the dot product of columns i and j of D |
| WhittakerOperator.SystemMatrixSymmetric | AstroCast/whittaker_smoothing.py:29 | the matrix handed to cg is symmetric |
| WhittakerOperator.SystemMatrixBanded | AstroCast/whittaker_smoothing.py:29 | the matrix handed to cg is zero outside the band abs(i - j) <= 3 |
| WhittakerOperator.SystemMatrixDiagonal | AstroCast/whittaker_smoothing.py:29 | for lmda >= 0 every diagonal entry is at least 1 |
| WhittakerOperator.Whitsm | AstroCast/whittaker_smoothing.py:21-30 | whitsm returns a series of the data length (the cg answer, an oracle of the model, for that system matrix, tolerance 3e-2 and the given iteration cap) |
| WhittakerSmoothing.CountEqual | AstroCast/whittaker_smoothing.py:74 | np.count_nonzero(v == x) is at most the length and is zero exactly when no sample equals x |
| WhittakerSmoothing.DropFront | AstroCast/whittaker_smoothing.py:110 | Python's z[k:]: the samples from k on, empty when k is past the end |
| WhittakerSmoothing.SmoothNewSeries | AstroCast/whittaker_smoothing.py:132-155 | smooth_new's result for one pixel has the series' length (all sentinels when more than 400 samples are the sentinel, otherwise whitsm of the corrected series with lambda 5 and maxiter 10 N) |
| WhittakerSmoothing.BothPasses | AstroCast/whittaker_smoothing.py:78-101 | the floor-only pass on the view [:563] followed by the full pass on the view [553:] of the same column keeps the length |
| WhittakerSmoothing.SmoothAllSeries | AstroCast/whittaker_smoothing.py:65-110 | smooth_all's result for one pixel has the series' length |
| WhittakerSmoothing.SolvedTail | AstroCast/whittaker_smoothing.py:107 | the solve in smooth_all covers the N-553 samples from index 553 on |
| WhittakerSmoothing.SparseHistoryFills | AstroCast/whittaker_smoothing.py:74-75 | more than 400 sentinels among the first 563 samples gives an all-sentinel output, whatever the later samples hold |
| WhittakerSmoothing.SmoothAllTailFromSolver | AstroCast/whittaker_smoothing.py:107-110 | every output sample from 563 on is the solver's answer shifted by the ten overlap samples it drops |
| WhittakerSmoothing.SmoothAllHistoryNotSolved | AstroCast/whittaker_smoothing.py:78-110 | the first 563 output samples are the corrected but unsmoothed samples, including the full pass's rewrites in the ten shared samples 553..562 |
| WhittakerSmoothing.CleanHistoryKept | AstroCast/whittaker_smoothing.py:85-110 | a history with no sample below 0.01 comes out unchanged up to index 553 |
| WhittakerSmoothing.Copy | AstroCast/whittaker_smoothing.py:117 | np.array makes a fresh array holding the series |
| WhittakerSmoothing.SmoothPixelNew | AstroCast/whittaker_smoothing.py:132-155 | the in-place pixel smoothing of smooth_new returns exactly SmoothNewSeries |
| WhittakerSmoothing.SmoothPixelAll | AstroCast/whittaker_smoothing.py:74-110 | the in-place pixel smoothing of smooth_all (two passes over overlapping views, the solve, the concatenation) returns exactly SmoothAllSeries |
| WhittakerSmoothing.PixelSeries | AstroCast/whittaker_smoothing.py:137 | smoothing_array[:, y, x] is the series of that pixel through the stack |
| WhittakerSmoothing.SmoothSeries | AstroCast/whittaker_smoothing.py:207-215 | run_smoothing applies smooth_new when end_only is set and smooth_all otherwise, keeping the length |
| WhittakerSmoothing.SmoothStrip | AstroCast/whittaker_smoothing.py:129-158 | the x/y loops fill every cell of a fresh (N, height, width) array with the smoothed value of that pixel's own series |
| WhittakerSmoothing.SmoothColumn | AstroCast/whittaker_smoothing.py:130-155 | the loop over y fills column x of every layer and leaves every other column unchanged |
| WhittakerSmoothing.Layer | AstroCast/whittaker_smoothing.py:219 | Smoothed_NDVI[t, :, :] is the height x width grid of layer t |
| WhittakerStrips.StripOffsets | AstroCast/whittaker_smoothing.py:190 | range(0, 3611, 23) yields exactly the 157 offsets 23 s for s = 0..156 |
| WhittakerStrips.StripOf | AstroCast/whittaker_smoothing.py:190 | every column lies in the strip c / 23, and every column below 3611 lies in one of the 157 strips |
| WhittakerStrips.InStripColumn | AstroCast/whittaker_smoothing.py:170-171 | a column's position inside its strip is below 23 and recovers the column as 23 s + x |
| WhittakerStrips.StripsDisjoint | AstroCast/whittaker_smoothing.py:190 | no column lies in two strips |
| WhittakerStrips.Window | AstroCast/whittaker_smoothing.py:49-51 | Window(pos_x, 0, 23, 4406) is a 4406 x 23 grid whose cell (r, x) is cell (r, pos_x + x) of the raster |
| WhittakerStrips.WindowStack | AstroCast/whittaker_smoothing.py:199-202 | the strip's stack holds one window per file, in file order |
| WhittakerStrips.StripLayer | AstroCast/whittaker_smoothing.py:218-219 | the artifact saved for (strip, day) is a 4406 x 23 layer |
| WhittakerStrips.SmoothedDay | AstroCast/whittaker_smoothing.py:162-174 | day t of the raster smoothed pixel by pixel is a 4406 x 3611 grid |
| WhittakerStrips.Reassemble | AstroCast/whittaker_smoothing.py:167-172 | TIFF_NDVI takes column c from the artifact of strip c / 23 at position c mod 23 |
| WhittakerStrips.WindowPixelSeries | AstroCast/whittaker_smoothing.py:199-202 | a pixel of strip s has the series of raster column 23 s + x |
| WhittakerStrips.StripsReassembleDay | AstroCast/whittaker_smoothing.py:169-219 | cutting into strips changes nothing: the image reassembled from the 157 artifacts of a day is that day of the raster smoothed pixel by pixel, each column back in its own place |
| WhittakerStrips.ReassembleFrom | AstroCast/whittaker_smoothing.py:169-172 | blocks that agree with a raster strip by strip reassemble into that raster |
| WhittakerStrips.StripCell | AstroCast/whittaker_smoothing.py:199-219 | one pixel of a strip artifact is the pixel of the full raster smoothed on its own series |
| WhittakerStrips.PySuffix | AstroCast/whittaker_smoothing.py:227 | dates[-k:] has k entries when 1 <= k <= len and all of them otherwise, and is a suffix |
| WhittakerStrips.DayBlocks | AstroCast/whittaker_smoothing.py:169-172 | the artifacts of one day in strip order, each of the artifact shape |
| WhittakerStrips.ArtifactsFound | AstroCast/whittaker_smoothing.py:218-230 | every key (s, offset + k) create_tif loads was saved exactly when the whole run is smoothed or 1 <= amount_of_new_files <= N; otherwise already the first day it loads is missing |
| WhittakerStrips.ParsedDates | AstroCast/whittaker_smoothing.py:199-201 | one parsed date per file |
| WhittakerStrips.ParsedDatesAt | AstroCast/whittaker_smoothing.py:53 | file t's date is the text between 'dekadal.' and '.tif' |
| WhittakerStrips.Dates | AstroCast/whittaker_smoothing.py:199-201 | the dates list has one entry per file |
| WhittakerStrips.SmoothingRun.constructor | AstroCast/whittaker_smoothing.py:236-238 | the run starts with an empty artifact store and nothing written |
| WhittakerStrips.SmoothingRun.CreateTif | AstroCast/whittaker_smoothing.py:162-174 | succeeds exactly when every artifact it loads is stored, and then appends one reassembled image per date; when the first day is missing it writes nothing; the store is not changed |
| WhittakerStrips.SmoothingRun.FillBuffer | AstroCast/whittaker_smoothing.py:169-172 | the buffer is complete exactly when all 157 artifacts of the day exist, and then column c holds the artifact of its strip |
| WhittakerStrips.SmoothingRun.RunSmoothing | AstroCast/whittaker_smoothing.py:179-238 | fails on the first undated file with nothing stored or written; writes exactly when the whole run is smoothed or 1 <= amount_of_new_files <= N, and then writes each output date with its day smoothed pixel by pixel and clears the store; a missing artifact writes nothing and leaves every smoothed layer in the store |
| WhittakerStrips.SmoothingRun.SmoothStrips | AstroCast/whittaker_smoothing.py:190-219 | after the strip loop the store holds (s, t) for exactly the 157 strips and N days, each the smoothed layer of that strip; an undated file stops it in the first strip with nothing stored |
| WhittakerStrips.SmoothingRun.SaveLayers | AstroCast/whittaker_smoothing.py:218-219 | saves layer t of the strip under (strip, t) for every t and changes no other key |
| WhittakerStrips.SmoothingRun.ReadStrip | AstroCast/whittaker_smoothing.py:199-202 | reads the date and the window of each file in order, stopping at the first file without a date |
| WhittakerStrips.ReadImageDate | AstroCast/whittaker_smoothing.py:53 | read_image's date is the file's parsed date |
| WhittakerStrips.DatesRead | AstroCast/whittaker_smoothing.py:199-201 | dates read for every file are the dates list of all the files |
| WhittakerStrips.WrittenIsExpected | AstroCast/whittaker_smoothing.py:223-230 | the images create_tif writes from a full store are the output dates with their days smoothed pixel by pixel, offset by len(files) - amount_of_new_files |
| WhittakerStrips.LayerIsStripLayer | AstroCast/whittaker_smoothing.py:219 | layer t of a smoothed strip is the artifact StripLayer describes |
| WhittakerStrips.Frozen | AstroCast/whittaker_smoothing.py:167-174 | the buffer handed to write_image, as a grid |
| VciToVci3m.InsertBeforeLast | AstroCast/VCI_To_VCI3M.py:181 | list.insert(-1, x) puts x just before the last entry, keeps the others in order, and gives [x] on an empty list |
| VciToVci3m.AsWrittenStep | AstroCast/VCI_To_VCI3M.py:173-185 | pop(0) then insert(-1, x) keeps the list's length |
| VciToVci3m.Window | AstroCast/VCI_To_VCI3M.py:124-185 | average_list after step i always holds nine entries |
| VciToVci3m.WindowPrefix | AstroCast/VCI_To_VCI3M.py:169-185 | the list at step i depends only on files 0..i |
| VciToVci3m.WindowIndices | AstroCast/VCI_To_VCI3M.py:169-185 | the file numbers the list holds at step i, nine of them |
| VciToVci3m.WindowShape | AstroCast/VCI_To_VCI3M.py:169-185 | the list holds nine distinct files, none later than i, with file i next to last from step 9 on and file 8 always last |
| VciToVci3m.IndicesStep | AstroCast/VCI_To_VCI3M.py:173-185 | one pop(0)/insert(-1) step turns the file numbers of step i-1 into those of step i |
| VciToVci3m.WindowStack | AstroCast/VCI_To_VCI3M.py:169-185 | the list at step i in closed form: the nine rasters WindowIndices names |
| VciToVci3m.WindowIsStack | AstroCast/VCI_To_VCI3M.py:124-185 | the list the loops build is that closed form at every step |
| VciToVci3m.EarlyWindowHoldsLastNine | AstroCast/VCI_To_VCI3M.py:169-188 | for 9 <= i <= 16 the list holds exactly files i-8..i, in another order |
| VciToVci3m.LateWindowKeepsNinth | AstroCast/VCI_To_VCI3M.py:169-188 | from step 17 on file 8 never leaves the list and file i-8 is missing from it |
| VciToVci3m.Range | AstroCast/VCI_To_VCI3M.py:169 | range(lo, hi) as a sequence |
| VciToVci3m.WindowNotLastNine | AstroCast/VCI_To_VCI3M.py:173-185 | as written, the list at every step from 17 on differs from the last nine files |
| VciToVci3m.SlideStep | AstroCast/VCI_To_VCI3M.py:151-155 | pop(0) then append(x), the update the docstring describes, keeps the length and puts x last |
| VciToVci3m.SlidingWindow | AstroCast/VCI_To_VCI3M.py:151-155 | the list after step i when each step slides has nine entries |
| VciToVci3m.SlidingIsLastNine | AstroCast/VCI_To_VCI3M.py:151-155 | with a sliding update the list after step i is files i-8..i in order |
| VciToVci3m.StampOfMeans | AstroCast/VCI_To_VCI3M.py:171-177 | a file has a date exactly when its name holds 'RCMRD_VCI\\'; the date holds neither marker, and the year is int(date[:4]) |
| VciToVci3m.Stamps | AstroCast/VCI_To_VCI3M.py:171 | one date/year stamp per file |
| VciToVci3m.StampsAt | AstroCast/VCI_To_VCI3M.py:171 | stamp t is the stamp of files[t] |
| VciToVci3m.PixelValues | AstroCast/VCI_To_VCI3M.py:188 | the values of one pixel through the stacked list |
| VciToVci3m.StackMean | AstroCast/VCI_To_VCI3M.py:188 | np.nanmean(np.array(average_list), axis=0) has the rasters' shape |
| VciToVci3m.StackMeanWithin | AstroCast/VCI_To_VCI3M.py:188 | the mean is NaN exactly where all nine inputs are NaN and otherwise stays in the inputs' range |
| VciToVci3m.Entering | AstroCast/VCI_To_VCI3M.py:175-185 | the rasters of files 0..n-1 as they enter the list, one per file |
| VciToVci3m.Closing | AstroCast/VCI_To_VCI3M.py:124-185 | the list when step i has been taken holds nine rasters |
| VciToVci3m.FirstClosing | AstroCast/VCI_To_VCI3M.py:124-135 | populate_average_list loads files 0..8 in order and never pads them |
| VciToVci3m.EnteringUnpadded | AstroCast/VCI_To_VCI3M.py:124-135 | the first nine rasters enter as read, whatever their year |
| VciToVci3m.ClosingStep | AstroCast/VCI_To_VCI3M.py:173-185 | each step pops the oldest raster and inserts file i's raster, padded from 2019 on, before the last entry |
| VciToVci3m.EnteringAt | AstroCast/VCI_To_VCI3M.py:175-185 | raster t enters padded exactly when t >= 9 and its year is 2019 or later |
| VciToVci3m.ClosingHolds | AstroCast/VCI_To_VCI3M.py:169-188 | the list at step i holds the rasters of the files WindowIndices(i) names, so file 8's raster never leaves it |
| VciToVci3m.OutputsExtend | AstroCast/VCI_To_VCI3M.py:188-190 | one more stackable list extends the stored files by its mean under file i's date |
| VciToVci3m.OutputsSplit | AstroCast/VCI_To_VCI3M.py:139-143 | the stored files are the first list's mean followed by create_VCI3M's |
| VciToVci3m.StoredAfterFirst | AstroCast/VCI_To_VCI3M.py:139-190 | the first store followed by the loop's stores up to step hi gives one output per step 8 <= i < hi, so len(files)-8 in all when the loop completes |
| VciToVci3m.UndatedStops | AstroCast/VCI_To_VCI3M.py:171 | a file without a date (or whose first four characters are not a year) stops the run |
| VciToVci3m.MismatchStops | AstroCast/VCI_To_VCI3M.py:188 | a list of rasters of different shapes stops the run at np.array |
| VciToVci3m.Converter.constructor | AstroCast/VCI_To_VCI3M.py:49-68 | the converter starts with the file list, an empty average_list and nothing stored |
| VciToVci3m.Converter.PopulateAverageList | AstroCast/VCI_To_VCI3M.py:105-143 | the whole run completes exactly when there are at least nine dated files and every list stacks, and then stores the mean of every list under the date of the file that closed it; fewer than nine files is the IndexError and stores nothing; a missing date or a shape mismatch at file k (named by the ghost `reached`) leaves stored exactly the means of the lists closed before k, one per step 8 <= i < k |
| VciToVci3m.Converter.StoreFirst | AstroCast/VCI_To_VCI3M.py:139-141 | the first mean is stored under files[8]'s date, or the shape mismatch stops the run at file 8 with nothing stored |
| VciToVci3m.Converter.ReadFirstNine | AstroCast/VCI_To_VCI3M.py:124-135 | average_list becomes the first nine rasters as read and the date that of files[8], or the run stops on a missing file or on the first file k < 9 without a date, nothing stored |
| VciToVci3m.Converter.ReadDate | AstroCast/VCI_To_VCI3M.py:171-177 | the date of file i is set, or its missing date or year stops the run, exactly when file i has no date |
| VciToVci3m.Converter.CreateVci3m | AstroCast/VCI_To_VCI3M.py:148-190 | completes exactly when every later file is dated and every list stacks, storing one mean per step i >= 9; stopped at file k by a missing date or a shape mismatch, it has stored the means of steps 9 <= i < k and no other |
| VciToVci3m.Converter.Advance | AstroCast/VCI_To_VCI3M.py:169-190 | one loop pass: file i's date, the next list, its mean stored, or a failure at file i (no date, or a list that does not stack) that stores nothing |
| VciToVci3m.Converter.Slide | AstroCast/VCI_To_VCI3M.py:173-185 | pop(0), then file i's raster, padded when its year is 2019 or later, inserted before the last entry |
| VciToVci3m.Converter.StoreMean | AstroCast/VCI_To_VCI3M.py:188-190 | the list's nanmean is stored under file i's date, or, exactly when the list does not stack, the shape mismatch stops the run |
| VciToVci3m.Converter.ChangeFileSize | AstroCast/VCI_To_VCI3M.py:195-228 | the raster gains seven NaN rows above, six below and five NaN columns on each side |
| Grids.Padded | AstroCast/fix_size.py:28-44 | the padded raster has shape (r+13, c+10), the original at offset (7, 5) and the fill value everywhere else |
| Grids.InsertRowsAbove | AstroCast/VCI_To_VCI3M.py:212-214 | repeated np.insert(A, 0, fill, axis=0) puts count fill rows above the raster and shifts it down |
| Grids.InsertRowsBelow | AstroCast/VCI_To_VCI3M.py:216-219 | repeated np.insert(A, len(A[:, 0]), fill, axis=0) appends count fill rows below the raster |
| Grids.InsertColumnsLeft | AstroCast/VCI_To_VCI3M.py:221-223 | repeated np.insert(A, 0, fill, axis=1) puts count fill columns left of the raster |
| Grids.InsertColumnsRight | AstroCast/VCI_To_VCI3M.py:225-228 | repeated np.insert(A, len(A[0, :]), fill, axis=1) appends count fill columns on the right |
| Grids.PadEdges | AstroCast/VCI_To_VCI3M.py:212-228 | the four insert loops together give exactly the padded raster |
| Grids.SliceInner | AstroCast/NDVI_to_VCI.py:151-152 | Python's s[lo:-back] is the middle of s when s is long enough and empty otherwise |
| Grids.CroppedShape | AstroCast/NDVI_to_VCI.py:151-152 | the crop [6:-7, 5:-5] takes an r x c raster to (r-13) x (c-10) with cell (i, j) equal to cell (i+6, j+5) |
| Grids.CroppedPaddedShifted | AstroCast/NDVI_to_VCI.py:151-152 | cropping a padded raster moves every row down by one and brings a fill row in on top |
| Grids.CroppedAlignedInvertsPadding | AstroCast/fix_size.py:28-44 | the crop [7:-6, 5:-5], the evident intent of the crop at NDVI_to_VCI.py:151-152, undoes this padding exactly |
| Grids.Zip | AstroCast/NDVI_to_VCI.py:156 | an elementwise numpy expression of two arrays of one shape keeps the shape and combines cell by cell |
| Grids.MapCells | AstroCast/NDVI_to_VCI.py:96 | an elementwise numpy expression of one array keeps the shape and maps cell by cell |
| FixSize.OutputNameMeans | AstroCast/fix_size.py:22-48 | the output name holds no backslash and no '.tif', so every output lands directly in the NDVI directory |
| FixSize.Years | AstroCast/fix_size.py:20 | one parsed year per file |
| FixSize.YearsAt | AstroCast/fix_size.py:20 | file t's year is int() of the first four characters after the last 'dekadal.' of the '.tif'-stripped name |
| FixSize.Names | AstroCast/fix_size.py:22 | one output name per file |
| FixSize.NamesAt | AstroCast/fix_size.py:22 | file t's name is the part of its '.tif'-stripped path after the last backslash |
| FixSize.Resized | AstroCast/fix_size.py:20-50 | a file is written exactly when its year is at least 2017 and its size differs from 15910066, under its output path, with shape (r+13, c+10) |
| FixSize.ChangeFileSize | AstroCast/fix_size.py:13-50 | an empty list writes nothing; otherwise the writes are those of the files in order, up to the first file whose year does not parse, which stops the loop with the ValueError |
| FixSize.ReadYear | AstroCast/fix_size.py:20 | the year read for file i is its parsed year |
| FixSize.ReadName | AstroCast/fix_size.py:22 | the name read for file i is its output name |
| FixSize.ResizeFile | AstroCast/fix_size.py:20-50 | the size test and the sentinel padding of one file give exactly Resized |
| FixSize.ResizedAreWritten | AstroCast/fix_size.py:18-50 | every file of 2017 or later whose size is not 15910066 is written, padded |
| FixSize.WritesAreResized | AstroCast/fix_size.py:18-50 | every write is the padding of one of the files, and nothing else is written |
| FixSize.PaddedCells | AstroCast/fix_size.py:28-44 | the original sits at offset (7, 5) and every new cell is the sentinel 1.175494351e-38 |
| FixSize.ResizeIdempotent | AstroCast/fix_size.py:26-44 | a 4393 x 3601 raster becomes 4406 x 3611 = 15910066 cells, so a second run leaves it unwritten |
| Normalisation.Keys | AstroCast/NDVI_Normalisation.py:63-64 | one timestep key per path |
| Normalisation.KeysAt | AstroCast/NDVI_Normalisation.py:63-64 | path t's key is its base name, '.tif' stripped, from character 12 on |
| Normalisation.Step | AstroCast/NDVI_Normalisation.py:133-141 | a matching file replaces both accumulators when its index is 0; otherwise np.fmax raises (a mismatch at that file, accumulators untouched) exactly when the raster's shape differs from the accumulators', and the file is folded in with fmax/fmin, keeping the accumulators' shape, when it does not |
| Normalisation.Fold | AstroCast/NDVI_Normalisation.py:123-141 | the inner loop keeps both accumulators one shape, leaves them set once any file has matched, and changes nothing after a mismatch |
| Normalisation.Through | AstroCast/NDVI_Normalisation.py:122-145 | the accumulators after the first k timesteps are set and keep one shape |
| Normalisation.Saves | AstroCast/NDVI_Normalisation.py:89-97 | at most two saves per timestep, Min_ then Max_, none for the timestep whose pass raised |
| Normalisation.FoldStops | AstroCast/NDVI_Normalisation.py:140 | once the pass has stopped at a mismatch, the later files change nothing (the ValueError ends the loop) |
| Normalisation.ThroughRunning | AstroCast/NDVI_Normalisation.py:122-145 | a run still going after k timesteps went through every earlier one and made exactly two saves per timestep |
| Normalisation.ThroughStops | AstroCast/NDVI_Normalisation.py:122-145 | a mismatch in timestep j + 1 ends the run: the state stays, and the saves are those of the first j timesteps, 2j files |
| Normalisation.Normaliser.constructor | AstroCast/NDVI_Normalisation.py:62-69 | files are the first 648 paths, the timesteps the keys of the first 36, the accumulators unset; the first file's key is the first timestep |
| Normalisation.Normaliser.Normalise | AstroCast/NDVI_Normalisation.py:103-145 | after the run the accumulators are those of all timesteps in order, with Min_/Max_ saved after each timestep, and self.timestep is the last timestep; a matching raster of another shape raises at np.fmax (reported with its file number) in timestep `done`, after exactly the saves of the `done` timesteps before it, with self.timestep that timestep |
| Normalisation.Normaliser.OneTimestep | AstroCast/NDVI_Normalisation.py:122-145 | one outer pass folds in the files of timestep k and saves both accumulators under its name, or stops at a mismatch with nothing saved |
| Normalisation.Normaliser.PassFiles | AstroCast/NDVI_Normalisation.py:123-141 | the inner loop leaves the accumulators equal to Fold over every file whose key contains the timestep, and reports the file that stopped it exactly when Fold stops |
| Normalisation.Normaliser.Absorb | AstroCast/NDVI_Normalisation.py:133-141 | a matching file of the accumulators' shape updates self.mins and self.maxes in place to what Step gives: both reset to it at index 0, np.fmin/np.fmax of it otherwise |
| Normalisation.Normaliser.ReadKey | AstroCast/NDVI_Normalisation.py:124 | the key read for a file is its timestep key |
| Normalisation.Normaliser.SaveFile | AstroCast/NDVI_Normalisation.py:72-97 | save_file writes Min_<timestep>.tif then Max_<timestep>.tif and changes nothing else |
| Normalisation.CellStep | AstroCast/NDVI_Normalisation.py:140-141 | one fmin/fmax step keeps a pixel's minimum at or below its maximum and NaN on both or neither |
| Normalisation.CellFresh | AstroCast/NDVI_Normalisation.py:135-136 | a reset pixel is ordered |
| Normalisation.StepOrdered | AstroCast/NDVI_Normalisation.py:133-141 | one step keeps every pixel ordered |
| Normalisation.FoldOrdered | AstroCast/NDVI_Normalisation.py:123-141 | the inner loop keeps every pixel ordered |
| Normalisation.ThroughOrdered | AstroCast/NDVI_Normalisation.py:122-141 | through the whole run mins <= maxes wherever numeric, and mins is NaN exactly where maxes is |
| Normalisation.WidenedReflexive | AstroCast/NDVI_Normalisation.py:140-141 | every accumulator is a widening of itself |
| Normalisation.WidenedTransitive | AstroCast/NDVI_Normalisation.py:140-141 | widening composes over successive files |
| Normalisation.StepWidens | AstroCast/NDVI_Normalisation.py:138-141 | a file other than index 0 of the accumulators' shape never lowers a maximum or raises a minimum |
| Normalisation.FoldWidens | AstroCast/NDVI_Normalisation.py:133-141 | when the first file does not match, nothing resets: a timestep's pass only widens what the earlier timesteps left |
| Normalisation.CarriedAcrossTimesteps | AstroCast/NDVI_Normalisation.py:133-141 | as written, Min_0111 is 1 though the only 0111 file holds 2, because timestep 0101's minimum is carried over |
| Normalisation.NotContainedAt | AstroCast/NDVI_Normalisation.py:125 | two different keys of one length do not contain each other |
| Normalisation.FoldFresh | AstroCast/NDVI_Normalisation.py:133-141 | the corrected inner loop, restarting at the timestep's first matching file, keeps the raster shape |
| Normalisation.FoldFreshLocal | AstroCast/NDVI_Normalisation.py:133-141 | corrected, a timestep's minima and maxima depend only on the files of that timestep |
| Normalisation.FoldFreshBounds | AstroCast/NDVI_Normalisation.py:133-141 | corrected, each pixel's minimum is at or below and its maximum at or above every numeric value of the pixel among the timestep's files |
| Normalisation.FoldFreshAttained | AstroCast/NDVI_Normalisation.py:104-141 | corrected, a timestep has extremes exactly when one of its files has been read; each pixel's minimum and maximum are then that pixel's value in one of the timestep's files, and NaN exactly when the pixel is NaN in all of them |
| Normalisation.FreshNotCarried | AstroCast/NDVI_Normalisation.py:133-141 | corrected, the same two files give Min_0111 = 2 |
| NdviToVci.SameTimestepSameMinMax | AstroCast/NDVI_to_VCI.py:125-131 | the min/max key is the date from character 4 on, so two dates of one timestep in different years load the same files |
| NdviToVci.Mask | AstroCast/NDVI_to_VCI.py:96 | a cell becomes NaN exactly when it is NaN or at most 0.000001, and is unchanged otherwise |
| NdviToVci.MaskIdempotent | AstroCast/NDVI_to_VCI.py:96 | masking a masked raster masks nothing more |
| NdviToVci.Masked | AstroCast/NDVI_to_VCI.py:96 | the masked raster keeps the shape and masks every cell |
| NdviToVci.VciFormulasAgree | AstroCast/NDVI_to_VCI.py:150-156 | where max - min lies outside NumPy's division domain, both branches give the same unmasked VCI 100 (N - min) / (max - min); where max == min both mask the cell, the 2019 branch with data 100 and the earlier one with 100 (N - min) |
| NdviToVci.CroppedResolved | AstroCast/NDVI_to_VCI.py:151-152 | in the 2019 branch a divisor outside the domain of N - min gives the unmasked 100 ((N - min) / (max - min)) |
| NdviToVci.PlainResolved | AstroCast/NDVI_to_VCI.py:156 | in the earlier branch a divisor outside the domain of 100 (N - min) gives the unmasked 100 (N - min) / (max - min) |
| NdviToVci.CloudCellMasked | AstroCast/NDVI_to_VCI.py:96-156 | a cloud pixel (NaN after masking) is masked in both branches, with data 100 from 2019 on and NaN before |
| NdviToVci.VciEndpoints | AstroCast/NDVI_to_VCI.py:151-156 | VCI is an unmasked 0 where NDVI equals the minimum and an unmasked 100 where it equals the maximum, in both branches, when the two differ |
| NdviToVci.VciWithin | AstroCast/NDVI_to_VCI.py:151-156 | an NDVI between distinct minimum and maximum gives an unmasked VCI in [0, 100], the same in both branches |
| NdviToVci.VciGrid | AstroCast/NDVI_to_VCI.py:150-156 | the VCI raster keeps the NDVI's shape and every cell, data and mask, is the masked-array formula of the branch taken, on the cells at the same position |
| NdviToVci.ConvertedShape | AstroCast/NDVI_to_VCI.py:150-178 | a saved VCI raster has one band of the NDVI's shape, is written under the date's own name, and each cell, data and mask, is the masked-array formula on the cloud-masked NDVI and the stored min/max, cropped by [6:-7, 5:-5] from 2019 on |
| NdviToVci.Jobs | AstroCast/NDVI_to_VCI.py:92 | the first n (date, raster) pairs of the zip |
| NdviToVci.Conversions | AstroCast/NDVI_to_VCI.py:92-103 | one conversion per pair |
| NdviToVci.ConversionsAt | AstroCast/NDVI_to_VCI.py:92-103 | conversion t is that of date t and raster t on their own |
| NdviToVci.RunUpTo | AstroCast/NDVI_to_VCI.py:92-103 | the loop writes at most one raster per pair, exactly one per pair when no pair fails |
| NdviToVci.RunOnePerPair | AstroCast/NDVI_to_VCI.py:92-103 | a run that completes writes one raster per pair, in order, each the conversion of its own file |
| NdviToVci.RunCompletedAt | AstroCast/NDVI_to_VCI.py:92-103 | in a completed run output t is conversion t |
| NdviToVci.RunStopsAtFailure | AstroCast/NDVI_to_VCI.py:92-103 | the loop stops at the first failing pair: later pairs change neither the outputs nor the outcome |
| NdviToVci.VciConverter.constructor | AstroCast/NDVI_to_VCI.py:65-72 | the converter holds the paths and dates, with every other attribute unset and nothing written |
| NdviToVci.VciConverter.ReadAndStoreData | AstroCast/NDVI_to_VCI.py:74-103 | the loop over zip(file_paths, dates), which stops at the shorter list, writes exactly the outputs of RunUpTo and ends with its outcome |
| NdviToVci.VciConverter.ConvertFile | AstroCast/NDVI_to_VCI.py:94-103 | one pass masks the raster, sets the date and writes the pair's conversion, or reports its failure and writes nothing |
| NdviToVci.VciConverter.ReadMinMax | AstroCast/NDVI_to_VCI.py:109-133 | loads Max_ then Min_ of date[4:], a missing file stopping the run, then calc_vci |
| NdviToVci.VciConverter.CalcVciStep | AstroCast/NDVI_to_VCI.py:136-158 | int(date[0:4]) picks the branch (crop [6:-7, 5:-5] from 2019), a shape mismatch stops the run, otherwise the VCI is saved |
| NdviToVci.VciConverter.SaveData | AstroCast/NDVI_to_VCI.py:161-182 | the VCI gains a leading band axis and is written under the date's name |
| NdviToVci.CropMisalignsVci | AstroCast/NDVI_to_VCI.py:150-152 | as written, min/max padded like the 2019 rasters and cropped by [6:-7, 5:-5] put a fill row over the NDVI's first row, so max - min is 0 there and every cell of that row is masked with data 100, whatever the NDVI |
| NdviToVci.AlignedCropKeepsVci | AstroCast/NDVI_to_VCI.py:150-152 | corrected, the crop [7:-6, 5:-5] undoes the padding, so the VCI of the padded min/max is the VCI of the original ones |
| Aggregate.Kept | AstroCast/Aggregate.py:222-224 | masked_values keeps at most all the cells, and no kept cell is the fill value |
| Aggregate.KeptAll | AstroCast/Aggregate.py:222-224 | with no fill cell everything is kept; with only fill cells nothing is |
| Aggregate.CloudyMeans | AstroCast/Aggregate.py:250-260 | a layer is cloudy exactly when 100 times its unmasked count is below its total count |
| Aggregate.LayerMean | AstroCast/Aggregate.py:250-272 | a cloudy layer stores NaN |
| Aggregate.LayerMeanExtremes | AstroCast/Aggregate.py:250-272 | a shape entirely under cloud stores NaN; a shape without masked pixels stores the nanmean of all its pixels |
| Aggregate.Row | AstroCast/Aggregate.py:261-272 | each (shape, date) row has four entries: the date, then NDVI, VCI and VCI3M, each NaN when its layer is cloudy |
| Aggregate.Sanitise | AstroCast/Aggregate.py:118-119 | a dataset name has the shape name's length and no '/' |
| Aggregate.SanitiseKeeps | AstroCast/Aggregate.py:118-119 | every other character is kept, sanitising twice changes nothing more, and a name without '/' is unchanged |
| Aggregate.DateTextMeans | AstroCast/Aggregate.py:183 | a VCI3M file has a date exactly when its path holds 'RCMRD_VCI3M\\'; the date holds no '.tif', and the model stores it as a number exactly when it is a non-empty string of digits (see Aggregate.DateValue under Left out) |
| Aggregate.DateTexts | AstroCast/Aggregate.py:183 | one date per VCI3M file |
| Aggregate.DateValues | AstroCast/Aggregate.py:261 | one stored date value per VCI3M file |
| Aggregate.DatesAt | AstroCast/Aggregate.py:261 | date t is that of VCI3M file t |
| Aggregate.DatabaseNameMeans | AstroCast/Aggregate.py:296 | the database name is the part of the shapefile path before '.shp' after its last backslash: a suffix of that stem holding neither marker |
| Aggregate.SaveStopsAtFailure | AstroCast/Aggregate.py:300-334 | once a dataset fails to save, the later datasets are not touched |
| Aggregate.CreateAllContents | AstroCast/Aggregate.py:294-313 | a new file created without failure holds exactly the named datasets |
| Aggregate.CreateAllValues | AstroCast/Aggregate.py:300-305 | each created dataset is final_array[s, :, :] of its own shape |
| Aggregate.CreateAllSucceeds | AstroCast/Aggregate.py:300-305 | creating the datasets fails exactly when two shapes share a name |
| Aggregate.AppendAllMeans | AstroCast/Aggregate.py:318-336 | appending to distinct existing datasets grows each by its rows at the tail with the old rows unchanged, and leaves every other dataset as it was |
| Aggregate.AppendAllFailsOnMissing | AstroCast/Aggregate.py:327 | in append mode a dataset the file lacks stops the save there, after the earlier datasets were extended |
| Aggregate.Aggregator.Visited | AstroCast/Aggregate.py:175-176 | zip visits no more triples than the shortest of the three lists |
| Aggregate.Aggregator.constructor | AstroCast/Aggregate.py:108-122 | one sanitised dataset name per shape, and a fresh final_array of shape (shapes, files, 4) with nothing written yet |
| Aggregate.Aggregator.OpenFiles | AstroCast/Aggregate.py:175-188 | the loop over the zipped triples stores every shape's row for each date up to the first file whose date is missing or not a number, and leaves later dates untouched |
| Aggregate.Aggregator.OpenFilesAndSave | AstroCast/Aggregate.py:159-190 | open_files: the loop stores every date's rows and then save_to_hdf writes the database; a date that cannot be read stops it with the disk untouched |
| Aggregate.Aggregator.OpenTriple | AstroCast/Aggregate.py:179-185 | one pass reads the triple's date and stores its rows, touching no other date |
| Aggregate.Aggregator.ReadDate | AstroCast/Aggregate.py:183 | the date of VCI3M file t, as text and as the number stored |
| Aggregate.Aggregator.CropToShapefile | AstroCast/Aggregate.py:207-228 | for every shape, final_array[s, t, :] becomes that shape's row, and no other cell changes |
| Aggregate.Aggregator.CheckCloudStore | AstroCast/Aggregate.py:250-272 | final_array[s, t, :] becomes the row [date, NDVI, VCI, VCI3M] when the date is a digit string, the float() conversion the model takes, and otherwise nothing is written; no other cell changes |
| Aggregate.Aggregator.Slab | AstroCast/Aggregate.py:302-303 | final_array[s, :, :] has one row of four per VCI3M file |
| Aggregate.Aggregator.Slabs | AstroCast/Aggregate.py:300-334 | one slab per dataset |
| Aggregate.Aggregator.SaveToHdf | AstroCast/Aggregate.py:275-338 | writes <database>.h5 on the disk: a fresh file of created datasets when new, otherwise the existing datasets (an empty file when missing) extended; a failure is the dataset name that failed |
| Aggregate.AppendGrowsByFiles | AstroCast/Aggregate.py:327-334 | after a full run every shape's dataset grows by one row per VCI3M file, old rows first and unchanged |
| Hindcasts.Half | AstroCast/Hindcasts.py:87 | int(data_length / 2): twice the halfway point is the length or one less |
| Hindcasts.Runs | AstroCast/Hindcasts.py:97-98 | range(halfway, data_length) has one run per row from the halfway point to the end |
| Hindcasts.Prefix | AstroCast/Hindcasts.py:100-101 | [:hindcast_counter] keeps the first rows unchanged and stops at the end of the dataset |
| Hindcasts.HasVci | AstroCast/Hindcasts.py:109 | ~np.isnan(dataset_array[:, 3]) is true exactly at the rows whose VCI3M is a number |
| Hindcasts.Column | AstroCast/Hindcasts.py:111 | column c of the rows, row by row |
| Hindcasts.Days | AstroCast/Hindcasts.py:105-107 | the day offset of each row from the first row's date |
| Hindcasts.FilterAligned | AstroCast/Hindcasts.py:109-115 | after the NaN filter the days, dates and VCI3M have one length, their i-th entries come from one row, and that row's VCI3M is a number |
| Hindcasts.Predict | AstroCast/Hindcasts.py:100-119 | a run forecasts from its filtered history and gets at least ten predictions; with no VCI3M value it has no forecast (dates[0] fails) |
| Hindcasts.PredictSeesHistoryOnly | AstroCast/Hindcasts.py:100-101 | a run that sees h rows gives the same forecast whatever the rows from h on hold |
| Hindcasts.PredictJob | AstroCast/Hindcasts.py:100-119 | one run's forecast has at least ten predictions |
| Hindcasts.PredictRun | AstroCast/Hindcasts.py:97-119 | run r sees halfway + r rows and its forecast has at least ten predictions |
| Hindcasts.RunJobs | AstroCast/Hindcasts.py:97-98 | one run per step of the range |
| Hindcasts.Predictions | AstroCast/Hindcasts.py:97-119 | one forecast per run |
| Hindcasts.PredictionsAt | AstroCast/Hindcasts.py:97-119 | forecast q is that of run q, which sees halfway + q rows |
| Hindcasts.ExpectedGrid | AstroCast/Hindcasts.py:89-132 | hindcast_results is (runs + 10) x 10, lead j of run i - j on the band and 0.0 elsewhere |
| Hindcasts.DiagonalPlacement | AstroCast/Hindcasts.py:128-132 | lead s of run r, predicted_VCI3M[-10 + s], lands in cell (r + s, s), inside the grid |
| Hindcasts.Saved | AstroCast/Hindcasts.py:153-164 | the resized dataset can take the results block exactly when its rows from halfway on are as many as the block's rows |
| Hindcasts.Resized | AstroCast/Hindcasts.py:153-154 | the two resizes give ten more rows and exactly fourteen columns, keep every old cell within the fourteen columns and fill the new cells with 0 |
| Hindcasts.SavedRegion | AstroCast/Hindcasts.py:153-164 | the saved dataset has ten more rows and fourteen columns, keeps its rows before halfway and its first four columns, and holds the results in [halfway:, 4:] |
| Hindcasts.HindcastStoredIs | AstroCast/Hindcasts.py:93-137 | a dataset that is stored had every run forecast and is the expected grid saved into its rows |
| Hindcasts.HindcastStoppedLeaves | AstroCast/Hindcasts.py:101-164 | a dataset stopped before save_the_data keeps its rows; one whose block does not fit is left resized (its length was not halfway + runs) |
| Hindcasts.HindcastStoredKeeps | AstroCast/Hindcasts.py:153-164 | a stored dataset had exactly halfway + runs rows; once saved it has ten more rows and fourteen columns and keeps the rows before halfway and its first four columns |
| Hindcasts.SavedLag | AstroCast/Hindcasts.py:128-164 | lag column 4 + k of row halfway + r + k holds lead k of run r |
| Hindcasts.HindcastStoredLag | AstroCast/Hindcasts.py:97-164 | in a stored dataset, lag column 4 + k of row halfway + r + k holds lead k of the forecast from the first halfway + r rows |
| Hindcasts.Jobs | AstroCast/Hindcasts.py:93-95 | one job per dataset name |
| Hindcasts.Outcomes | AstroCast/Hindcasts.py:93-137 | one outcome per dataset |
| Hindcasts.OutcomesAt | AstroCast/Hindcasts.py:85-137 | dataset k's outcome is the hindcast of its own rows under the plan fixed by the first dataset's length |
| Hindcasts.SaveAllKeeps | AstroCast/Hindcasts.py:93-137 | saving adds no dataset, and a dataset not yet reached or not named keeps its rows |
| Hindcasts.SaveAllSaves | AstroCast/Hindcasts.py:93-137 | when no dataset fails, every dataset holds its stored outcome |
| Hindcasts.SaveAllStops | AstroCast/Hindcasts.py:93-137 | the first failing dataset stops the loop: nothing after it changes |
| Hindcasts.Hindcaster.constructor | AstroCast/Hindcasts.py:32-45 | the hindcaster holds the database path and the open file, with no halfway point yet |
| Hindcasts.Hindcaster.ResultsGrid | AstroCast/Hindcasts.py:89-90 | hindcast_results read as a grid of the same shape and cells |
| Hindcasts.Hindcaster.CreateHindcast | AstroCast/Hindcasts.py:80-137 | the halfway point comes from the first dataset's length; the file afterwards, and the failure, are those of saving each dataset's hindcast in turn up to the first failure; hindcast_results is fresh and (runs + 10) x 10 |
| Hindcasts.Hindcaster.HindcastAndSave | AstroCast/Hindcasts.py:95-137 | one dataset: a stored outcome replaces exactly that dataset; a failure names it and leaves that dataset as the outcome left it, resized when the write failed |
| Hindcasts.Hindcaster.HindcastDataset | AstroCast/Hindcasts.py:97-132 | the runs succeed exactly when every run has a forecast; then hindcast_results is the expected grid, and 0.0 stays off the band in every case |
| Hindcasts.Hindcaster.RunOnce | AstroCast/Hindcasts.py:100-132 | run r succeeds exactly when its forecast exists, and then its diagonal joins the finished band |
| Hindcasts.Hindcaster.PlaceRun | AstroCast/Hindcasts.py:128-132 | the ten writes of run r extend the finished band by one diagonal and keep 0.0 off the band |
| Hindcasts.Hindcaster.WriteRun | AstroCast/Hindcasts.py:128-132 | exactly the cells (r + s, s) change, each to predicted_VCI3M[-10 + s] |
| Hindcasts.Hindcaster.SaveTheData | AstroCast/Hindcasts.py:140-164 | the dataset is replaced by its resized rows with hindcast_results in [halfway:, 4:], or by its resized rows alone when the block does not fit |
| Pipeline.Dispatch | AstroCast/Main.py:62-139 | main builds from raw NDVI exactly when both flags are set, from existing VCI files exactly when only create_new_time_series is, and updates incrementally exactly when it is not set |
| Pipeline.DekadalDateMeans | AstroCast/Main.py:154-155 | a file name gives a date exactly when it holds 'dekadal.' and the text after it, up to '.tif', is a non-empty run of digits |
| Pipeline.ParseDates | AstroCast/Main.py:154-155 | when every name parses there is one date per file |
| Pipeline.ParseDatesMeans | AstroCast/Main.py:154-155 | the comprehension succeeds exactly when every file has a date, and date i is that of file i |
| Pipeline.ParseDatesFailsFirst | AstroCast/Main.py:154-155 | when it fails, it fails at the first file without a date |
| Pipeline.NewMask | AstroCast/Main.py:160 | the mask has one entry per date, true exactly when the date is after the last stored date |
| Pipeline.NewFilesAreTheNewer | AstroCast/Main.py:160-164 | new_dates and new_NDVI_files are, in their original order, exactly the dates after the last stored date and their files: every selected entry is newer, and every newer entry is selected |
| Pipeline.SliceBound | AstroCast/Main.py:198-199 | a Python slice bound: negative bounds count from the end, and the result is clamped to the list |
| Pipeline.Extended | AstroCast/Main.py:193-199 | the extended mask has the length of the new-data mask |
| Pipeline.ExtendedMeans | AstroCast/Main.py:193-199 | with count new files the eight positions before the last count become true as well; with none, [-8:-0] is empty and the mask is unchanged |
| Pipeline.ExtendedSuffix | AstroCast/Main.py:193-202 | when the n new files are the last ones, the VCI mask selects the last n + 8 files (all when there are fewer), and none when n is 0 |
| Pipeline.CountSuffix | AstroCast/Main.py:195 | count_nonzero of a mask that keeps the last n entries is n |
| Pipeline.ExtendMask | AstroCast/Main.py:193-199 | the slice assignment in place turns the mask into the extended mask |
| Pipeline.VciSelection | AstroCast/Main.py:202 | the VCI files can be selected exactly when the VCI list and the mask have one length |
| Pipeline.SelectVciFiles | AstroCast/Main.py:193-202 | new_VCI_files are the VCI files under the extended mask, or an error when the lengths differ |
| Pipeline.Forecasting | AstroCast/Main.py:105-106 | the forecast call keeps the stages before it; as written (two arguments for three) it raises TypeError and builds no forecast, corrected it finishes with the forecast |
| Pipeline.MainNeverFinishes | AstroCast/Main.py:62-225 | as written main never finishes; the corrected run extends the run as written, finishes only where that run stopped at a forecast (TypeError or unbound database_name), and equals it wherever it stopped elsewhere |
| Pipeline.UpdateOnlyForecasts | AstroCast/Main.py:139-225 | in the incremental branch the same holds: as written it never finishes, the corrected run extends it, and the two differ only where the run as written stopped at a forecast |
| Pipeline.NewSeriesBranches | AstroCast/Main.py:62-136 | from scratch a new series reaches the forecast exactly when every NDVI name has a date and neither the NDVI nor the VCI3M list is empty (an empty one raises IndexError in a step constructor), and runs neither the VCI conversion nor open_files; from existing VCI files it aggregates and opens the files, given a VCI3M file; the forecast raises TypeError as written, and corrected, the run finishes exactly there with the forecast of the shapefile's database |
| Pipeline.NoNewFilesFallsThrough | AstroCast/Main.py:168-207 | with no new file and the answer 'y', main as written raises at the forecast before any step; corrected, it forecasts and goes on to the VCI and VCI3M steps with empty lists |
| Pipeline.NoneKept | AstroCast/Main.py:195 | a mask with no true entry counts 0 |
| Pipeline.NoneKeptSelects | AstroCast/Main.py:162-164 | a mask that counts 0 selects nothing |
| Pipeline.NewFileSelected | AstroCast/Main.py:160-168 | when some date is after the last stored date, new_NDVI_files is not empty |
| Pipeline.UnboundNameWhenNew | AstroCast/Main.py:168-222 | as written, an incremental run with new files converts, averages, aggregates and then fails at the forecast, database_name never having been bound; with no VCI3M file the aggregation's constructor raises first |
| Pipeline.CorrectedForecastsWhenNew | AstroCast/Main.py:222-225 | corrected, the same run converts the new files and finishes exactly when there is a VCI3M file, with the forecast of the shapefile's database |
| Values.FMax | AstroCast/NDVI_Normalisation.py:140 | numpy.fmax returns one of its arguments, at least as large as each argument that is not NaN, and NaN only when both are NaN |
| Values.FMin | AstroCast/NDVI_Normalisation.py:141 | numpy.fmin returns one of its arguments, at most as large as each argument that is not NaN, and NaN only when both are NaN |
| Values.Sub | AstroCast/NDVI_to_VCI.py:151-156 | IEEE subtraction: exact on numbers, NaN when an operand is NaN |
| Values.Mul | AstroCast/NDVI_to_VCI.py:151-156 | IEEE multiplication: exact on numbers, NaN when an operand is NaN |
| Values.Div | AstroCast/NDVI_to_VCI.py:151-156 | the quotient NumPy computes before masking: exact by a non-zero number, NaN when an operand is NaN, and by zero NaN exactly for 0/0 or NaN/0 |
| Values.MaSub | AstroCast/NDVI_to_VCI.py:151-156 | masked minus plain keeps the mask; an unmasked cell is the difference and a masked one keeps its data |
| Values.MaScale | AstroCast/NDVI_to_VCI.py:151-152 | 100 times a masked cell keeps the mask; an unmasked cell is the product and a masked one takes the data 100 |
| Values.MaDiv | AstroCast/NDVI_to_VCI.py:151-156 | masked true division: an unmasked result is a finite quotient of an unmasked number; a zero divisor, a masked or non-numeric numerator masks it; a masked result keeps the numerator's data; a divisor beyond the tiny-scaled numerator gives the exact unmasked quotient |
| Values.NanCount | AstroCast/VCI_To_VCI3M.py:139 | the number of entries that are not NaN is 0 exactly when every entry is NaN |
| Values.NanMeanWithin | AstroCast/VCI_To_VCI3M.py:139 | numpy.nanmean of values in [lo, hi] is NaN exactly when every entry is NaN, and otherwise lies in [lo, hi] |
| Values.Count | AstroCast/Main.py:195 | count_nonzero is at most the mask's length |
| Values.Select | AstroCast/Main.py:162-164 | boolean indexing keeps one entry per true entry of the mask |
| Values.SelectAt | AstroCast/Main.py:162-164 | the i-th selected entry is the entry at the i-th true position, for every list indexed by the same mask |
| Values.PosIncreasing | AstroCast/Main.py:162-164 | the selected entries keep their original order |
| Values.PosOnto | AstroCast/Main.py:162-164 | every entry whose mask entry is true is selected, at the position that counts the true entries before it |
| Text.Split | AstroCast/Main.py:59 | str.split gives at least one piece |
| Text.JoinSplit | AstroCast/Main.py:59 | joining the pieces with the separator gives back the string |
| Text.SplitPartsFree | AstroCast/Main.py:59 | no piece of a split holds the separator |
| Text.BeforeMeans | AstroCast/Main.py:59 | split(sep)[0] is a prefix free of the separator: the whole string, or the text before the first separator |
| Text.AfterMeans | AstroCast/Main.py:59 | split(sep)[-1] is a suffix free of the separator |
| Text.SecondMeans | AstroCast/Main.py:66 | split(sep)[1] exists exactly when the separator occurs (otherwise IndexError), and holds no separator |
| Text.BetweenMeans | AstroCast/Main.py:66-67 | split(open)[1].split(close)[0] exists exactly when open occurs, and holds neither marker |
| Text.Drop | AstroCast/NDVI_Normalisation.py:63 | s[n:] has the length left after n characters, and s[:n] followed by s[n:] is s |
| Text.ReplaceChar | AstroCast/Aggregate.py:118 | str.replace of one character keeps the length and changes exactly the occurrences of that character |
| Text.ReplaceCharRemoves | AstroCast/Aggregate.py:118 | after the replacement the character no longer occurs |
| Text.ParseNat | AstroCast/Main.py:66-67 | int() of a string succeeds exactly when it is a non-empty run of digits |
| Text.ParseShow | AstroCast/Hindcasts.py:62 | reading back the digits str() writes gives the same number |
| Text.YearOf | AstroCast/VCI_To_VCI3M.py:128 | int(date[:4]) is a year below 10000 |

## Left out

- The conjugate-gradient solve (`scipy.sparse.linalg.cg`, tolerance 3e-2) is a parameter that returns one value per input sample. Its convergence and accuracy are not modelled; only the system it is given is.
- float32 storage and rounding: arithmetic is exact over the reals, so the line a correction writes is exact and there is no signed zero.
- All raster and HDF5 input and output (rasterio, h5py, `np.load`, `np.save`, `shutil.rmtree`, `os.mkdir`) is modelled as maps from paths or dataset names to values. Raster metadata, `write_image` and `read_meta_data` are left out, and so are HDF5 attributes such as the `Column_Names` attribute `save_to_hdf` sets on every new dataset (`Aggregate.py:307-309`).
- `glob` results are inputs, listed in the order the model is given.
- `GaussianProcesses.py` is a forecast parameter that returns at least ten predictions. `Hindcasts.py:16` comments out `import GaussianProcesses`, so as written `create_hindcast` raises NameError at its first forecast (line 119) and no dataset is stored; the model takes the forecast the import evidently intends. `Forecast.py` and `CreatePDF.py` are not part of this model. `Main.py` constructs `Forecast.forecast` with two arguments where `Forecast.py:33` takes three, so every branch raises TypeError there (see Findings); the corrected call is recorded as a stage and not followed.
- `raw_to_datetime` and the date arithmetic of the hindcasts (`strptime`, `timedelta`) are a day-number parameter. `predicted_dates` and `unformatted_dates` in `create_hindcast` are never used, so they are not modelled.
- `dataset.replace("?", "")` in `create_hindcast` only renames the loop variable and does not change which dataset is read or written, so it is left out.
- `get_features` and the geopandas/rasterio polygon mask in `crop_to_shapefile` are an input: the pixels the mask keeps for each shape and file triple.
- `masked_values` uses a fixed tolerance around the sentinel (NumPy's default rtol and atol), taken as a constant.
- Text.ParseNat: `int()` is modelled on digit strings only; Python also accepts surrounding whitespace, a sign and underscores, which no file name here carries.
- Whitsm: requires at least three samples. For fewer, `dia_matrix` gets the negative shape (n-3, n) and raises ValueError (whittaker_smoothing.py:28); that error is not modelled.
- SmoothNewSeries: requires at least three samples; a shorter series raises the same ValueError inside `whitsm`, which is not modelled.
- SmoothAllSeries: requires N >= 556, so that the re-smoothed view [553:] has the three samples `whitsm` needs; `smooth_all` is meant for the full archive, whose history alone is 563 dekads. A shorter series with a usable history raises the ValueError above, and a strip with 401 <= N < 556 whose every pixel has more than 400 sentinels, which the source fills with the sentinel series, is excluded too.
- RunSmoothing: requires at least one file; with none, `run_smoothing` fails on `files[0]`'s metadata (whittaker_smoothing.py:181), which is not modelled.
- CreateHindcast: requires at least one dataset; an empty database raises IndexError at `dataset_names[0]` (Hindcasts.py:85), which is not modelled. See also the commented-out import above.
- Hindcasts.Resized: the `Column_Names` attribute that `save_the_data` sets between the resizes and the write is not modelled.
- Aggregate.DateValue: the date is stored through NumPy's `float()` (Aggregate.py:261); the model reads it as a non-empty digit string only. `float()` also accepts a sign, a decimal point, an exponent, "nan", "inf" and surrounding whitespace; such a date is a failure in the model where the source stores its value. The VCI3M file names carry eight-digit dates.
- NdviToVci.VciGrid: what rasterio stores for a masked VCI cell (its data or the nodata value of the metadata) is not modelled; the saved band keeps each cell's data and mask bit. Overflow of a float32 quotient is not modelled either.
- NumPy broadcasting between rasters of different shapes is treated as a shape mismatch, not as a broadcast (in `normalise`, a raster with a row or column of length 1 would broadcast under `np.fmax` instead of raising).
- The interactive `are_you_sure` prompt, `sys.exit`'s message, timing and every `print` are left out. The answer to the "no new files" prompt is an input.
- `Main.py` lines 142-145 read the last stored date from the database; that date is an input of the model.
- With no new files and the answer 'y', `Main.py` as written raises TypeError at the forecast (line 177) before any step. Corrected, it goes on to `populate_average_list` with an empty list, which raises IndexError (`VciToVci3m.Converter.PopulateAverageList`'s TooFewFiles); `Pipeline.NoNewFilesFallsThrough` shows the stages reached.
- Pipeline.Main: a stage that main runs is taken to return. The steps' own failures (the VCI3M step's TooFewFiles above, a missing VCI file, a failing date in `open_files`, the h5py read of the last date at `Main.py:142-144`) are modelled in their modules and not chained into the run; the run's faults are the date comprehension, the mask length, the unbound name, the constructors' IndexError on an empty NDVI or VCI3M list, and the forecast's TypeError.
- The hindcast's `hindcast_results` after a failing dataset, and datasets h5py lists in another order, are not modelled: the dataset names are an input list.
- The smoothing run starts from an empty artifact store; earlier artifacts on disk are not modelled.
- `NDVI_normalisation` reads raster metadata from its first file, and `aggregate_time_series` reads the CRS of its first VCI3M file. Both raise on an empty list, so their constructors require at least one file; `Pipeline` records that IndexError as the fault `NoFirstFile`.

## Findings

| source | as written | input that shows it | evidently intended | confidence | as-written member | corrected member |
|---|---|---|---|---|---|---|
| AstroCast/VCI_To_VCI3M.py:173-185 | `pop(0)` then `insert(-1, VCI)` puts each new raster before the last slot, so the raster of files[8] stays in the window for ever | files 0, 1, 2, ... at step i = 17: the window holds file 8, not file 9 | the docstring's moving average over the nine newest rasters, `append` after `pop(0)` | high, not executed | VciToVci3m.WindowNotLastNine | VciToVci3m.SlidingIsLastNine |
| AstroCast/NDVI_to_VCI.py:150-152 | from 2019 on the minima and maxima are cropped with `[6:-7, 5:-5]`, one row higher than the padding `fix_size.py` gives the 2019 rasters (7 rows on top, 6 below) | when the minima and maxima are padded like the 2019 rasters, any raster from 2019 on has its first row compared with a row of fill, so max - min is 0 there and every cell of that row is masked with data 100; in general every VCI row is computed against the minima and maxima of the row above | the crop `[7:-6, 5:-5]` that undoes the padding | medium (how the Min_/Max_ arrays are built is not part of this model), not executed | NdviToVci.CropMisalignsVci | NdviToVci.AlignedCropKeepsVci |
| AstroCast/NDVI_Normalisation.py:133-141 | the accumulators are reset only at file index 0, so a timestep's minimum and maximum include the previous timesteps' files | files 0101 holding 1 and 0111 holding 2: Min_0111 is 1 | per-timestep extremes, restarting at each timestep's first matching file | medium, not executed | Normalisation.CarriedAcrossTimesteps | Normalisation.FreshNotCarried |
| AstroCast/Main.py:222 | `database_name` is bound only on the "no new files" path (line 174), so an incremental run with new files raises NameError at the forecast | an incremental run whose NDVI list holds a date after the last stored one | bind `database_name` from the shapefile path before the forecast, as the other branches do | high, not executed | Pipeline.UnboundNameWhenNew | Pipeline.CorrectedForecastsWhenNew |
| AstroCast/Main.py:105-106 | every `Forecast.forecast(...)` call (lines 105, 133, 177, 222) passes two arguments where `Forecast.py:33` takes three, so main never reaches `open_dataset` | any run that reaches a forecast, e.g. a new series from existing VCI files with one VCI3M file | pass the shapefile column the datasets are named by ('Name', Aggregate.py:119) as the third argument | high, not executed | Pipeline.MainNeverFinishes | Pipeline.NewSeriesBranches |
