# Engagement analysis: a Dafny model

This project models the core of a classroom engagement analyser. Each frame goes through four stages:

1. A face detector finds the faces; only boxes of positive size are kept.
2. An emotion classifier gives a probability per emotion label for the first face, or for every face on the realtime endpoint.
3. The probabilities are combined into a weighted *engagement score*, using the fixed `EMOTION_WEIGHTS` table.
4. The score is smoothed with an exponential moving average (`SMOOTHING_ALPHA = 0.6`).

The capture pipeline reads frames from a video source until it is stopped, the stream ends, or a write fails. It writes one CSV row per frame it accepts. It then releases the source and closes the log. A report gives, for a session's log:

- the mean, maximum and minimum of the smoothed column;
- the distribution of emotion labels;
- the timeline.

If the log is missing, empty, unreadable, or has a header but no rows, the report gives the matching error or warning instead. The server wires these into the endpoints `/start`, `/stop`, `/rt_start`, `/rt_stop` and `/analyze_frame`. The browser dashboard keeps a gauge, a radar of the seven labels, a line chart of the last 30 points, and a heatmap of the last columns.

There is one Dafny module per source file:

| Module | Source file | Form |
|---|---|---|
| `Config` | `backend/core/config.py` | constants |
| `Smoothing` | `backend/analysis/smoothing.py` | class `EngagementSmoother` |
| `FaceDetection` | `backend/models/face_detector.py` | the raw MTCNN outcome as a datatype; a filter loop |
| `EmotionRecognition` | `backend/models/emotion_model.py` | the DeepFace outcome as a datatype |
| `FrameProcessing` | `backend/pipeline/frame_processor.py` | the score loop and the early-exit chain |
| `Logging` | `backend/storage/log_writer.py` | class `LogWriter` over its data rows |
| `Sessions` | `backend/storage/session_manager.py` | class `SessionManager` over a map |
| `Video` | `backend/pipeline/video_source.py` | class `VideoSource` over the frames it will yield |
| `Pipeline` | `backend/pipeline/engagement_pipeline.py` | class `EngagementPipeline`, with its loop proved against the specification function `RunLoop` |
| `Stats` | `backend/analysis/stats.py` | pure functions and lemmas |
| `Reports` | `backend/analysis/report_generator.py` | pure function over what is found at the log path |
| `App` | `backend/app.py` | class `Server` over the module globals |
| `Charts` | `frontend/js/charts.js` | classes `LineChart` and `Heatmap`; pure gauge and radar |

`Wrappers` holds the `Option` type.

The collaborators the code calls but does not define are parameters:

- the MTCNN detector;
- the array crop;
- the DeepFace engine;
- the frames a capture yields;
- the wall clock (`now`, `clock(k)`);
- the moment the other thread's `stop()` lands (`stopAt`, the number of completed loop iterations after which the loop finds the flag cleared).

Two behaviours of the code are easy to miss, and the model follows them:

- **`start` does not reset the smoother.** The smoother is built once in `EngagementPipeline.__init__`, so each session's first row is smoothed from the value the previous session left. `Pipeline.CarriedSmootherChangesFirstRow` states the consequence.
- **The emotion distribution counts only rows that carry a label.** This is the behaviour of `value_counts`.

## Model

| member | source | states |
|---|---|---|
| Config.WeightTableShape | backend/core/config.py:1-8 | the weight table has exactly six labels, pairwise distinct, in the dictionary's order |
| Config.DisgustIsUnweighted | backend/core/config.py:1-8 | "disgust" has no weight |
| Config.WeightsBounded | backend/core/config.py:1-8 | every weight lies in [0, 1] and the weights sum to 3.4 |
| Config.AlphaInUnitInterval | backend/core/config.py:10 | the smoothing factor lies in (0, 1] |
| Smoothing.Ema | backend/analysis/smoothing.py:7-9 | one update lies between the old value and the input, and a fixed point stays put |
| Smoothing.SmoothedSnoc | backend/analysis/smoothing.py:7-9 | feeding one more input is one more update |
| Smoothing.FreshRecurrence | backend/analysis/smoothing.py:4-9 | from a fresh smoother, value 0 is alpha times input 0, and each later value mixes its input with the previous value |
| Smoothing.Smoothed | backend/analysis/smoothing.py:7-9 | the smoother's value after a run of updates; its closed form and bounds are `Smoothing.SmoothedClosedForm` and `Smoothing.SmoothedBounded` |
| Smoothing.SmoothedClosedForm | backend/analysis/smoothing.py:7-9 | after n inputs the value is (1-alpha)^n times the start plus the geometric weighted sum of the inputs |
| Smoothing.FreshClosedForm | backend/analysis/smoothing.py:4-9 | a fresh smoother holds the geometric weighted sum of its inputs |
| Smoothing.SmoothedBounded | backend/analysis/smoothing.py:7-9 | inputs and start value in [0, m] keep the smoothed value in [0, m] |
| Smoothing.EngagementSmoother.constructor | backend/analysis/smoothing.py:4-5 | the value starts at 0 |
| Smoothing.EngagementSmoother.Update | backend/analysis/smoothing.py:7-9 | the stored and returned value is one update of the old value with the input |
| EmotionRecognition.Unwrapped | backend/models/emotion_model.py:18-22 | a list result is reduced to its first element, an empty list or a raise to nothing |
| EmotionRecognition.Normalised | backend/models/emotion_model.py:30-31 | the probabilities keep the engine's keys, and each is its percentage divided by 100 |
| EmotionRecognition.Predict | backend/models/emotion_model.py:8-36 | probabilities exist exactly when there is a result with an emotion mapping; the dominant label passes through; otherwise the result is (None, None) |
| EmotionRecognition.NormalisedInUnitInterval | backend/models/emotion_model.py:30-32 | percentages in [0, 100] give probabilities in [0, 1] |
| FaceDetection.BoxesOf | backend/models/face_detector.py:15-16 | each detection gives its box, or (0, 0, 0, 0) when the box is missing |
| FaceDetection.Kept | backend/models/face_detector.py:14-24 | the kept boxes are exactly the usable boxes among the detections, none added |
| FaceDetection.KeptCounts | backend/models/face_detector.py:14-24 | each usable box is kept exactly as often as it occurs among the detections, an unusable one never |
| FaceDetection.KeptIsSubsequence | backend/models/face_detector.py:14-24 | the kept boxes keep the detector's order |
| FaceDetection.MissingBoxDropped | backend/models/face_detector.py:16-20 | detections without a box are all dropped |
| FaceDetection.Detect | backend/models/face_detector.py:7-24 | the loop returns the kept boxes, each usable and no more than were detected; a raising detector gives none |
| FrameProcessing.AccumulateWeighted | backend/pipeline/frame_processor.py:4-7 | the accumulation loop computes the weighted sum over the table, an absent label counting 0 |
| FrameProcessing.ComputeEngagement | backend/pipeline/frame_processor.py:3-7 | the score is the weighted sum over `EMOTION_WEIGHTS` |
| FrameProcessing.ScoreExpanded | backend/pipeline/frame_processor.py:3-7 | the score equals the six weighted probabilities written out |
| FrameProcessing.WeightedSumDependsOnTableLabels | backend/pipeline/frame_processor.py:5-6 | two mappings that agree on the table's labels score the same |
| FrameProcessing.ScoreIgnoresUnweighted | backend/pipeline/frame_processor.py:3-7 | changing a label outside the table leaves the score unchanged |
| FrameProcessing.ScoreOnlyReadsTable | backend/pipeline/frame_processor.py:3-7 | the score of a mapping equals the score of its restriction to the table's labels |
| FrameProcessing.DisgustContributesNothing | backend/pipeline/frame_processor.py:3-7 | the "disgust" probability never changes the score |
| FrameProcessing.WeightedSumBounds | backend/pipeline/frame_processor.py:4-7 | non-negative probabilities give a non-negative sum, and probabilities of at most 1 give at most the total weight |
| FrameProcessing.ScoreBounds | backend/pipeline/frame_processor.py:3-7 | probabilities in [0, 1] give a score in [0, 3.4] |
| FrameProcessing.Observe | backend/pipeline/frame_processor.py:9-32 | a frame is accepted exactly when a face is found, the first box has positive size, its crop is non-empty and the model gives probabilities |
| FrameProcessing.Processed | backend/pipeline/frame_processor.py:9-43 | an accepted frame returns all faces, the dominant label, the score, and the score smoothed from the smoother's value |
| FrameProcessing.ProcessFrame | backend/pipeline/frame_processor.py:9-43 | returns `Processed`; the smoother is untouched on a rejected frame and updated once, with the raw score, on an accepted one |
| Logging.FileLinesShape | backend/storage/log_writer.py:4-10 | the file is the header row followed by one line per row written |
| Logging.FileRoundTrip | backend/storage/log_writer.py:3-10 | reading the file's data rows back yields exactly the rows written, in order |
| Logging.LogWriter.constructor | backend/storage/log_writer.py:4-7 | a new log holds only the header and is open |
| Logging.LogWriter.Write | backend/storage/log_writer.py:9-10 | an open log gets exactly one row at the end; a closed one fails and is unchanged |
| Logging.LogWriter.Close | backend/storage/log_writer.py:12-13 | the log is closed and no row changes |
| Sessions.Stopped | backend/storage/session_manager.py:16-18 | only the given session is marked inactive; keys and other records are unchanged |
| Sessions.StoppedIdempotent | backend/storage/session_manager.py:16-18 | stopping twice is stopping once |
| Sessions.StoppedUnknownIsNoOp | backend/storage/session_manager.py:16-18 | stopping an unknown id changes nothing |
| Sessions.SessionManager.constructor | backend/storage/session_manager.py:4-5 | the registry starts empty |
| Sessions.SessionManager.CreateSession | backend/storage/session_manager.py:7-14 | an active record is stored under the clock's id, overwriting any existing one; no other entry changes |
| Sessions.SessionManager.StopSession | backend/storage/session_manager.py:16-18 | the registry becomes `Stopped` of the old one; no key is added or removed |
| Video.VideoSource.constructor | backend/pipeline/video_source.py:4-13 | an opened source has read nothing and is not released |
| Video.VideoSource.ReadFrame | backend/pipeline/video_source.py:15-18 | a frame is returned exactly when the source is not released and frames remain, and it is the next one |
| Video.VideoSource.Release | backend/pipeline/video_source.py:20-22 | the source yields no more frames |
| Pipeline.ProcessedIsReading | backend/pipeline/engagement_pipeline.py:51-59 | `process_frame` accepts exactly the frames that have a reading, and reports that reading smoothed once |
| Pipeline.RunLoop | backend/pipeline/engagement_pipeline.py:45-59 | the capture loop from a given frame on; its rows, exit and final smoother are stated by `Pipeline.RunWritesAccepted`, `Pipeline.RunExits` and `Pipeline.RunSmoothsRows` |
| Pipeline.RunAdvances | backend/pipeline/engagement_pipeline.py:45-59 | one loop iteration that reads a frame moves the run on by that frame's row, if any |
| Pipeline.RunEnds | backend/pipeline/engagement_pipeline.py:45-62 | the loop ends, writing nothing more, when the stop is seen, nothing is left to read, or the log is closed |
| Pipeline.RunCursorBounds | backend/pipeline/engagement_pipeline.py:45-49 | the loop reads forward, never past the last frame, and reads at least one frame when it may run |
| Pipeline.RunExits | backend/pipeline/engagement_pipeline.py:45-62 | the loop reads at most as many frames as iterations before the stop, exactly that many when stopped; it ends at the end of the stream, or on a closed log having written nothing |
| Pipeline.RunWritesAccepted | backend/pipeline/engagement_pipeline.py:45-59 | on an open log, one row per accepted frame read, in frame order, with its label and raw score |
| Pipeline.RunSmoothsRows | backend/pipeline/engagement_pipeline.py:51-59 | the smoothed column follows the moving-average recurrence from the smoother's starting value, and the smoother ends at the last row's value |
| Pipeline.RunTimestampsOrdered | backend/pipeline/engagement_pipeline.py:54-59 | with a non-decreasing clock, the timestamps are non-decreasing |
| Pipeline.FullSourceLogged | backend/pipeline/engagement_pipeline.py:45-59 | a source whose frames are all accepted, read to the end before the stop, logs one row per frame |
| Pipeline.CarriedSmootherChangesFirstRow | backend/pipeline/engagement_pipeline.py:20-37 | over the same frames, runs from different smoother values write the same first raw score but different first smoothed scores |
| Pipeline.EngagementPipeline.constructor | backend/pipeline/engagement_pipeline.py:12-20 | not running, no session, source or log; the stock collaborators; a fresh smoother at 0 |
| Pipeline.EngagementPipeline.Start | backend/pipeline/engagement_pipeline.py:22-37 | records the session, opens a fresh source and a header-only log, sets the flag, and leaves the smoother as it was |
| Pipeline.EngagementPipeline.Stop | backend/pipeline/engagement_pipeline.py:39-41 | clears the running flag and nothing else |
| Pipeline.EngagementPipeline.Loop | backend/pipeline/engagement_pipeline.py:43-72 | appends the run's rows, leaves the smoother and cursor where the run says, clears the flag exactly when the stop was seen, then releases the source and closes the log, once each |
| Pipeline.EngagementPipeline.ProcessFrames | backend/pipeline/engagement_pipeline.py:45-62 | the while loop leaves rows, smoother, cursor and exit as `RunLoop` describes them |
| Pipeline.EngagementPipeline.Advance | backend/pipeline/engagement_pipeline.py:45-62 | one pass of the loop body keeps the rest of the run equal to what it was, or ends the run there |
| Pipeline.EngagementPipeline.Iteration | backend/pipeline/engagement_pipeline.py:46-62 | read one frame; on a reading, update the smoother and write its row; break when nothing could be read or the write failed |
| Stats.Maximum | backend/analysis/stats.py:7 | the maximum occurs in the column and bounds every value |
| Stats.Minimum | backend/analysis/stats.py:8 | the minimum occurs in the column and bounds every value |
| Stats.Mean | backend/analysis/stats.py:6 | the mean lies between the minimum and the maximum |
| Stats.Tally | backend/analysis/stats.py:9 | `value_counts` as a map from value to count; `Stats.TallyCounts` states its keys and counts |
| Stats.TallyCounts | backend/analysis/stats.py:9 | the counter has a key exactly for each value present, mapped to its multiplicity |
| Stats.DistinctShape | backend/app.py:271 | the counter's keys are listed without repetition and are exactly the values present |
| Stats.FirstSeenOrder | backend/app.py:271 | the counter's keys are in first-seen order |
| Stats.TallyTotal | backend/analysis/stats.py:9 | the counts sum to the number of values counted |
| Stats.SmoothColumn | backend/analysis/report_generator.py:72 | one value per row, in row order, each that row's smoothed engagement |
| Stats.EmotionColumn | backend/analysis/report_generator.py:73 | one cell per row, in row order, each that row's label or its absence |
| Stats.Labels | backend/analysis/stats.py:9 | the present labels are no more than the rows |
| Stats.LabelsCounts | backend/analysis/stats.py:9 | each label occurs among the present labels as often as the column holds it |
| Stats.LabelsAllPresent | backend/analysis/stats.py:9 | a column with a label in every row gives one label per row |
| Stats.LabelTally | backend/analysis/stats.py:9 | the counts of the present labels have a key for each label in the column, mapped to its multiplicity |
| Stats.ComputeStats | backend/analysis/stats.py:3-10 | `compute_stats` on the rows read back: the average lies between the minimum and the maximum; `Stats.StatsAggregates` and `Stats.DistributionCounts` state each field |
| Stats.StatsAggregates | backend/analysis/stats.py:3-10 | `max` and `min` are values of the smoothed column and bound it, and `avg` is its mean, between them |
| Stats.DistributionCounts | backend/analysis/stats.py:9 | the distribution has a key for each label some row carries, mapped to the number of rows carrying it |
| Stats.DistributionTotal | backend/analysis/stats.py:9 | the distribution's counts sum to the number of labelled rows |
| Stats.DistributionCoversRows | backend/analysis/stats.py:9 | when every row is labelled, the counts sum to the row count |
| Reports.FileOfWritten | backend/analysis/report_generator.py:33-35 | a log the writer wrote and closed parses back to exactly its rows |
| Reports.GenerateReport | backend/analysis/report_generator.py:5-74 | exactly one of missing, empty, unreadable, header-only or rows applies, each with its code; the warnings carry the zero summary; with rows, the summary is `compute_stats` and the timeline and labels are the rows' own |
| Reports.ReportOfWrittenLog | backend/analysis/report_generator.py:51-74 | a closed log without rows gives `no_rows_in_log`; with rows, a clean report of exactly those rows |
| App.LabelText | backend/app.py:261 | the label, or the text "None" when there is none |
| App.FaceAt | backend/app.py:241-264 | a box yields a result exactly when it has positive size, a non-empty crop and probabilities; the result holds id idx+1, the box, the label text, the score and the probabilities |
| App.FaceResults | backend/app.py:240-264 | the per-face results, at most one per box; which boxes yield one is stated by `App.FaceResultsExactly` and the lemmas beside it |
| App.FaceResultsFromBoxes | backend/app.py:240-264 | every result is the result of the box its id names |
| App.FaceResultsIdsIncrease | backend/app.py:241-256 | ids strictly increase along the results |
| App.FaceResultsComplete | backend/app.py:240-264 | every box that yields a result appears under its id |
| App.FaceResultsExactly | backend/app.py:240-264 | a box index appears among the results exactly when that box yields a result |
| App.CollectFaces | backend/app.py:238-264 | the per-face loop with its three skips returns `FaceResults` |
| App.FirstMostFrequent | backend/app.py:271 | the first key with the largest count |
| App.MostCommon | backend/app.py:270-271 | the frame's label is one of its faces' labels; `App.MostCommonIsFirstMode` states that it is the first most frequent |
| App.MostCommonIsFirstMode | backend/app.py:270-271 | the frame's label is one of the labels, none is more frequent, and among equally frequent labels it is the first met |
| App.FrameRow | backend/app.py:266-278 | the logged row has the most common label, and raw equals smoothed equals the mean engagement (sum over the number of faces), which lies between the least and greatest |
| App.Server.constructor | backend/app.py:25-35 | empty registry, idle pipeline, no thread, no realtime log |
| App.Server.Start | backend/app.py:74-91 | registers an active session under the clock's id, starts the pipeline on it with a fresh source of that mode and path, and marks its loop pending |
| App.Server.Stop | backend/app.py:97-126 | the pending loop has run to its end, leaving the smoother's value and the source's position where the run left them (with no loop pending, the smoother is untouched); the flag is cleared, the session stopped, and the report made from the closed log; with no session, the report is `log_not_found` |
| App.Server.RtStart | backend/app.py:154-176 | with a realtime log open, returns its id and changes nothing; otherwise registers a realtime session and opens a header-only log |
| App.Server.RtStop | backend/app.py:179-208 | with no realtime session, answers `no_realtime_session`; otherwise closes the log, clears the realtime state, stops the session and reports on the rows written |
| App.Server.AnalyzeFrame | backend/app.py:214-283 | undecodable images give `invalid_image`; otherwise the faces of the detected boxes, and exactly one row logged when a realtime log is open and there is a face |
| Charts.Gauge | frontend/js/charts.js:37-41 | the value is clamped into [0, 1], values inside are kept, and the two parts sum to 1 |
| Charts.Lookup | frontend/js/charts.js:168-171 | one value per label, its probability or 0 |
| Charts.Radar | frontend/js/charts.js:168-174 | seven values aligned with the labels; zeros without probabilities |
| Charts.Slide | frontend/js/charts.js:94-107 | the window stays at 30 or fewer and ends with the new point; under 30 it is the old window plus the point, at 30 the oldest point is dropped and the rest kept in order |
| Charts.LineChart.constructor | frontend/js/charts.js:49-50 | both arrays start empty |
| Charts.LineChart.Update | frontend/js/charts.js:94-107 | both arrays slide by one point and stay of equal length, at most 30 |
| Charts.ColumnCells | frontend/js/charts.js:247-251 | one cell per label for the current column, its probability or 0 |
| Charts.ColumnCellsPlaced | frontend/js/charts.js:248-251 | a column's cells are in that column and in a label row |
| Charts.Recent | frontend/js/charts.js:253-257 | the filter keeps exactly the cells from the given column on, in order |
| Charts.NextCells | frontend/js/charts.js:244-259 | the heatmap's cells after one update; `Charts.NextCellsWindowed` and `Charts.NextCellsKeeps` state what it keeps |
| Charts.NextCellsWindowed | frontend/js/charts.js:244-259 | an update keeps every cell in a passed column and a label row, at most 31 columns behind |
| Charts.NextCellsKeeps | frontend/js/charts.js:253-257 | an update keeps the new column whole, and of the old cells exactly those from column t-30 on, in order |
| Charts.Heatmap.constructor | frontend/js/charts.js:183-184 | no cells, at column 0 |
| Charts.Heatmap.PushColumn | frontend/js/charts.js:247-251 | the loop appends the current column's cells |
| Charts.Heatmap.Update | frontend/js/charts.js:244-262 | no payload or no probabilities changes nothing; otherwise the cells become `NextCells` and the column moves on |

## Left out

- **Threads and `join`.** `/stop` is modelled as the pending loop running to its end, followed by the flag clear. The other thread's `stop()` is the parameter `stopAt`. Interleavings of two loops, or a `/start` while a loop is pending, are not modelled. `App.Server.Start` requires that no loop be pending.
- **FastAPI, CORS and the upload.** `cv2.imdecode` is an optional image parameter of `App.Server.AnalyzeFrame`.
- **MTCNN, DeepFace and the numpy crop.** These are abstract functions. Frames and crops are only an element count and an opaque handle.
- **The capture device.** `cv2.VideoCapture` is the sequence of frames it will yield, given at `start`. The mode and path are kept but not interpreted. A capture that failed to open is a source with no frames.
- **Disk and CSV parsing.**
  - The report reads the rows the writer actually wrote. `Reports.FileOf` is the writer's file read back.
  - pandas' `read_csv` is not modelled.
  - The `Unparseable` and `ZeroBytes` cases are modelled but never produced by `Reports.FileOf`, which reads a log the writer has closed. A log still open when the analytics endpoint reads it may be empty on disk or cut short, because `LogWriter` does not flush after each row (backend/storage/log_writer.py:4-13). Such a read is not modelled.
  - Neither is the mapping from pandas NA strings (the realtime label `"None"` is read by pandas as a missing value) to missing labels.
- **Reports on another session's id.** Session ids come from the wall clock, so two sessions may share an id and a log path. Then the later log overwrites the earlier. Both reports are modelled on their own writer's rows.
- **`ensure_dir`, `create_charts`, and the analytics and charts endpoints.** The endpoints only return `generate_report` or `create_charts` for a given id. `create_charts` and the visualisation module are not part of this model.
- **Floating point.** Scores, probabilities and timestamps are reals. NaN, rounding, and pandas' NaN aggregates of an empty column are not modelled.
- **Stats.ComputeStats** requires at least one row. The report never calls it on an empty log, and the NaN result of `mean` on an empty column is not modelled.
- **The duplicate `compute_engagement` in `backend/app.py`.** It is the same loop as in `backend/pipeline/frame_processor.py`, so `/analyze_frame` uses `FrameProcessing.ComputeEngagement`.
- **`LogWriter.close` raising.** The `try/except: pass` around it is not modelled: closing is modelled as always succeeding.
- **The dashboard.** `camera.js`, `api.js`, Chart.js rendering, cell colours and tooltips are not modelled. `new Date().toLocaleTimeString()` is the `timestamp` parameter of `Charts.LineChart.Update`.
