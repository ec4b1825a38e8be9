# 3DGS-Snapdragon host core in Dafny

This project models the host side of a Vulkan Gaussian-splatting renderer
for Android. It covers the bookkeeping the C++ does around shaders that run
on the GPU:

- how the frame orchestrator (`Renderer`) sizes its buffers and dispatches;
- how it grows the radix-sort buffers when a frame produces more instances
  than they hold;
- which ping/pong buffer of the prefix sum and which parity of the 4-pass
  radix sort holds each result, and which descriptor set every later stage
  binds;
- the `draw` state machine around the one in-flight fence, and the `run` loop
  with its scene-switch teardown;
- the PLY scene header parser, its two vertex record layouts and the
  spherical-harmonics reordering (`GSScene`);
- the cnpy `.npy` header parser, array sizing and byte-append operators
  (`base_utils`);
- the metrics ring buffer and the metric maps (`GUIManager`);
- the touch-event filter, scene cycling and pose-row layout of `main.cpp`;
- device selection, queue-family search, queue mapping and descriptor-pool
  sizes of `VulkanContext`.

Vulkan calls are not executed. What the host records is kept as values: a
scan schedule, a sort schedule, dispatch sizes and a log of submits, presents
and recreations. What the device answers is an input: fence waits, acquire
and present results, the instance count read back, the extent after a
swapchain recreation. Shader behaviour is stated as explicit assumptions
(`PrefixScan.ScanStep`, `RadixSort.SortPassEffect`), never as facts of the
code.

Modules, one file each:

- `Wrappers`: Option and Result.
- `Text`: characters, decimal digits, find, line splitting, `int`/`size_t` ranges.
- `Sizing`: ceil-division sizes, tile grid, log2 and the growth loop.
- `PrefixScan`: the scan schedule and its parity.
- `RadixSort`: the sort schedule, its parity and LSD correctness under the pass assumption.
- `Metrics`: ScrollingBuffer, MetricsStore and GUIManager.
- `Frame`: the Renderer class.
- `Input`: main.cpp.
- `Ply`: GSScene.
- `Npy`: cnpy.
- `Devices`: VulkanContext.

Where the code and its own comments disagree, or where the code does not do
what it evidently intends, the model follows the code:

- The comment at `Renderer.cpp:838` speaks of 64-bit keys. The code sorts
  32-bit `uint32_t` keys in four 8-bit passes, and so does the model.
- The instance count is copied from the buffer written by the next-to-last
  scan dispatch (`Renderer.cpp:715-721`), not the last one. It is the total
  only if the last dispatch copies its input, as a Hillis-Steele step with
  stride at least N does. `PrefixScan.ReadbackIsTotal` proves this under the
  stated shader assumption.
- Recreating the swapchain after an out-of-date acquire is evidently meant to
  let the next frame proceed. As written, `draw` resets the fence before the
  acquire and then returns without submitting, so the next frame waits on the
  fence forever (see Findings).

## Model

| member | source | states |
|---|---|---|
| Sizing.RadixSortBlocksPerWorkgroup | app/src/main/cpp/Renderer.h:202-206 | 256 blocks per workgroup exactly on Apple builds, else 32; always a positive multiple of 32 |
| Sizing.CeilDiv | app/src/main/cpp/Renderer.cpp:354-356 | the least q with q·d ≥ n |
| Sizing.CeilDivUnique | app/src/main/cpp/Renderer.cpp:354-356 | any q meeting the ceiling conditions is the ceiling quotient |
| Sizing.CeilDivMonotone | app/src/main/cpp/Renderer.cpp:797-798 | the ceiling quotient is monotone in its dividend |
| Sizing.BlocksByRemainder | app/src/main/cpp/Renderer.cpp:354-356 | the quotient-plus-one-on-remainder block count is the ceiling quotient |
| Sizing.HistogramWorkgroupsCover | app/src/main/cpp/Renderer.cpp:354-358 | the histogram's workgroups (`HistogramWorkgroups`) cover the capacity at 256 blocks of B entries each, and one workgroup fewer would not |
| Sizing.HistogramBufferBytes | app/src/main/cpp/Renderer.cpp:354-360 | the histogram holds 256 words per workgroup, with ceil(ceil(n/B)/256) workgroups |
| Sizing.SortDispatchIsHistogramFormula | app/src/main/cpp/Renderer.cpp:797-798 | the per-pass dispatch ((n + B − 1)/B + 255)/256 (`SortDispatchWorkgroups`) equals the workgroup count the histogram formula gives |
| Sizing.DispatchFitsHistogram | app/src/main/cpp/Renderer.cpp:797-798 | with n ≤ capacity, a pass dispatches no more workgroups than the histogram buffer was sized for, and reads within its bytes |
| Sizing.ElementGroups | app/src/main/cpp/Renderer.cpp:699-712 | the least number of 256-wide workgroups covering n elements |
| Sizing.TileGrid | app/src/main/cpp/Renderer.cpp:432-433 | the least grid of 16×16 tiles covering the extent |
| Sizing.TileBoundaryBytes | app/src/main/cpp/Renderer.cpp:432-434 | two 4-byte words per tile of the grid |
| Sizing.HalfDimension | app/src/main/cpp/Renderer.cpp:873-874 | half of a dimension, rounded up |
| Sizing.RenderDispatch | app/src/main/cpp/Renderer.cpp:872-878 | at full resolution the dispatch is the tile grid; at half resolution it covers the halved extent and never exceeds the full grid |
| Sizing.CeilLog2 | app/src/main/cpp/Renderer.cpp:698 | the least k with 2^k ≥ n |
| Sizing.MinMultiplier | app/src/main/cpp/Renderer.cpp:739-743 | the least multiplier ≥ m with N·m' ≥ the instance count |
| Sizing.GrowMultiplier | app/src/main/cpp/Renderer.cpp:739-743 | the bump loop ends with the least sufficient multiplier, grows only when the count exceeds N·m, and then strictly |
| Sizing.MinMultiplierUnique | app/src/main/cpp/Renderer.cpp:739-743 | any multiplier meeting the minimality conditions is MinMultiplier |
| Sizing.GrowthStable | app/src/main/cpp/Renderer.cpp:739-743 | growing again for the same instance count changes nothing |
| Sizing.SortBufferHolds | app/src/main/cpp/Renderer.cpp:345-352 | each of the four sort buffers of N·4·m bytes (`SortBufferBytes`) holds the 32-bit keys of a count exactly when the count is at most N·m, the test of Renderer.cpp:739 |
| PrefixScan.Other | app/src/main/cpp/Renderer.cpp:699-712 | the other scan buffer is never the same one |
| PrefixScan.RecordScanDispatches | app/src/main/cpp/Renderer.cpp:698-712 | iters+1 dispatches with timesteps 0..iters; each reads what the previous wrote, the first reads ping; the next-to-last writes the buffer the total is read from |
| PrefixScan.ScanScheduleShape | app/src/main/cpp/Renderer.cpp:698-721 | the scan schedule alternates: each dispatch reads the buffer the previous one wrote, the first reads ping, the last writes LastWritten and the next-to-last the buffer the instance count is copied from |
| PrefixScan.TotalSumSource | app/src/main/cpp/Renderer.cpp:715-721 | the total is copied from ping iff iters is even, never from the buffer of the last dispatch |
| PrefixScan.PreprocessSortSet | app/src/main/cpp/Renderer.cpp:775-777 | preprocess-sort binds the set whose offsets buffer is the one the total was copied from |
| PrefixScan.TotalSumRegion | app/src/main/cpp/Renderer.cpp:714 | the copy takes the last word of the N-word scan buffer (sized at Renderer.cpp:325-326) to the start of the host buffer |
| PrefixScan.SumSplit | app/src/main/cpp/Renderer.cpp:699-712 | a range sum splits at any midpoint |
| PrefixScan.WindowStep | app/src/main/cpp/Renderer.cpp:699-712 | the summed window after k doubling steps extends the window after k-1 steps |
| PrefixScan.StepAt | app/src/main/cpp/Renderer.cpp:699-712 | one assumed scan step adds the element 2^t back, where there is one |
| PrefixScan.ScanAfterWindow | app/src/main/cpp/Renderer.cpp:699-712 | after k steps each element is the sum over its 2^k-wide window |
| PrefixScan.ScanJoin | app/src/main/cpp/Renderer.cpp:699-712 | at or above the stride, a step adds the window before to the window ending at the element |
| PrefixScan.ScanCopy | app/src/main/cpp/Renderer.cpp:699-712 | below the stride, a step keeps the element, whose window already starts at 0 |
| PrefixScan.ReadbackIsTotal | app/src/main/cpp/Renderer.cpp:699-721 | under the scan assumption both buffers end inclusive-scanned, so the word read back is the total count |
| RadixSort.SortSetBindings | app/src/main/cpp/Renderer.cpp:382-397 | set 0 reads the even buffers and writes the odd ones, set 1 the reverse; keys and values move together |
| RadixSort.RecordSortPasses | app/src/main/cpp/Renderer.cpp:795-827 | exactly 4 passes with shifts 0, 8, 16, 24 cover all 32 key bits once; pass i binds set i%2; every pass reads what the one before wrote; the last writes the even buffers that tile-boundary and render bind (Renderer.cpp:440, 462) |
| RadixSort.InsertPermutation | app/src/main/cpp/Renderer.cpp:795-827 | inserting an entry by digit adds exactly that entry |
| RadixSort.InsertSorted | app/src/main/cpp/Renderer.cpp:795-827 | inserting by digit keeps the order on the low bits one digit wider |
| RadixSort.PassEffect | app/src/main/cpp/Renderer.cpp:795-827 | under the pass assumption, a pass over entries sorted on the low `shift` bits sorts them on the low `shift`+8 bits |
| RadixSort.PassPermutation | app/src/main/cpp/Renderer.cpp:795-827 | a pass permutes its entries |
| RadixSort.AfterPassesSorted | app/src/main/cpp/Renderer.cpp:795-827 | n passes sort on 8n more bits |
| RadixSort.AfterPassesPermutation | app/src/main/cpp/Renderer.cpp:795-827 | n passes permute their entries |
| RadixSort.SortsKeysBelow | app/src/main/cpp/Renderer.cpp:795-827 | n passes sort keys below 2^(8n) by key and permute the entries |
| RadixSort.RadixSortSorts | app/src/main/cpp/Renderer.cpp:795-827 | the four passes sort any 32-bit keys and permute the entries |
| Frame.BufferSizes | app/src/main/cpp/Renderer.cpp:323-360 | scan and overlap buffers of N words, four sort buffers of N·4·m bytes, the histogram by its formula, the tile-boundary buffer by the grid, a one-word host buffer |
| Frame.FrameFor | app/src/main/cpp/Renderer.cpp:763-919 | an empty frame exactly on Metal with zero instances; otherwise the preprocess-sort set matches the scan parity, the four sort passes, and the tile-boundary and render dispatches |
| Frame.PreprocessFor | app/src/main/cpp/Renderer.cpp:669-726 | the preprocess recording: ceil(N/256) groups, the scan schedule, and the readback of the last word from the total's buffer |
| Frame.Renderer.constructor | app/src/main/cpp/Renderer.cpp:298-309 | multiplier 1, blocks per workgroup by platform, no scene switch, pose index 0, metrics shown, no buffers or swapchain yet; the scene index is below 3 |
| Frame.Renderer.Initialize | app/src/main/cpp/Renderer.cpp:26-38 | every buffer at its initial size, the fence signaled, the preprocess commands recorded |
| Frame.Renderer.RecordPreprocessCommandBuffer | app/src/main/cpp/Renderer.cpp:669-726 | the recording is PreprocessFor(N), nothing else changes |
| Frame.Renderer.RecordRenderCommandBuffer | app/src/main/cpp/Renderer.cpp:729-919 | returns true iff the count fits N·m, and then leaves multiplier and buffers alone and records FrameFor; otherwise grows to the least sufficient multiplier and returns false; the count fits afterwards; the tile-boundary buffer never changes |
| Frame.Renderer.GrowSortBuffers | app/src/main/cpp/Renderer.cpp:739-761 | the four sort buffers resized to N·4·m', the histogram by the creation formula, the preprocess commands re-recorded, every other buffer unchanged |
| Frame.Renderer.RecordFrame | app/src/main/cpp/Renderer.cpp:763-919 | the render recording is FrameFor of the current state |
| Frame.Renderer.RecreateSwapchain | app/src/main/cpp/Renderer.cpp:185-200 | an unchanged extent changes nothing else; a new one resizes only the tile-boundary buffer to the new grid and re-records the preprocess commands |
| Frame.Renderer.MoveCameraForProfiling | app/src/main/cpp/Renderer.cpp:137-165 | in PSNR mode the pose index steps modulo the pose count; otherwise it is unchanged |
| Frame.Renderer.PreprocessUntilRecorded | app/src/main/cpp/Renderer.cpp:544-566 | the grow-and-retry loop ends; the log gains one preprocess submit per attempt and nothing else; every wait before the last succeeded; on success the count read on the last attempt fits N·m and the render recording is FrameFor of that count, otherwise the last wait failed with the fence still owed a signal |
| Frame.Renderer.PreprocessAttempt | app/src/main/cpp/Renderer.cpp:545-565 | one preprocess submit; the wait succeeds iff the device says so; after it the frame is recorded iff the count fits the capacity before the call, and is then FrameFor of that count; otherwise the capacity grows past the count |
| Frame.Renderer.SubmitAndPresent | app/src/main/cpp/Renderer.cpp:567-591 | the render submit and the present are logged, in that order; present out-of-date, suboptimal or thrown out-of-date recreates the swapchain (logged after the present); any other non-success throws |
| Frame.Renderer.RenderAndPresent | app/src/main/cpp/Renderer.cpp:544-591 | a failed wait throws with only preprocess submits logged; otherwise the log is the preprocess submits, then the render submit and the present, then a recreation exactly when the present asks for one, and the recorded frame is FrameFor of the count read last |
| Frame.Renderer.Draw | app/src/main/cpp/Renderer.cpp:529-591 | draw as written: a failed wait throws; acquire out-of-date recreates and returns with the fence reset and nothing submitted; an acquire error throws; a draw called on that fence hangs |
| Frame.Renderer.DrawCorrected | app/src/main/cpp/Renderer.cpp:529-591 | draw with the fence reset after a successful acquire: no return leaves an unsignaled fence that nothing will signal; the outcomes are otherwise those of draw |
| Frame.Renderer.AcquireOutOfDateHangs | app/src/main/cpp/Renderer.cpp:529-540 | after an out-of-date acquire, the next draw as written hangs whatever the device answers |
| Frame.Renderer.AcquireOutOfDateRecovers | app/src/main/cpp/Renderer.cpp:529-540 | with the corrected draw the next frame does not hang, and renders when the device reports success |
| Frame.Renderer.Run | app/src/main/cpp/Renderer.cpp:595-644 | leaves the loop when the window stops ticking, when stopped, or after a scene switch, which releases every buffer and clears the request; a frame drawn while metrics are shown whose timestamps cannot be retrieved throws "Failed to retrieve timestamps"; waits idle on every exit except a throw from draw or from retrieveTimestamps |
| Frame.Renderer.RunFrame | app/src/main/cpp/Renderer.cpp:601-640 | one turn of the loop: a closed window or a throwing draw ends it; after a draw that does not throw, it throws "Failed to retrieve timestamps" iff metrics are shown and the query results are unavailable; a scene switch releases every buffer and ends it; otherwise the buffers remain and no switch is pending |
| Frame.Renderer.ReleaseBuffers | app/src/main/cpp/Renderer.cpp:627-639 | every buffer released and the switch request cleared |
| Frame.Renderer.WaitIdle | app/src/main/cpp/Renderer.cpp:642 | the host waits once more for the idle device, nothing else changes |
| Frame.Renderer.Stop | app/src/main/cpp/Renderer.cpp:646-651 | clears the running flag and waits for the device |
| Frame.Renderer.GetWindowWidth | app/src/main/cpp/Renderer.h:111 | 0 without a swapchain, its width otherwise |
| Frame.Renderer.GetWindowHeight | app/src/main/cpp/Renderer.h:112 | 0 without a swapchain, its height otherwise |
| Frame.Renderer.SetHalfResolution | app/src/main/cpp/Renderer.h:115 | sets the GUI's half-resolution flag to its argument, under a frame of that one field |
| Frame.Renderer.IsUsingHalfResolution | app/src/main/cpp/Renderer.h:116 | answers the GUI's half-resolution flag |
| Frame.Renderer.SetGui | app/src/main/cpp/Renderer.h:118-124 | ignores its argument and requests a scene switch; its frame is that one field |
| Frame.Renderer.IsUsingGui | app/src/main/cpp/Renderer.h:126 | answers the GUI's metrics flag, which setGui leaves alone |
| Metrics.Rotated | app/src/main/cpp/GUIManager.cpp:92-94 | reading from the offset and wrapping around keeps every point |
| Metrics.LastN | app/src/main/cpp/GUIManager.cpp:17-24 | the last min(n, k) points of a history |
| Metrics.LastNSuffix | app/src/main/cpp/GUIManager.cpp:17-24 | for a longer history, LastN is its suffix of length n |
| Metrics.ShiftWindow | app/src/main/cpp/GUIManager.cpp:20-23 | a full window drops its oldest point and appends the new one |
| Metrics.RotateStep | app/src/main/cpp/GUIManager.cpp:20-23 | overwriting data[offset] and advancing the offset shifts the rotated view by one point |
| Metrics.RotateStepInside | app/src/main/cpp/GUIManager.cpp:20-23 | the overwrite-and-advance step when the offset does not wrap: the view drops its oldest point and ends with the new one |
| Metrics.RotateStepWrap | app/src/main/cpp/GUIManager.cpp:20-23 | the same when the offset wraps from the last slot to 0 |
| Metrics.Window | app/src/main/cpp/GUIManager.cpp:92-94 | the plotted view has as many points as the buffer |
| Metrics.NewBuffer | app/src/main/cpp/GUIManager.cpp:12-16 | a new buffer is empty with offset 0 and the given capacity |
| Metrics.AddPoint | app/src/main/cpp/GUIManager.cpp:17-24 | keeps the buffer invariant; the view becomes the last maxSize points of the previous view plus the new point |
| Metrics.Clear | app/src/main/cpp/GUIManager.cpp:25-30 | drops every point; the offset is reset only if there were any; an empty buffer is returned unchanged |
| Metrics.LastNAppend | app/src/main/cpp/GUIManager.cpp:17-24 | truncating before appending gives the same last n points |
| Metrics.AddPointHistory | app/src/main/cpp/GUIManager.cpp:17-24 | if the view shows the last points of a history, it still does after one more point |
| Metrics.AddAll | app/src/main/cpp/GUIManager.cpp:17-24 | adding a sequence of points keeps the invariant and the capacity |
| Metrics.PlotShowsLastPoints | app/src/main/cpp/GUIManager.cpp:12-24 | a new buffer fed any points shows the last maxSize of them, oldest first |
| Metrics.AddAllHistory | app/src/main/cpp/GUIManager.cpp:17-24 | feeding points to a buffer that shows a history shows the extended history |
| Metrics.BufferOf | app/src/main/cpp/GUIManager.cpp:186-192 | a missing name reads as a default buffer of 10000 points |
| Metrics.ShowsAllUpdate | app/src/main/cpp/GUIManager.cpp:186-192 | updating one name keeps every buffer in step with its history |
| Metrics.Pushed | app/src/main/cpp/GUIManager.cpp:194-198 | the map after pushing a set of names has exactly the old keys plus those names, all valid |
| Metrics.Appended | app/src/main/cpp/GUIManager.cpp:194-198 | the history after pushing a set of names has exactly the old keys plus those names |
| Metrics.PushedStep | app/src/main/cpp/GUIManager.cpp:194-198 | pushing one more name adds its point to that name only |
| Metrics.AppendedStep | app/src/main/cpp/GUIManager.cpp:194-198 | the history of one more name gains its point only |
| Metrics.MetricsStore.constructor | app/src/main/cpp/GUIManager.cpp:33-34 | both maps start empty |
| Metrics.GUIManager.constructor | app/src/main/cpp/GUIManager.cpp:36-39 | both global maps are replaced by empty ones |
| Metrics.GUIManager.PushTextMetric | app/src/main/cpp/GUIManager.cpp:178-184 | sets one key of the text map, every other key and the plotted metrics unchanged |
| Metrics.GUIManager.PushMetric | app/src/main/cpp/GUIManager.cpp:186-192 | adds one point to the named buffer, a default one if absent, and to no other |
| Metrics.GUIManager.PushMetrics | app/src/main/cpp/GUIManager.cpp:194-198 | adds one point per entry, each to its own name's buffer, with that entry's clock reading |
| Input.ButtonsOverlapIffNarrow | app/src/main/cpp/main.cpp:48-66 | the resolution and GUI buttons share a point exactly when the window width is in [-300, 900], which is why the resolution button is tested first |
| Input.MotionEventFilter | app/src/main/cpp/main.cpp:30-127 | without a renderer it answers false; otherwise true, with the transition of the event's action; only the touch fields, the scene-switch request and the half-resolution flag can change, and a valid renderer stays valid |
| Input.OnDown | app/src/main/cpp/main.cpp:70-106 | a touch starts at (x, y) at the current time; double tap iff under 300 ms since the last tap; the resolution button flips half resolution once, else the GUI button requests a scene switch; its frame is the touch fields it writes, the scene-switch request and the half-resolution flag |
| Input.OnMove | app/src/main/cpp/main.cpp:107-114 | while touching, the delta from the last position is recorded and the position moves; otherwise nothing changes; its frame is the delta and the last position |
| Input.OnRelease | app/src/main/cpp/main.cpp:115-122 | the touch and any hold end; its frame is those two fields, so nothing else changes |
| Input.TapTwice | app/src/main/cpp/main.cpp:76-86 | two downs are a double tap exactly when less than 300 ms apart |
| Input.SceneIndices | app/src/main/cpp/main.cpp:209-211 | the scene index starts at 0 and steps modulo 3, so it always indexes the scene list and the initial poses (line 271) |
| Input.PoseOffsetsDistinct | app/src/main/cpp/main.cpp:158-176 | the rotation offsets 5j+k and translation offsets 3, 8, 13 are distinct and below 15 |
| Input.ProcessForProfiler | app/src/main/cpp/main.cpp:146-178 | in PSNR mode one pose row gives a rotation from offsets 5j+k and a translation from 3, 8, 13; nothing is read in other modes or for an empty row |
| Ply.GetLine | app/src/main/cpp/GSScene.cpp:174 | the characters up to the next newline, which is consumed, or to the end |
| Ply.TokenLength | app/src/main/cpp/GSScene.cpp:178 | the length of the leading non-space run |
| Ply.Tokens | app/src/main/cpp/GSScene.cpp:175-178 | the whitespace-separated tokens of a line, each non-empty and space-free |
| Ply.TokensUnwords | app/src/main/cpp/GSScene.cpp:175-178 | joining tokens with spaces and splitting again gives them back |
| Ply.TokenOnly | app/src/main/cpp/GSScene.cpp:175-178 | a token followed by a space or the end is the first token |
| Ply.TokenLengthOf | app/src/main/cpp/GSScene.cpp:175-178 | a token's own run is its leading-token length |
| Ply.ExtractInt | app/src/main/cpp/GSScene.cpp:190-193 | a count read with `>>` is a 32-bit int |
| Ply.HeaderLine | app/src/main/cpp/GSScene.cpp:175-211 | end of header iff the first token is end_header; property lines are counted and filed to the vertex list while below numVertices, else to the face list; element lines set the counts; other lines change nothing |
| Ply.ScanHeader | app/src/main/cpp/GSScene.cpp:174-216 | a successful scan stops past its start, within the stream |
| Ply.ScanHeaderSound | app/src/main/cpp/GSScene.cpp:174-216 | the scan throws "Could not find end of header" iff no line starts with end_header; otherwise it stops after the first such line, and every counted property is filed in exactly one list |
| Ply.ScanHeaderCounts | app/src/main/cpp/GSScene.cpp:186-195 | after a successful scan, numVertices and numFaces are the counts of the last `element vertex` and `element face` lines before end_header, or the initial values when there is none |
| Ply.EndOfHeaderFrom | app/src/main/cpp/GSScene.cpp:174-216 | the reference end of the header: when there is one, it lies past the scan's start and within the stream |
| Ply.VertexType | app/src/main/cpp/GSScene.cpp:218 | layout 1 iff exactly 62 properties, else layout 2 |
| Ply.Layout | app/src/main/cpp/GSScene.cpp:20-35 | layout 1 totals 62 floats and layout 2 totals 59; every field fits the record |
| Ply.LayoutTiles | app/src/main/cpp/GSScene.cpp:20-35 | the fields of each layout are disjoint and tile the record |
| Ply.Words | app/src/main/cpp/GSScene.cpp:69 | groups bytes into four-byte words in memory order |
| Ply.ReadBytes | app/src/main/cpp/GSScene.cpp:69 | n bytes from pos, zero past the end of the stream |
| Ply.Storage | app/src/main/cpp/GSScene.cpp:58-69 | splits a record into position, scale, rotation and 48 coefficients |
| Ply.ShSource | app/src/main/cpp/GSScene.cpp:76-84 | the source slot of each destination coefficient is in range |
| Ply.ShDestination | app/src/main/cpp/GSScene.cpp:76-84 | the destination slot of each source coefficient is in range |
| Ply.ShReorderBijective | app/src/main/cpp/GSScene.cpp:76-84 | the reordering and its inverse undo each other on all 48 slots |
| Ply.ShSourceInjective | app/src/main/cpp/GSScene.cpp:76-84 | no two destinations read the same source slot |
| Ply.ReorderShs | app/src/main/cpp/GSScene.cpp:76-84 | the loop fills every destination slot from its source slot |
| Ply.ReadVertex | app/src/main/cpp/GSScene.cpp:55-91 | reads one record of the chosen layout, advances by its size, and reorders the coefficients |
| Ply.VertexAtCoefficients | app/src/main/cpp/GSScene.cpp:68-84 | the vertex a record becomes (`VertexAt`) has its position with w = 1.0, and every one of the 48 stored coefficients reaches its own slot of shs |
| Ply.ReadRecords | app/src/main/cpp/GSScene.cpp:128-130 | exactly count records (none for a negative count), in order, from consecutive positions |
| Ply.GSScene.constructor | app/src/main/cpp/GSScene.h:25-26 | holds the asset, an empty header and no vertices |
| Ply.GSScene.LoadPlyHeader | app/src/main/cpp/GSScene.cpp:170-219 | the loop's header and result are those of ScanHeader; a missing end_header throws |
| Ply.GSScene.Load | app/src/main/cpp/GSScene.cpp:118-136 | the header, then numVertices records read in order into consecutive slots |
| Npy.Asset.Read | app/src/main/cpp/base_utils.cpp:35 | reads up to count bytes from the offset and advances by what was read |
| Npy.GetLine | app/src/main/cpp/base_utils.cpp:32-40 | the bytes before the next newline, which is consumed, or the rest of the input |
| Text.NextLine | app/src/main/cpp/base_utils.cpp:32-40 | the line from pos holds no newline and is the input from pos; the next position is just past its newline, or the end of the input |
| Text.Find | app/src/main/cpp/base_utils.cpp:53-54 | std::string::find: the first position where the pattern occurs, or none (npos) when it occurs nowhere |
| Npy.Substr | app/src/main/cpp/base_utils.cpp:57 | substr throws past the end, otherwise takes up to count characters |
| Npy.Stoi | app/src/main/cpp/base_utils.cpp:71 | stoi yields a 32-bit int or throws invalid_argument or out_of_range |
| Npy.StoiDigits | app/src/main/cpp/base_utils.cpp:71 | stoi of a digit run is its value when it fits an int, else out_of_range |
| Npy.StoiUnsigned | app/src/main/cpp/base_utils.cpp:71 | stoi of text starting with a digit reads its leading digit run, or throws out_of_range above INT_MAX |
| Npy.StoiRun | app/src/main/cpp/base_utils.cpp:71 | stoi of a whole digit run is its value when it fits an int, else out_of_range |
| Npy.DigitRuns | app/src/main/cpp/base_utils.cpp:65-73 | the maximal digit runs of a string, in order |
| Npy.SearchDigits | app/src/main/cpp/base_utils.cpp:70 | a regex match lies within the string and is non-empty |
| Npy.SearchDigitsRuns | app/src/main/cpp/base_utils.cpp:70-72 | the first match is the first digit run and its suffix holds the rest |
| Npy.RunValuesMeaning | app/src/main/cpp/base_utils.cpp:70-73 | succeeds iff every run fits an int, and then gives their values in order |
| Npy.RunValuesStep | app/src/main/cpp/base_utils.cpp:70-73 | the shape of a string is its first match's value followed by the shape of the suffix |
| Npy.RunValuesCons | app/src/main/cpp/base_utils.cpp:70-73 | the values of a run followed by more runs: out_of_range when the run exceeds INT_MAX, else its value before the others' |
| Npy.PrefixedPrefixed | app/src/main/cpp/base_utils.cpp:70-73 | prefixing twice is prefixing by the concatenation |
| Npy.FortranOrderField | app/src/main/cpp/base_utils.cpp:53-57 | a missing keyword throws; otherwise true iff the four characters 16 past it are "True" |
| Npy.ShapeTextField | app/src/main/cpp/base_utils.cpp:60-69 | fails iff '(' or ')' is missing; otherwise the text between them |
| Npy.UpToQuote | app/src/main/cpp/base_utils.cpp:83-85 | the quote-free text up to the next quote or the end |
| Npy.WordSizeField | app/src/main/cpp/base_utils.cpp:76-85 | a missing descr throws; otherwise stoi of the text 11 past it up to the next quote |
| Npy.HeaderAt | app/src/main/cpp/base_utils.cpp:43-48 | throws unless 11 bytes can be read |
| Npy.ShapeLoopTurn | app/src/main/cpp/base_utils.cpp:70-73 | one loop iteration either fails the parse with the stoi error or keeps the shape found so far plus the shape still to find equal to the whole |
| Npy.ShapeLoopEnd | app/src/main/cpp/base_utils.cpp:70 | when the search finds no more digits, the values read so far are the whole shape |
| Npy.ParseShape | app/src/main/cpp/base_utils.cpp:65-73 | the regex loop yields the values of the digit runs in order |
| Npy.ShapeValuesMeaning | app/src/main/cpp/base_utils.cpp:65-73 | the shape values (`ShapeValues`) are the values of every maximal digit run, in order; they fail, with out_of_range, exactly when some run exceeds INT_MAX |
| Npy.ParseNpyHeader | app/src/main/cpp/base_utils.cpp:42-86 | the preamble, the header line and its three fields, with every error of the source, and the read offset left at the data |
| Npy.HeaderFieldsOrder | app/src/main/cpp/base_utils.cpp:52-85 | parsing the header line (`HeaderFields`) succeeds iff all four fields parse, and then holds their values; otherwise it throws the first failure in the order fortran_order, parentheses, a stoi of the shape, descr |
| Npy.SizeProductIsProductMod | app/src/main/cpp/base_utils.h:32-33 | the size_t product loop is the product of the shape modulo 2^64 |
| Npy.NewNpyArray | app/src/main/cpp/base_utils.h:29-36 | num_vals is the product of the shape (1 for an empty shape), the data num_vals·word_size zero bytes |
| Npy.ByteCountWraps | app/src/main/cpp/base_utils.h:56-58 | num_bytes (`ByteCount`) is the product of the shape times the word size, modulo 2^64 |
| Npy.DefaultNpyArray | app/src/main/cpp/base_utils.h:38 | no data, an empty shape, word size 0, C order, 0 values |
| Npy.ByteCountExact | app/src/main/cpp/base_utils.h:56-58 | without overflow, num_bytes is the product of the shape times the word size |
| Npy.Elements | app/src/main/cpp/base_utils.h:50-54 | count elements that concatenate to the first count·size bytes of the data |
| Npy.ElementSizes | app/src/main/cpp/base_utils.h:50-54 | every element is size bytes long |
| Npy.AsVec | app/src/main/cpp/base_utils.h:50-54 | exactly num_vals elements, concatenating to the first num_vals·size bytes |
| Npy.NpyAt | app/src/main/cpp/base_utils.cpp:88-102 | a loaded array holds exactly num_bytes data bytes and num_vals is the shape product |
| Npy.DataAt | app/src/main/cpp/base_utils.cpp:98-100 | fails iff fewer than n bytes follow the start; otherwise the array of the header carrying exactly those n bytes |
| Npy.ReadData | app/src/main/cpp/base_utils.cpp:98-100 | the length check after the read gives exactly the data read of the file |
| Npy.LoadTheNpyFile | app/src/main/cpp/base_utils.cpp:88-102 | parses the header, sizes the array and fails when fewer than num_bytes bytes follow |
| Npy.ReadArray | app/src/main/cpp/base_utils.cpp:95-100 | after the header, the load is DataAt: the array of num_bytes bytes read from the offset, or the read failure when fewer follow |
| Npy.NpyLoad | app/src/main/cpp/base_utils.cpp:104-113 | an unknown file throws "npy_load: Unable to open file " plus its name; otherwise loads it from its start |
| Npy.Renderings | app/src/main/cpp/base_utils.cpp:65-73 | the decimal rendering of each dimension |
| Npy.DigitRunsOf | app/src/main/cpp/base_utils.cpp:65-73 | a digit run followed by a non-digit is the first run |
| Npy.DigitRunsJoined | app/src/main/cpp/base_utils.cpp:65-73 | the runs of a comma-joined shape are its renderings |
| Npy.DigitRunsCons | app/src/main/cpp/base_utils.cpp:65-73 | a rendered dimension followed by ", " is the first run, the rest follow |
| Npy.DigitRunsSeparated | app/src/main/cpp/base_utils.cpp:65-73 | the separator ", " holds no digit run |
| Npy.ShapeTextRuns | app/src/main/cpp/base_utils.cpp:65-73 | the runs of a shape tuple are its renderings |
| Npy.RunValuesOfRenderings | app/src/main/cpp/base_utils.cpp:70-73 | reading back the renderings of dimensions that fit an int gives the shape |
| Npy.ShapeTextChars | app/src/main/cpp/base_utils.cpp:60-61 | a rendered tuple holds no ')' and no newline |
| Npy.WordSizeFieldAt | app/src/main/cpp/base_utils.cpp:76-85 | the descr entry of a written header gives back its word size |
| Npy.FindFortranKey | app/src/main/cpp/base_utils.cpp:53 | the fortran_order key is found right after its quote |
| Npy.FortranFieldAt | app/src/main/cpp/base_utils.cpp:53-57 | the fortran_order entry of a written header gives back its flag |
| Npy.ShapeFieldAt | app/src/main/cpp/base_utils.cpp:60-69 | the shape entry of a written header gives back its tuple text |
| Npy.ParenthesesField | app/src/main/cpp/base_utils.cpp:60-69 | with no parenthesis before it and no ')' inside, the shape text is what lies between the parentheses |
| Npy.ShapeValuesOfText | app/src/main/cpp/base_utils.cpp:65-73 | the tuple text of a shape parses back to the shape |
| Npy.HeaderLineWordSize | app/src/main/cpp/base_utils.cpp:76-85 | a written header line gives back its word size |
| Npy.HeaderLineFortran | app/src/main/cpp/base_utils.cpp:53-57 | a written header line gives back its order flag |
| Npy.HeaderLineShape | app/src/main/cpp/base_utils.cpp:60-69 | a written header line gives back its tuple text |
| Npy.HeaderLineParses | app/src/main/cpp/base_utils.cpp:53-85 | a version 1.0 header line written by NumPy parses back to its word size, shape and order |
| Npy.WrittenFileLoads | app/src/main/cpp/base_utils.cpp:42-102 | a written file holding at least num_bytes of payload loads with its header fields and exactly that data; a shorter payload fails |
| Npy.LineLoads | app/src/main/cpp/base_utils.cpp:42-102 | any file whose header line parses loads with that header and its first num_bytes data bytes, or fails when fewer follow |
| Npy.LineAfter | app/src/main/cpp/base_utils.cpp:32-40 | the getline after the 11 preamble bytes returns the header line and leaves the offset at the data |
| Npy.LoadsAfterLine | app/src/main/cpp/base_utils.cpp:88-102 | a parsed header followed by the data bytes loads with that header and the first num_bytes of them |
| Npy.LoadsPayload | app/src/main/cpp/base_utils.cpp:98-100 | the data read holds the first n payload bytes, or fails when the payload is shorter |
| Npy.CStrLen | app/src/main/cpp/base_utils.cpp:23 | strlen: the position of the first zero byte |
| Npy.LittleEndian | app/src/main/cpp/base_utils.h:70-77 | width bytes, each below 256 |
| Npy.LittleEndianRoundTrip | app/src/main/cpp/base_utils.h:70-77 | decoding the little-endian bytes of a value that fits gives the value |
| Npy.FromLittleEndianRoundTrip | app/src/main/cpp/base_utils.h:70-77 | encoding the value of any byte string gives the bytes back |
| Npy.CharVector.AppendString | app/src/main/cpp/base_utils.cpp:16-19 | lhs becomes lhs ++ rhs |
| Npy.CharVector.AppendCString | app/src/main/cpp/base_utils.cpp:21-29 | exactly strlen(rhs) bytes of rhs are appended |
| Npy.CharVector.AppendObject | app/src/main/cpp/base_utils.h:70-77 | the object's bytes are appended in memory order, the prefix kept |
| Npy.CharVector.AppendUnsigned | app/src/main/cpp/base_utils.h:70-77 | an unsigned value is appended as its little-endian bytes, which decode back to it |
| Devices.SuitableDevices | app/src/main/cpp/vulkan/VulkanContext.cpp:194-198 | the filtered list holds only suitable devices of the input |
| Devices.FirstDiscrete | app/src/main/cpp/vulkan/VulkanContext.cpp:199-205 | a discrete GPU of the list |
| Devices.SuitableDevicesExact | app/src/main/cpp/vulkan/VulkanContext.cpp:194-198 | a device is in the filtered list iff it is in the input and suitable |
| Devices.AutomaticChoice | app/src/main/cpp/vulkan/VulkanContext.cpp:194-208 | the automatic choice is suitable; it is discrete iff a suitable discrete GPU exists; otherwise it is the first suitable device |
| Devices.FirstDiscreteAt | app/src/main/cpp/vulkan/VulkanContext.cpp:199-205 | the preferred device is the first discrete one |
| Devices.RecordFamilyStep | app/src/main/cpp/vulkan/VulkanContext.cpp:235-245 | one loop turn (`RecordFamily`) keeps every recorded role right and covers every role family i can fill |
| Devices.ScanFamiliesCorrect | app/src/main/cpp/vulkan/VulkanContext.cpp:230-252 | the scan (`ScanFamilies`) records only matching families and misses no role some family could fill |
| Devices.QueueFamiliesCorrect | app/src/main/cpp/vulkan/VulkanContext.cpp:230-252 | for findQueueFamilies (`QueueFamiliesOf`), every recorded family has the right flags; a role is left unset iff no family can fill it |
| Devices.NoSurfaceTakesLastMatch | app/src/main/cpp/vulkan/VulkanContext.cpp:230-252 | without a surface the scan never completes, so the last graphics family wins |
| Devices.NoSurfaceKeepsGraphics | app/src/main/cpp/vulkan/VulkanContext.cpp:230-252 | without a surface and with no later graphics family the recorded one is kept |
| Devices.StopsAtFirstCompleteFamily | app/src/main/cpp/vulkan/VulkanContext.cpp:245-248 | a first family that does everything ends the scan at index 0 |
| Devices.Insert | app/src/main/cpp/vulkan/VulkanContext.cpp:268-270 | inserting into a sorted set keeps it sorted and adds exactly that element |
| Devices.UniqueFamilies | app/src/main/cpp/vulkan/VulkanContext.cpp:268-270 | the distinct families of the three roles, sorted, one to three of them |
| Devices.TypesOf | app/src/main/cpp/vulkan/VulkanContext.cpp:300-312 | the queue types whose family is f |
| Devices.FiledAt | app/src/main/cpp/vulkan/VulkanContext.cpp:300-312 | a type whose family has been filed maps to that family's queue; every other type keeps its entry |
| Devices.FiledAll | app/src/main/cpp/vulkan/VulkanContext.cpp:300-312 | once every distinct family is filed, each queue type maps to its own family's queue |
| Devices.PoolFor | app/src/main/cpp/vulkan/VulkanContext.cpp:362-377 | 10·f uniform buffers, 50·f storage buffers and 10·f storage images, 100 sets, fitting 32 bits |
| Devices.VulkanContext.constructor | app/src/main/cpp/vulkan/VulkanContext.cpp:42-58 | the portability extensions on Apple without Metal; dynamic rendering always; with validation the non-semantic-info extension and debug-utils twice |
| Devices.VulkanContext.IsDeviceSuitable | app/src/main/cpp/vulkan/VulkanContext.cpp:141-166 | false iff a required extension is unsupported, or a surface is given and it has no formats or no present modes |
| Devices.VulkanContext.SelectPhysicalDevice | app/src/main/cpp/vulkan/VulkanContext.cpp:168-228 | a surface adds the swapchain extension; an id past the device count throws "Invalid physical device id"; otherwise devices[id] unchecked; without an id the preferred suitable device |
| Devices.VulkanContext.FindQueueFamilies | app/src/main/cpp/vulkan/VulkanContext.cpp:230-252 | the loop computes the family scan of the selected device |
| Devices.VulkanContext.CreateLogicalDevice | app/src/main/cpp/vulkan/VulkanContext.cpp:265-312 | throws bad_optional_access iff a role has no family; otherwise one create-info per distinct family, and each of graphics, compute and present maps to the queue of its own family |
| Devices.VulkanContext.CreateDescriptorPool | app/src/main/cpp/vulkan/VulkanContext.cpp:362-377 | the pool has the sizes of PoolFor |

## Left out

- Shaders: the preprocess, prefix-sum, histogram, sort, tile-boundary, render and covariance shaders are not part of this model. What a scan step and a sort pass compute is stated as an assumption (`PrefixScan.ScanStep`, `RadixSort.SortPassEffect`), not derived from code.
- Vulkan plumbing: command-buffer recording, barriers, descriptor and pipeline construction, semaphores, submission and VMA are kept only as the values they decide, with the device's answers as inputs.
- `createInstance`, `createQueryPool`, `createCommandPool`, `setupVma`, the one-time command buffers and the MoltenVK library loading of `VulkanContext` are foreign-API calls and are not modelled.
- Sizing.CeilLog2: `iters` is computed in floating point as ceil(log2(float N)); the model uses the integer ceiling of log2, which can differ once float rounding of N above 2^24 changes the result.
- Sizing: buffer sizes are unbounded naturals; the source's 32-bit `uint32_t` arithmetic on them is not wrapped, so sizes that would overflow 32 bits are not modelled.
- Floating-point numerics: the camera motion of `handleInput`, the quaternion and matrix work in `moveCameraForProfiling` (only the pose-index step is kept), `updateUniforms`, `computePSNR`, image loading, resizing and readback, the exp, sigmoid and normalize in `readVertexInto`, the +5.0 of `loadSmallScene` and the random scene of `loadTestScene`.
- Timing: the FPS and 30-second counters of `draw`, the timestamp values `retrieveTimestamps` parses and pushes as metrics, and the ImGui clock. Only whether `retrieveTimestamps` throws is kept, as a per-frame input of `Frame.Renderer.Run`. Times are parameters (`Metrics.GUIManager.PushMetrics` takes one reading per entry).
- UI: `GUIManager::buildGui` and `init` are ImGui/ImPlot drawing; only the plot's reading order of a ScrollingBuffer is modelled.
- I/O wrappers: AndroidWindow, 3dgs.cpp/.h, `android_main`, `handleAppCmd` and `file_to_string`. An AAsset is modelled as a byte string with a read offset, and the asset manager as a map from file names to contents.
- Raw-memory reinterpretation: the record bytes read into the storage variant are kept as four-byte words, and `as_vec` is modelled as splitting the data into element-sized byte groups, not as doubles.
- Concurrency: the `running` flag and `setGui` arrive from other threads; `Frame.Renderer.Run` takes them as per-frame inputs, and waiting idle is a counter.
- Frame.Renderer.constructor: it requires at least one profiling pose in PSNR mode. With none, `cameraPosIndex % rotations.size()` at Renderer.cpp:162 divides by zero, which is undefined behaviour; the model does not follow it.
- Input.ProcessForProfiler: in PSNR mode it requires a pose array of at least two dimensions and, when a row is read, at least 14 values. A smaller array makes `arr.shape[1]` or `vec[view_i + 13]` (main.cpp:162-175) read out of bounds, which is undefined behaviour; the model does not follow it.
- Frame.Renderer.Run: it calls the corrected draw (`Frame.Renderer.DrawCorrected`), not the draw as written, so that one frame's out-of-date acquire cannot hang the loop.
- Metrics: the ScrollingBuffer values in the metric map are modelled as datatype values updated through the map, not as objects updated in place; the C++ map holds them by value, so there is no aliasing to lose.
- Metrics.Inv: a buffer with maxSize ≤ 0 indexes an empty vector in the source; the model requires a positive capacity.
- Devices.IsComplete: `QueueFamilyIndices::isComplete` is declared in a header that is not part of this model; it is taken to mean that all three families are set.
- Metrics.GUIManager.constructor: the initial `useHalfResolution` and `showMetrics` flags live in GUIManager.h, which is not part of this model; they are constructor parameters.
- Ply.GSScene.constructor: `numVertices` and `numFaces` are indeterminate in the source until an element line sets them; the model starts them at 0.
- `loadSmallScene`, `loadTestScene`, `precomputeCov3D`, `createBuffer` and `printVertex` of GSScene are not modelled: they are debug scenes, GPU uploads and logging.
- Frame.Renderer.PreprocessUntilRecorded: it requires every instance count read back to be below 2^32, the range of the 32-bit counter the scan produces; this guarantees the grow-and-retry loop ends.
- Frame.Renderer.RenderAndPresent: with vulkan-hpp exceptions enabled, `presentKHR` throws a `vk::SystemError` for every result other than success and suboptimal, so the "Failed to present swapchain image" throw of Renderer.cpp:591 is unreachable in the source; the model reports such a present (device lost, say) under that message instead of as the escaping `vk::SystemError`.
- Devices.VulkanContext.SelectPhysicalDevice: without an id it requires at least one suitable device. VulkanContext.cpp:201 reads `suitableDevices[0]` unguarded, which is undefined behaviour when no device is suitable; the model does not follow that path.
- Npy.NewNpyArray: the data buffer is an unbounded sequence; `new std::vector<char>(num_vals * word_size)` in base_utils.h:33-34 can throw `std::length_error` or `std::bad_alloc` for a large declared shape, and that failure is not modelled.
- Frame.Renderer.Draw: only the release build is modelled. A `DEBUG` build calls `handleInput` instead of `moveCameraForProfiling` at Renderer.cpp:547-551; that camera motion is floating point and is left out with it.
- Frame.Renderer.Initialize: it requires a scene of at least one vertex, and so does `PrefixScan.Iterations`. A PLY file with `element vertex 0` loads in the source (GSScene.cpp:124-133) and then reaches `log2(0)` at Renderer.cpp:698; Ply.ReadRecords reads nothing for a negative count, where the source's staging size `header.numVertices * sizeof(Vertex)` (GSScene.cpp:124) wraps to a huge `size_t` allocation. Both are undefined behaviour or a failed allocation in the source, and the model does not follow them.

## Findings

| source | as written | input that shows it | evidently intended | confidence | as-written member | corrected member |
|---|---|---|---|---|---|---|
| app/src/main/cpp/Renderer.cpp:529-540 | `draw` resets the in-flight fence before `acquireNextImageKHR`, then returns after recreating the swapchain when the acquire is out of date; nothing submitted will signal the fence | a frame whose fence wait succeeds and whose acquire returns `eErrorOutOfDateKHR` (a window resize); the next `draw` waits on the fence with timeout `UINT64_MAX` | reset the fence only after a successful acquire, so an early return leaves it signaled | not executed | Frame.Renderer.AcquireOutOfDateHangs | Frame.Renderer.AcquireOutOfDateRecovers |
