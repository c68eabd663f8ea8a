# The state machines of the Chromium demos

The demos in this repository are thin programs over Chromium libraries, but six of them contain
hand-written concurrent state machines. This project models those machines in Dafny and proves what
they keep over every run and every interleaving.

| file | machine | source |
|---|---|---|
| `ResourceProvider.dfy`, `ResourceRun.dfy` | resource accounting of the viz clients, and the two reclaim orders | `demo_viz/demo_viz_layer.cc`, `demo_viz/demo_viz_gui.cc` |
| `Frames.dfy`, `RootSink.dfy` | frame tokens, replies, and the root client that submits on one tick in sixty | `demo_viz/demo_viz_layer.cc` |
| `Ink.dfy` | the ink client, which coalesces draws into frames | `demo_viz/demo_viz_layer.cc` |
| `Embed.dfy` | embedding a child surface under `lock_` | `demo_viz/demo_viz_layer.cc` |
| `Startup.dfy`, `StartupResults.dfy` | start-up across six threads without locks | `demo_viz/demo_viz_layer.cc` |
| `Broker.dfy` | the channel broker: parent, service, any number of clients | `demo_mojo/demo_mojo_child_process.cc` |
| `RenderLoop.dfy` | the touch-driven render loop | `demo_skia/skia_canvas.cc` |
| `ObjectWrap.dfy` | native wrappers, their JS objects and a collector | `demo_mojo_v8/v8/node_object_wrap.h` |
| `Shell.dfy` | the Android shell's views | `ShellManager.java`, `Shell.java` |
| `TraceWriter.dfy` | the trace writer with a running file offset | `demo_android/demo_android_skia/cpp/skia_canvas.cc` |

`dafny verify dfyconfig.toml` checks everything.

## How it is built

Each machine has a value-level description: a datatype for its state, an `Event` for everything that can
happen to it, a function `Apply` for one step, and `Exec` (or `Continue`) for a run. `Enabled` says when an
event can happen and `Feasible` that every event of a run could, so a lemma over all feasible event sequences
speaks of every reachable state and every interleaving. Beside it stands a class with the fields and methods
of the source; each method is proved to make exactly the step the value-level function describes. The view
tree, where sharing and parent pointers are the point, is modelled on objects only.

What is assumed of the libraries: a task runner is a FIFO queue per thread and runs a delayed task no earlier
than its delay; a mojo pipe delivers in order, and delivers what is pending before the disconnect notice;
`ClientResourceProvider` gives fresh ids, counts exports, and frees an id when it is marked and nothing is
out; `FrameTokenGenerator` is a 32-bit counter that skips zero; `FrameSinkIdAllocator` and
`ParentLocalSurfaceIdAllocator` do not repeat; adding an Android view that has a parent is an error; V8
collects an object when neither JS nor a strong handle holds it and then runs its weak callback; a file write
returns -1 or the number of leading bytes it wrote. Clock readings, write outcomes, the parent's choice
of what to return and when, and the collector's choices are inputs.

## What was found

- Returning then removing and removing then returning are not the same in general. They agree exactly when no
  fully returned id was already marked or is named twice in the batch, and the same condition decides whether
  the first order names an absent id (`ReclaimOrdersAgree`, `ReclaimFaults`, `PartialReturnsBreakLayerOrder`).
  The clients here export each id once, so the batches that reach them always meet it (`BatchesAreOrderFree`).
- The frame report divides by the frame count and the touch count at the up. It divides by zero exactly when the up
  finds the loop idle, or no pass was made since the latest down, or one of the two 32-bit counts has just wrapped
  (`FramesReported`, `DivisionFails`). A quick double tap does it (`QuickDoubleTap`), and so do two fingers of which one
  comes up later than the other (`TwoFingers`).
- The total frame time is last minus first drawing time exactly when no time passed at a wrap of the 32-bit frame
  counter (`FrameTimeIsSpan`); a stroke held over the wrap loses time (`TimeLostAtAWrap`).
- The comment on the root's begin-frame handler speaks of sixty ticks a frame; since the token skips zero when it
  wraps, and 2^32 - 1 is not a multiple of sixty, the first frame after a wrap comes early (`EarlyAfterTheWrap`).
  `CeilingOfTicks` says for exactly which n there are ceil(n / 60) frames, and `FramesSubmitted` gives the number of
  frames through every wrap.
- The trace writer adds a failed write's -1 to its offset. The file equals the append-only log exactly when every
  write took all its bytes (`FileIsLog`); one failure makes the next write destroy a byte (`FailedWriteCorrupts`).
- `FlushTrace` checks and sets its flag without a lock, and each canvas has a render thread of its own. With one canvas
  flushes never overlap (`OneFlushAtATime`). With two they can, and then tracing is on while a flush is in progress
  (`TwoCanvasesOverlap`), exactly after one has ended before the other (`DisabledIffInProgress`).
- Without `lock_` a root frame can name a surface that its child will never submit under (`TornWithoutLock`).
- `initFromNativeTabContents` ends in a null dereference exactly when its shell has no render view, that is, when it
  is not the active shell (`Perform`, `ContentsForHiddenShell`).
- `InitIPCClient` and `InitVizMain` do reach gpu-main in either order (`EitherOrder`), and start-up is right in both
  (`InPlaceWhenUsed`); it does get to its end (`StartsUp`),
  and is complete whenever everything has come to rest (`StartUpCompletes`).
- A second `setWindow` while a shell is shown replaces the manager's render view but not the shell's, so the manager's is
  no longer on display (`SecondWindowDetaches`). It is on display exactly when a shell is shown and no setWindow came while
  that shell was (`AttachedIffShown`).

## Model

| member | source | states |
|---|---|---|
| ResourceProvider.ReclaimOrdersAgree | demo_viz/demo_viz_gui.cc:498-507 | the two reclaim orders leave the same provider and the same callbacks if and only if no fully returned id is already marked or named twice |
| ResourceProvider.ReclaimFaults | demo_viz/demo_viz_layer.cc:423-432 | the order of demo_viz_layer never removes an absent id if and only if the same condition holds; the order of demo_viz_gui never does |
| ResourceProvider.PartialReturnsBreakLayerOrder | demo_viz/demo_viz_layer.cc:408-417 | returning two references to one id in two batches is harmless in one order and names an absent id in the other |
| ResourceProvider.SlotLayer | demo_viz/demo_viz_layer.cc:428-431 | where one id ends up after return-then-remove: still out and marked, or freed once with a fault for each surplus removal |
| ResourceProvider.SlotGui | demo_viz/demo_viz_gui.cc:500-506 | where one id ends up after remove-then-return: still out and marked, or freed once, never a fault |
| ResourceProvider.ReturnsClosedForm | demo_viz/demo_viz_layer.cc:428-428 | a batch of returns frees an id exactly when it was marked and everything out came back |
| ResourceProvider.ReturnAllAt | demo_viz/demo_viz_layer.cc:428-428 | a batch touches each id by the counts it carries for that id and no other |
| ResourceProvider.RemoveAllAt | demo_viz/demo_viz_layer.cc:429-431 | the removal loop touches each id as often as the batch names it |
| ResourceProvider.ClientResourceProvider.ImportResource | demo_viz/demo_viz_layer.cc:344-347 | a fresh id, held with nothing exported |
| ResourceProvider.ClientResourceProvider.PrepareSendToParent | demo_viz/demo_viz_layer.cc:286-287 | one more reference out; an absent id is a fault |
| ResourceProvider.ClientResourceProvider.ReceiveReturnsFromParent | demo_viz/demo_viz_layer.cc:428-428 | every return of the batch is taken, in order |
| ResourceProvider.ClientResourceProvider.RemoveImportedResource | demo_viz/demo_viz_layer.cc:430-430 | the id is freed, or marked while references are out; an absent id is a fault |
| ResourceProvider.ClientResourceProvider.ReclaimAsLayer | demo_viz/demo_viz_layer.cc:972-981 | all returns, then one removal for each entry of the batch |
| ResourceProvider.ClientResourceProvider.ReclaimAsGui | demo_viz/demo_viz_gui.cc:498-507 | one removal for each entry of the batch, then all returns |
| ResourceRun.OnePhase | demo_viz/demo_viz_layer.cc:258-287 | at every state of every run each id made is in exactly one phase: unsent, exported, returned but not yet dropped, or released |
| ResourceRun.NoFaults | demo_viz/demo_viz_layer.cc:408-432 | no run removes an absent id or takes back what is not out, and no release callback runs twice |
| ResourceRun.BetweenTasks | demo_viz/demo_viz_layer.cc:391-432 | between tasks every id is exported or released |
| ResourceRun.SentInOneFrame | demo_viz/demo_viz_layer.cc:655-681 | between tasks every id is in the resource list of exactly one submitted frame, once |
| ResourceRun.Drained | demo_viz/demo_viz_layer.cc:923-947 | once the parent has returned everything the provider is empty and every callback ran exactly once |
| ResourceRun.Conservation | demo_viz/demo_viz_layer.cc:374-375 | what the provider counts as exported is what is in the frame under construction, at the parent, on its way back or being handled |
| ResourceRun.BatchesAreOrderFree | demo_viz/demo_viz_layer.cc:972-981 | every batch that reaches a client is one on which the two reclaim orders agree |
| ResourceRun.ReclaimIsSteps | demo_viz/demo_viz_layer.cc:938-947 | the step-by-step handling of a batch is the reclaim method run in one go |
| ResourceRun.BuildingRun | demo_viz/demo_viz_layer.cc:708-738 | the step-by-step building of a frame imports and sends as many fresh resources as asked for and submits their list |
| ResourceRun.LedgerRun | demo_viz/demo_viz_layer.cc:938-981 | a client that sends the resources it makes and reclaims what an honest parent returns makes one of the runs above |
| ResourceRun.LedgerBalances | demo_viz/demo_viz_layer.cc:938-981 | such a client names no absent id and releases each resource at most once, and all of them once everything has come back |
| ResourceRun.SentInOneList | demo_viz/demo_viz_layer.cc:286-287 | whatever the parent returns, each id made is in just one of the lists sent, once, and no other id is in any |
| FrameTokens.NextAfter | demo_viz/demo_viz_layer.cc:443-443 | the closed form of the 32-bit token that skips zero |
| RootSink.OneReplyPerTick | demo_viz/demo_viz_layer.cc:951-966 | every begin-frame of every run is answered once, in order, with its own arguments |
| RootSink.FramesSubmitted | demo_viz/demo_viz_layer.cc:957-961 | through every wrap of the token: how many frames n ticks submit, one for each tick whose token leaves remainder 1; each has the token and background of its place and embeds the child embedded latest, and it has two distinct resources and tile and texture circles of each colour once if a context was set at that tick, and none of these otherwise |
| RootSink.BeforeTheWrap | demo_viz/demo_viz_layer.cc:957-961 | a run of n ticks has submitted ceil(n / 60) frames if and only if n meets the condition of CeilingOfTicks; until the token wraps, the i-th has token 60 i + 1 and palette colour i mod 3 |
| RootSink.CeilingOfTicks | demo_viz/demo_viz_layer.cc:956-957 | the closed form is ceil(n / 60) if and only if n is at most 2^32 - 1, or in the next cycle and 0 or more than 45 ticks into its sixty |
| RootSink.EarlyAfterTheWrap | demo_viz/demo_viz_layer.cc:956-957 | the first tick after the wrap, where ceil(n / 60) is one short |
| RootSink.FrameAsPromised | demo_viz/demo_viz_layer.cc:640-706 | a frame made at token 60 j + 1 has background j mod 3 and the child embedded; if and only if there is a context it has two resources, tile circles that go round the palette from the colour after the background, and texture circles from the one after that |
| RootSink.OneMoreTick | demo_viz/demo_viz_layer.cc:957-957 | a tick submits exactly when the closed form grows by one, and then the token is 60 times the place in the cycle plus one |
| RootSink.ResourcesBalance | demo_viz/demo_viz_layer.cc:923-981 | as long as the parent returns only what it holds, the root names no absent id and releases each resource at most once, and all of them once everything has come back |
| RootSink.KeepsLedger | demo_viz/demo_viz_layer.cc:655-681 | the root's provider is what the resource lists of its frames and the batches it reclaimed make of it |
| RootSink.SentInOneFrame | demo_viz/demo_viz_layer.cc:655-681 | whatever the parent returns, each resource the root made is in the list of just one submitted frame, once |
| RootSink.LayerTreeFrameSink.BindOnThread | demo_viz/demo_viz_layer.cc:520-535 | the receiver is bound, and exactly one remote, which is asked for begin-frames; a fresh, empty provider |
| RootSink.LayerTreeFrameSink.SetContextProvider | demo_viz/demo_viz_layer.cc:495-507 | from now on frames carry tile and texture |
| RootSink.LayerTreeFrameSink.EmbedChild | demo_viz/demo_viz_layer.cc:511-517 | the child's sink is remembered under a new surface id, and that pair is returned |
| RootSink.LayerTreeFrameSink.AppendTileDrawQuad | demo_viz/demo_viz_layer.cc:630-682 | circles in palette colours j + 1, j + 2 and j + 3, and one fresh resource sent |
| RootSink.LayerTreeFrameSink.AppendTextureDrawQuad | demo_viz/demo_viz_layer.cc:685-739 | circles in palette colours j + 2, j + 3 and j + 1, and one fresh resource sent |
| RootSink.LayerTreeFrameSink.CreateFrame | demo_viz/demo_viz_layer.cc:537-586 | the frame for the current token, and two more resources sent with a context |
| RootSink.LayerTreeFrameSink.OnBeginFrame | demo_viz/demo_viz_layer.cc:951-966 | the step of a tick in the runs above |
| RootSink.LayerTreeFrameSink.ReclaimResources | demo_viz/demo_viz_layer.cc:972-981 | the reclaim step of the runs above |
| Ink.UpToDate | demo_viz/demo_viz_layer.cc:391-406 | whenever no redraw is wanted, a frame has been submitted and the last one shows the path from the origin through every point drawn, or nothing if none was |
| Ink.AnswersOnce | demo_viz/demo_viz_layer.cc:396-404 | a begin-frame is answered once, by a frame exactly when something was drawn since the one before |
| Ink.EachFrame | demo_viz/demo_viz_layer.cc:212-249 | there is one frame for each begin-frame with something new; each shows the path from the origin through exactly the points drawn before its begin-frame, its token counts the submissions, and its background follows the token |
| Ink.ResourcesBalance | demo_viz/demo_viz_layer.cc:344-432 | as long as the parent returns only what it holds, the client names no absent id and releases each resource at most once, and all of them once everything has come back |
| Ink.KeepsLedger | demo_viz/demo_viz_layer.cc:258-287 | the client's provider is what the resource lists of its frames and the batches it reclaimed make of it |
| Ink.SentInOneFrame | demo_viz/demo_viz_layer.cc:258-287 | whatever the parent returns, each resource the client made is in the list of just one submitted frame, once |
| Ink.InkClient.Bind | demo_viz/demo_viz_layer.cc:150-169 | the bound client: a path that starts at the origin, a blank bitmap, a redraw wanted, begin-frames asked for |
| Ink.InkClient.DrawPoint | demo_viz/demo_viz_layer.cc:212-221 | the path is extended by the point, the bitmap shows all of it, a redraw is wanted and begin-frames are asked for |
| Ink.InkClient.CreateFrame | demo_viz/demo_viz_layer.cc:223-314 | the next token, the bitmap's content, one fresh resource sent |
| Ink.InkClient.OnBeginFrame | demo_viz/demo_viz_layer.cc:391-406 | the begin-frame step of the runs above |
| Ink.InkClient.ReclaimResources | demo_viz/demo_viz_layer.cc:423-432 | the reclaim step of the runs above |
| Embed.QuadsNameTheChild | demo_viz/demo_viz_layer.cc:758-765 | in every interleaving with the lock a surface quad names a pair fixed for a child, and that child submits under no other |
| Embed.QuadIsLatest | demo_viz/demo_viz_layer.cc:559-561 | with the lock, a frame embeds the child embedded last, and has no surface quad exactly when there is none yet |
| Embed.OnePairPerCall | demo_viz/demo_viz_layer.cc:511-517 | with the lock, the k-th call of EmbedChild embeds sink k under surface k + 1, and each call embeds one |
| Embed.OneChildOnePair | demo_viz/demo_viz_layer.cc:1111-1139 | with one child, all quads and all child frames name the same pair |
| Embed.TornWithoutLock | demo_viz/demo_viz_layer.cc:513-516 | without the lock there is a run whose quad names a surface the child never submits under |
| StartupResults.NothingUsedUnset | demo_viz/demo_viz_layer.cc:1160-1185 | in no interleaving does a task use a pointer, receiver or client that is not in place |
| StartupResults.InPlaceWhenUsed | demo_viz/demo_viz_layer.cc:1187-1311 | whenever a thread is about to use something, it is set: `server_channel_` in `InitVizHost`, `viz_main_` in `Bind`, both clients and, for a valid handle, `gpu_channel_host_` in `OnEstablishedOnMain`, the bind task's work in every client task |
| StartupResults.LaunchInPlace | demo_viz/demo_viz_layer.cc:1173-1183 | in every run, when `InitVizHost` is about to be posted both clients and the runner are set, and the server channel, `viz_main_` and both bind tasks are done or queued ahead of anything posted later |
| StartupResults.EitherOrder | demo_viz/demo_viz_layer.cc:1176-1208 | there are runs in which `InitIPCClient` and `InitVizMain` reach gpu-main in each order |
| StartupResults.StartUpCompletes | demo_viz/demo_viz_layer.cc:1160-1311 | in whatever order things happened, when nothing is left to run and no message is under way, start-up is complete: every object is there, both clients are bound and have their contexts |
| StartupResults.ContextsHandedOver | demo_viz/demo_viz_layer.cc:1296-1311 | once `OnEstablishedOnMain` has run to its end, each client has its context or the task that sets it in its queue |
| StartupResults.TaskInPlace | demo_viz/demo_viz_layer.cc:1187-1311 | in every run a task that is about to begin finds in place all that it uses without setting it |
| StartupResults.MouseDraws | demo_viz/demo_viz_layer.cc:197-210 | from the launch on every mouse event queues a draw for the ink client, which is bound by then |
| StartupResults.StartsUp | demo_viz/demo_viz_layer.cc:1282-1311 | there is a run that comes to rest with `gpu_channel_host_` and both clients' contexts set |
| Startup.GpuService.constructor | demo_viz/demo_viz_layer.cc:1160-1185 | what it sets and posts is what the service's part of `InitializeDemo` does in the runs above |
| Startup.GpuService.RunInitIPCServer | demo_viz/demo_viz_layer.cc:1187-1211 | what the task sets and posts is what its instructions do |
| Startup.GpuService.RunInitIPCClient | demo_viz/demo_viz_layer.cc:1213-1233 | the same for `InitIPCClient` |
| Startup.GpuService.RunInitVizMain | demo_viz/demo_viz_layer.cc:1272-1279 | the same for `InitVizMain` |
| Startup.GpuService.RunInitVizHost | demo_viz/demo_viz_layer.cc:1235-1270 | given a server channel: one request for VizMain and one EstablishGpuChannel call are under way |
| Startup.GpuService.OnAssociatedInterfaceRequest | demo_viz/demo_viz_layer.cc:1513-1529 | a request for VizMain is bound at once on gpu-main and posted there from any other thread; one for another interface is ignored |
| Startup.GpuService.RunOnEstablishedOnIO | demo_viz/demo_viz_layer.cc:1282-1294 | a valid handle sets `gpu_channel_host_` before the main thread is told |
| Startup.GpuService.RunOnEstablishedOnMain | demo_viz/demo_viz_layer.cc:1296-1311 | each client's context is posted to its own thread |
| Broker.OneHolder | demo_mojo/demo_mojo_child_process.cc:110-131 | in every run the client end of each pipe is in exactly one place: the service's hand, a reply under way, a client, or closed |
| Broker.ServiceEntries | demo_mojo/demo_mojo_child_process.cc:114-127 | `service_` holds an id exactly while the service end of its pipe is open, and gives it up only after the client end closed and all messages were read |
| Broker.ReceiverEntries | demo_mojo/demo_mojo_child_process.cc:38-54 | `receivers_` keeps every client that is alive or has a request to be read |
| Broker.NothingLeaks | demo_mojo/demo_mojo_child_process.cc:38-131 | once a client is dead, wherever it was in the protocol and however many others live on, and parent and service have nothing left to do, neither map has an entry for it |
| Broker.EntriesOfTheLiving | demo_mojo/demo_mojo_child_process.cc:38-131 | when parent and service have nothing left to do, `receivers_` holds exactly the living clients and `service_` exactly the ids whose client end is open, each of a living client |
| Broker.RequestKept | demo_mojo/demo_mojo_child_process.cc:59-62 | no request is lost: whoever has made one has it waiting at the parent or forwarded, and nobody else has |
| Broker.RequestAnswered | demo_mojo/demo_mojo_child_process.cc:59-131 | when parent and service have nothing left to do, every living client that has asked has a reply to its own request, in its inbox or received |
| Broker.EveryHiIsHandled | demo_mojo/demo_mojo_child_process.cc:194-227 | when nothing is left to do at all, every living client that has asked has said Hi, and it was handled once, under its id |
| Broker.ComesToRest | demo_mojo/demo_mojo_child_process.cc:38-131 | as long as no client is started, asks or dies, only a bounded number of steps can be taken, so everything comes to rest |
| Broker.ServedAndGone | demo_mojo/demo_mojo_child_process.cc:167-227 | a run in which a client asks, is answered, says Hi, is handled, quits and dies, and nothing is left of it |
| Broker.RequestsAndIds | demo_mojo/demo_mojo_child_process.cc:59-62 | the k-th request forwarded gets id k; distinct clients get distinct ids and pipes, and each client one |
| Broker.HiReachesItsService | demo_mojo/demo_mojo_child_process.cc:209-226 | a Hi is handled only under the id its sender received, and once |
| Broker.HiBeforeErase | demo_mojo/demo_mojo_child_process.cc:90-125 | once an id is erased, the Hi sent on its pipe, if any, has been handled |
| Broker.ConnectionHelper.AddClient | demo_mojo/demo_mojo_child_process.cc:38-54 | the next key, as in the runs above |
| Broker.ConnectionHelper.OnClientDisconnected | demo_mojo/demo_mojo_child_process.cc:44-52 | the key is erased, as in the runs above |
| Broker.ConnectionHelper.EstablishChannel | demo_mojo/demo_mojo_child_process.cc:59-62 | the request is forwarded, as in the runs above |
| Broker.ConnectionFactory.EstablishChannel | demo_mojo/demo_mojo_child_process.cc:110-131 | the next id, stored with the service end of the pipe; the reply carries the client end |
| Broker.ConnectionFactory.OnServiceDisconnected | demo_mojo/demo_mojo_child_process.cc:118-127 | the entry is erased, as in the runs above |
| RenderLoop.OnePendingTask | demo_skia/skia_canvas.cc:75-106 | after every step one render task is pending while drawing and none otherwise, and `need_redraw_` implies `is_drawing_` |
| RenderLoop.PassesApart | demo_skia/skia_canvas.cc:94-99 | any two passes start at least 16 ms apart for each pass between them |
| RenderLoop.PassesPerWindow | demo_skia/skia_canvas.cc:94-99 | a window of T ms holds at most T / 16 + 1 passes |
| RenderLoop.QuietAfterUp | demo_skia/skia_canvas.cc:64-93 | after an up and until the next down nothing is drawn; at most one tick runs, due within 16 ms, and leaves the loop idle |
| RenderLoop.StrokeOfRun | demo_skia/skia_canvas.cc:50-73 | in every run the path is where the touches since the latest down went, the touch times are those since it, and a redraw is wanted exactly while the finger is down |
| RenderLoop.EachPass | demo_skia/skia_canvas.cc:85-132 | every tick while the finger is down and every down that finds the loop idle draws one pass, of the current stroke and a circle at each of its points; no other step draws |
| RenderLoop.FrameTimeIsSpan | demo_skia/skia_canvas.cc:101-106 | when a frame is counted, `total_frame_time_` is last minus first drawing time since the latest down if and only if no time passed at a wrap of the counter |
| RenderLoop.TimeLostAtAWrap | demo_skia/skia_canvas.cc:101-106 | a run, from a stroke held over a wrap of the counter, in which the total is not the span |
| RenderLoop.Telescope | demo_skia/skia_canvas.cc:101-106 | the sum of counted gaps is at most the span, and equals it exactly when no time was lost |
| RenderLoop.PaintAndSwapFit | demo_skia/skia_canvas.cc:108-132 | paint and swap totals never exceed the time since the latest down |
| RenderLoop.FramesReported | demo_skia/skia_canvas.cc:64-71 | every up of every run adds one report: the passes since the latest down modulo 2^32, or none if the loop is idle, the touches since it modulo 2^32, the time between neighbouring passes, the paint and swap times of these passes, and the time since the down |
| RenderLoop.DivisionFails | demo_skia/skia_canvas.cc:135-144 | an up divides by zero if and only if it finds the loop idle, or no pass (modulo 2^32) was made since the latest down, or the touch count has just wrapped to zero |
| RenderLoop.StrokePasses | demo_skia/skia_canvas.cc:50-73 | from a down to the first up the loop draws, and it has made one pass if the down found it idle plus one for each tick since |
| RenderLoop.TapWhileDrawing | demo_skia/skia_canvas.cc:135-142 | a down that finds the loop drawing and an up before the next tick divide by zero |
| RenderLoop.QuickDoubleTap | demo_skia/skia_canvas.cc:135-142 | a run from the start whose second report divides by zero while the loop draws |
| RenderLoop.TwoFingers | demo_skia/skia_canvas.cc:64-71 | two downs, an up, the tick that stops the loop, an up: a run whose second report divides by zero with the loop idle |
| RenderLoop.AverageRoundsOnce | demo_skia/skia_canvas.cc:138-143 | an average in milliseconds is the total over 1000 times the count, rounded toward zero once, and there is none exactly for a count of zero |
| RenderLoop.SkiaCanvas.OnTouchOnRenderThread | demo_skia/skia_canvas.cc:50-73 | the touch step of the runs above |
| RenderLoop.SkiaCanvas.SetNeedsRedraw | demo_skia/skia_canvas.cc:75-83 | the flag is set; if not drawing, a pass runs now or, off the render thread, is posted |
| RenderLoop.SkiaCanvas.OnRenderOnRenderThread | demo_skia/skia_canvas.cc:85-133 | the tick step of the runs above: stop, or post the next tick and draw |
| RenderLoop.SkiaCanvas.DrawCircles | demo_skia/skia_canvas.cc:116-121 | a circle at every point of the path, in order |
| RenderLoop.SkiaCanvas.ShowFrameRateOnRenderThread | demo_skia/skia_canvas.cc:135-148 | the four averages shown, and that three fail exactly for a frame count of zero and the fourth for a touch count of zero |
| ObjectWrap.AssertsHold | demo_mojo_v8/v8/node_object_wrap.h:92-124 | in every run with balanced references no assert fails and no deleted wrapper is used |
| ObjectWrap.WeakIffUnreferenced | demo_mojo_v8/v8/node_object_wrap.h:84-113 | a live wrapper's `refs_` is the references outstanding, its handle is weak exactly at zero, and a wrapper with references is alive |
| ObjectWrap.DeletedOnce | demo_mojo_v8/v8/node_object_wrap.h:118-124 | every wrapper made is alive or was deleted exactly once |
| ObjectWrap.Bijection | demo_mojo_v8/v8/node_object_wrap.h:47-81 | live wrappers and the live objects they were built for name each other |
| ObjectWrap.LivesWithItsObject | demo_mojo_v8/v8/node_object_wrap.h:118-124 | the wrapper built for an object lives exactly until the object is collected, and is deleted then, once |
| ObjectWrap.Lifetime | demo_mojo_v8/renderer/demo_v8_binding.cc:58-91 | a run in which an object is wrapped, greets, and is collected, and its wrapper with it |
| ObjectWrap.HistoryOfRun | demo_mojo_v8/renderer/demo_v8_binding.cc:58-91 | the objects there are those made and not collected, the wrappers those of the V8New calls, and the hello calls those that were made |
| ObjectWrap.HelloReachesItsBinding | demo_mojo_v8/renderer/demo_v8_binding.cc:58-91 | every call of hello reaches the wrapper built for its object |
| ObjectWrap.Native.Wrap | demo_mojo_v8/v8/node_object_wrap.h:75-81 | object and wrapper name each other and the handle is weak |
| ObjectWrap.Native.Ref | demo_mojo_v8/v8/node_object_wrap.h:92-96 | one more reference, the handle strong |
| ObjectWrap.Native.Unref | demo_mojo_v8/v8/node_object_wrap.h:107-113 | one reference less, the handle weak at zero |
| ObjectWrap.Native.WeakCallback | demo_mojo_v8/v8/node_object_wrap.h:118-124 | the handle is empty before the destructor looks at it |
| ObjectWrap.Native.Destroy | demo_mojo_v8/v8/node_object_wrap.h:38-43 | the handle is empty and not weak, unless it was empty before |
| ObjectWrap.V8NewOn | demo_mojo_v8/renderer/demo_v8_binding.cc:58-71 | a construct call gives a fresh wrapper, and it and its object name each other; no reference is held; any other call throws |
| ObjectWrap.V8HelloOn | demo_mojo_v8/renderer/demo_v8_binding.cc:73-95 | a single string reaches the wrapper of the object it is called on; any other arguments throw |
| ObjectWrap.TwoBindings | demo_mojo_v8/renderer/demo_v8_binding.cc:58-95 | of two objects built, what is said to one reaches its own wrapper and not the other's |
| ShellViews.ShellManager.Drive | demo_shell/android/java/src/org/chromium/demo_shell/ShellManager.java:53-153 | after any sequence of calls: the shell shown is the one last created and not since removed, it is the only child; the manager's render view has a parent if and only if a shell is shown and setWindow has not been called since it came up, and that parent is the active shell, which holds nothing else; no view with a parent was ever added, and no shell was ever told that it shows no contents |
| ShellViews.AttachedIffShown | demo_shell/android/java/src/org/chromium/demo_shell/ShellManager.java:53-153 | the manager's render view is on display if and only if a shell is shown and no setWindow call came while it was |
| ShellViews.SecondWindowDetaches | demo_shell/android/java/src/org/chromium/demo_shell/ShellManager.java:53-58 | a second setWindow while a shell is shown leaves that shell with the old render view |
| ShellViews.ShellManager.Perform | demo_shell/android/java/src/org/chromium/demo_shell/ShellManager.java:92-153 | one call of any kind keeps all of this, and handing contents to a shell succeeds if and only if it is the one shown |
| ShellViews.ShellManager.ContentsForHiddenShell | demo_shell/android/java/src/org/chromium/demo_shell/Shell.java:199-199 | create, create, contents for the first shell: a run that ends in the null dereference |
| ShellViews.ShellManager.CreateShell | demo_shell/android/java/src/org/chromium/demo_shell/ShellManager.java:101-116 | the new shell is the active one and has been told nothing, the one before is detached, the render view and what it shows are kept, or one is made; no other shell's contents are touched |
| ShellViews.ShellManager.LaunchShell | demo_shell/android/java/src/org/chromium/demo_shell/ShellManager.java:92-97 | the same, and the native shell of the one shown before, if it still has one, is asked to close |
| ShellViews.ShellManager.ShowShell | demo_shell/android/java/src/org/chromium/demo_shell/ShellManager.java:118-128 | with no shell active: the shell becomes the one child, holding the render view; if it has contents they are shown in it and told so, and if not nobody is told anything and the render view shows what it did |
| ShellViews.ShellManager.RemoveShell | demo_shell/android/java/src/org/chromium/demo_shell/ShellManager.java:131-136 | the shell is detached and gives up the render view, and no contents are touched; removing a shell that is not active changes nothing |
| ShellViews.ShellManager.DestroyManager | demo_shell/android/java/src/org/chromium/demo_shell/ShellManager.java:144-153 | no shell, no render view, the old one destroyed without a parent; a second call changes nothing |
| ShellViews.ShellManager.SetWindow | demo_shell/android/java/src/org/chromium/demo_shell/ShellManager.java:53-58 | the window, and a fresh render view without a parent; a shell that is shown keeps the old one |
| ShellViews.Shell.SetContentViewRenderView | demo_shell/android/java/src/org/chromium/demo_shell/Shell.java:77-91 | the view is added to the holder, or the one held is taken out; adding demands a view without a parent |
| ShellViews.Shell.Initialize | demo_shell/android/java/src/org/chromium/demo_shell/Shell.java:99-102 | the native shell and the window are set |
| ShellViews.Shell.OnNativeDestroyed | demo_shell/android/java/src/org/chromium/demo_shell/Shell.java:113-118 | window, native shell and contents are cleared |
| ShellViews.Shell.InitFromNativeTabContents | demo_shell/android/java/src/org/chromium/demo_shell/Shell.java:181-200 | the contents are set and added to the views, the old ones lose their native side, and the new ones are told they are shown if the shell has a parent; the render view, if there is one, shows them, and without one the call fails after the rest is done |
| TraceWriter.FileIsLog | demo_android/demo_android_skia/cpp/skia_canvas.cc:33-77 | at every step boundary the file is the append-only log exactly when every write took all its bytes; then the offset is its length |
| TraceWriter.LogOfRun | demo_android/demo_android_skia/cpp/skia_canvas.cc:41-71 | what the writes of a run concatenate to: "[", every chunk ended by ",\n", every finished flush by "\n" |
| TraceWriter.DisabledIffFlagged | demo_android/demo_android_skia/cpp/skia_canvas.cc:54-75 | with any number of canvases tracing is off exactly while `is_flushing_` is set |
| TraceWriter.DisabledIffInProgress | demo_android/demo_android_skia/cpp/skia_canvas.cc:54-75 | with any number of canvases, tracing is off exactly while a flush is in progress, if and only if it is not the case that a flush ended while another was in progress and none has begun since |
| TraceWriter.OneFlushAtATime | demo_android/demo_android_skia/cpp/skia_canvas.cc:54-75 | with one canvas at most one flush is in progress, and tracing is off exactly while one is |
| TraceWriter.TwoCanvasesOverlap | demo_android/demo_android_skia/cpp/skia_canvas.cc:55-58 | a run in which two canvases both find the flag clear, and tracing is on while a flush is in progress |
| TraceWriter.FullWritesAppend | demo_android/demo_android_skia/cpp/skia_canvas.cc:66-68 | a full write after full writes only appends, so no write overlaps another |
| TraceWriter.WriteTracks | demo_android/demo_android_skia/cpp/skia_canvas.cc:66-68 | after a write that fell short the offset is behind the log for good |
| TraceWriter.FailedWriteCorrupts | demo_android/demo_android_skia/cpp/skia_canvas.cc:66-68 | a run in which one failed write makes the next destroy the opening bracket |
| TraceWriter.Writer.Open | demo_android/demo_android_skia/cpp/skia_canvas.cc:33-44 | the first step of the runs above |
| TraceWriter.Writer.CheckFlag | demo_android/demo_android_skia/cpp/skia_canvas.cc:56-57 | the first step of a flush: go on if the flag is clear |
| TraceWriter.Writer.BeginFlush | demo_android/demo_android_skia/cpp/skia_canvas.cc:58-62 | the second: set the flag, turn tracing off, start the flush |
| TraceWriter.Writer.Flush | demo_android/demo_android_skia/cpp/skia_canvas.cc:55-62 | both in a row: nothing while the flag is set |
| TraceWriter.Writer.OnChunk | demo_android/demo_android_skia/cpp/skia_canvas.cc:63-76 | the callback step of the runs above |

## Left out

- OnePhase: the phase between taking a return and dropping the id, inside one client task, is a fourth phase here; between tasks there are only the exported and released ones (BetweenTasks).
- RemoveShell: is called with shells of this manager only, so a view of another parent is not passed to it.
- InitFromNativeTabContents: the contents view is a number, made fresh by the source, so its own parent is not modelled.
- Drive: starts with a setWindow; createShell before any, which would make a render view without a window, is not part of the runs.
- WeakCallback: is the only deletion; a wrapper deleted explicitly by native code is not modelled.
- Overflow of the 32-bit signed ids, of `refs_` and of `g_write_offset` is not modelled; the unsigned frame counter, touch counter and frame token do wrap.
- The release callbacks' work (`DestroySharedImage`), and the choice between shared-memory and GPU resources, which make the same provider calls.
- The copy request of a root frame and the image file it writes.
- Quad geometry, transforms, opacity and pixels; a bitmap is known by the path stroked on it, a circle by its colour.
- What happens when V8Hello or V8New throw a TypeError, which touches no wrapper.
- References between JS objects: `roots` is the set JS can reach, and which objects leave it is left open.
- The begin-frame and ack of `demo_viz/demo_viz_gui.cc`, which ignore returned resources, so nothing about leaks is claimed there.
- The five-second delay that orders `InitVizHost` in `demo_viz/demo_viz_gui_gpu.cc`: the proof from post order does not carry over.
- `demo_viz/demo_viz_layer_offscreen.cc` repeats the viz classes; the Android render loop repeats the one in demo_skia without circles and posts `FlushTrace` a second after an up; `node_version.h` repeats ObjectWrap.
- What a division of a time by zero yields is left to the library; the model records that there is no quotient.
- OnChunk: is one step. With one canvas all callbacks run on one thread; with several, two callbacks can interleave their reads and updates of `g_write_offset`, and FileIsLog does not speak of that.
- Process launch, invitations, and the death of the parent or the service in the broker.
- `closeShell` is empty on the native side, so nothing is claimed about native shells being freed.
- That the last touch point is painted: an up stops the redraw before the next tick, so it is not.
- The other demos, which are straight-line tours or fixed scripts, and all of Skia, EGL, X11 and JNI.
