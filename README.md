# CameraDevice in Dafny

This project models `CameraDevice`, the capture front end of an IP-camera
server. A `CameraDevice` owns the following FFmpeg objects:

- a V4L2/DirectShow/AVFoundation capture device (the format context);
- the decoder for its first video stream;
- two reusable frames (raw and watermarked) and a reusable packet;
- a filter graph. Its `buffer` source feeds a `drawtext` chain, which
  stamps the local date, the Chinese weekday name and the time onto each
  frame, and the chain drains into a `buffersink`.

There are three operations:

- `Open` acquires all of these or none of them. A failed
  avformat_alloc_context returns at once (lines 116-118). Every later
  failure jumps to one cleanup chain. The model sends the first case
  through its rollback too, with every slot NULL. The rollback then frees
  nothing, so the resulting state is the one the direct return leaves
  (`Camera.CameraDevice.Attempt` states that `live` and the free log are
  unchanged).
- `Capture` pulls one frame through decoder and graph and returns an
  independent clone.
- `Close` releases everything exactly once.

Each FFmpeg call is opaque, so whether it succeeds is an input.
`Camera.OpenEnv` (for Open) and `Camera.CaptureEnv` (for Capture) carry
one boolean per call, in call order. `OpenEnv` also carries the codec type
of each probed stream. A pointer is an `Ownership.Handle`: a
kind plus a number that no other allocation shares.

The object is a class with the source's own fields:

- `isReady`;
- the six owned slots: graph, decoder, format context, packet, raw frame,
  watermark frame;
- the two filter node pointers, which the graph owns;
- one flag per reusable buffer, saying whether it holds a data reference.

It also has ghost bookkeeping:

- `live` is the set of library allocations the process still holds, so a
  leak is a handle left in `live`.
- `released` is the order in which the object freed its slots.
- `history` is the sequence of calls that reached the flag.
- `deviceOptions`, `sourceArgs` and `filterDescription` are the strings
  last handed to avformat_open_input, to the source node and to the graph
  parser. `videoStream` is the stream last passed to
  avcodec_parameters_to_context.
- `droppedPacketRefs` counts the packet data references lost by
  av_read_frame (see below).

`Valid()` is the class invariant that every operation keeps:

- a ready device holds all six slots, each a live allocation, and both node
  pointers are non-NULL (the nodes belong to the graph, so they are never
  in `live`);
- a device that is not ready has every slot NULL;
- only a non-NULL buffer holds data;
- the flag equals the fold of the history (`Lifecycle.Tracks`).

The pure parts are functions with lemmas:

- the `%d` text written by `snprintf`, and a parser for it (`Decimal`);
- the options dictionary and the buffer-source argument string
  (`DeviceOptions`, with split/join on separators in `Text`);
- `GenerateLocalDateTimeString` (`Overlay`);
- the first-video-stream search (`Streams`);
- the lifecycle as a history (`Lifecycle`).

The allocation bookkeeping is in `Ownership`.

Where the code departs from the evident design of the device, the model follows the code:

- **Rollback order.** A leak-free rollback would free in reverse order of
  acquisition and release everything acquired. The cleanup chain frees in the fixed
  order graph, decoder, format context, packet, raw frame, watermark frame.
  It never frees the two `AVFilterInOut` end points. An Open that gives up
  after allocating an end point but before `avfilter_graph_parse` takes
  them over leaves them allocated. The model proves exactly when this
  happens (`Camera.LeaksInOut`, `Camera.CameraDevice.OpenWith`).
- **Stale node pointers.** `filterContextSrc_` and `filterContextSink_` are
  never reset by the cleanup chain or by `Close`. The model keeps them too,
  and `Close` states that they are left as they were.
- **Packet references on retry.** For the reusable buffers to be ready for
  the next call, each Capture would release the references they hold. The
  code does this only after a frame has been delivered (lines 380-382). The early returns at lines 358, 364,
  370 and 375 leave the packet holding the reference that av_read_frame put there.
  The next Capture's av_read_frame expects a blank packet and overwrites it
  without unreferencing it, so that reference is lost. This happens on the
  ordinary path where the decoder needs more input.
  `Camera.CameraDevice.Capture` counts these references in
  `droppedPacketRefs`, and `Camera.CameraDevice.CaptureAfterEarlyReturn`
  shows a pair of calls that loses one.
- **Closed state.** There is no separate "Closed" state. The code has only
  the flag, so Close on a device that is not ready is a no-op. An Open
  rejected because the device is ready is also a no-op.

## Model

| member | source | states |
|---|---|---|
| Decimal.Natural | CameraDevice.cpp:126 | `%d` of a non-negative value is a non-empty digit string with no leading zero unless the value is 0 |
| Decimal.Signed | CameraDevice.cpp:126-128 | `%d` of any int: a leading minus exactly for negative values, digits elsewhere |
| Decimal.NaturalRoundTrip | CameraDevice.cpp:126-128 | parsing the digits of a natural number gives the number back |
| Decimal.SignedRoundTrip | CameraDevice.cpp:126-128 | parsing `%d` text gives the original int back, so the device sees the caller's numbers |
| Decimal.SignedInjective | CameraDevice.cpp:126-128 | distinct ints have distinct `%d` text |
| Decimal.Int32Length | CameraDevice.cpp:112 | the `%d` text of a C int is at most 11 characters |
| DeviceOptions.DictSet | CameraDevice.cpp:127-131 | `av_dict_set` with flags 0 adds the key or replaces its value and keeps every other entry |
| DeviceOptions.CaptureOptions | CameraDevice.cpp:126-131 | the dictionary the four av_dict_set calls build has exactly the keys framerate, video_size, pixel_format and rtbufsize; CaptureOptionsContents states the values |
| DeviceOptions.SourceArgs | CameraDevice.cpp:219-222 | the snprintf of the buffer-source arguments starts with the `video_size=` field; SourceArgsRoundTrip and SourceArgsFit state the rest of its content and its length |
| DeviceOptions.CaptureOptionsContents | CameraDevice.cpp:126-131 | the options dictionary has exactly the keys framerate, video_size, pixel_format, rtbufsize; framerate and video_size parse back to fps and width×height, the other two are `yuyv422` and `2000M`, and each `%d` value fits the 512-byte buffer |
| DeviceOptions.VideoSizeRoundTrip | CameraDevice.cpp:128-129 | the `%dx%d` text parses back to (width, height) |
| DeviceOptions.PairRoundTrip | CameraDevice.cpp:219-222 | two ints around a non-digit separator parse back to the pair |
| DeviceOptions.FieldRoundTrip | CameraDevice.cpp:219-222 | a `key=value` field reads back its value under its key |
| DeviceOptions.SplitSourceArgs | CameraDevice.cpp:219-222 | the buffer-source argument string splits on `:` into its four `key=value` fields |
| DeviceOptions.SourceArgsRoundTrip | CameraDevice.cpp:219-222 | the buffer-source arguments parse back to video size width×height, pixel format YUYV422 (1), time base 1/fps and pixel aspect 1/1 |
| DeviceOptions.SourceArgsFit | CameraDevice.cpp:219-222 | for every C int width, height and fps the argument string is shorter than `args[512]`, so snprintf never truncates it |
| Text.IndexOf | CameraDevice.cpp:219-222 | the index of the first occurrence of a character, or the length when it does not occur |
| Text.SplitJoin | CameraDevice.cpp:219-222 | splitting the join of separator-free parts gives the parts back |
| Text.JoinSplit | CameraDevice.cpp:219-222 | joining the split of a string gives the string back |
| Overlay.WeekdayName | CameraDevice.cpp:43-66 | `tm_wday` 0..6 maps to a three-character name starting with 星期; any other value leaves the name empty |
| Overlay.WeekdayNameInjective | CameraDevice.cpp:43-66 | the seven weekday names are pairwise distinct |
| Overlay.PrefixLength | CameraDevice.cpp:35-41 | the Windows, Apple and Linux drawtext prefixes have three different non-zero lengths; with no platform branch the prefix is empty |
| Overlay.LocalDateTimeString | CameraDevice.cpp:26-72 | GenerateLocalDateTimeString for a platform branch and a weekday ends in the `IPC` trailer after the platform prefix; LocalDateTimeLayout and LocalDateTimeInjective state its full layout |
| Overlay.LocalDateTimeLayout | CameraDevice.cpp:26-72 | the description is the platform prefix (ending in the opened text quote), the date template, the weekday name, a space, the time template and `IPC`, and its last character is not a quote |
| Overlay.LocalDateTimeInjective | CameraDevice.cpp:26-72 | the description determines both the platform and the weekday |
| Streams.FirstVideoFromSpec | CameraDevice.cpp:144-149 | the search from index k returns -1 exactly when no stream from k on is video, and otherwise the lowest video index at or after k |
| Streams.FirstVideoSpec | CameraDevice.cpp:144-153 | no video index is found exactly when no stream is video; a found index is the lowest video stream |
| Streams.FindVideoStream | CameraDevice.cpp:144-149 | the loop with its `break` returns the first video index, or -1 |
| Lifecycle.Extend | CameraDevice.cpp:100-102 | one more call updates the flag by one step and is legal exactly when allowed in the current state |
| Lifecycle.Record | CameraDevice.cpp:263 | recording an allowed call keeps the flag in step with the history |
| Lifecycle.ReadyIffOpenNotClosed | CameraDevice.cpp:263 | the device is ready exactly when a successful Open has not been followed by a Close |
| Lifecycle.LegalBalance | CameraDevice.cpp:304-305 | in every legal history, successful Opens equal Closes plus one while ready |
| Ownership.LedgerReleased | CameraDevice.cpp:266-299 | freeing the slots of a partly opened device leaves what was held before Open plus the leaked end points |
| Ownership.AccountSlot | CameraDevice.cpp:115 | storing a new allocation in an empty slot of its kind keeps the ledger |
| Ownership.AccountEndPoint | CameraDevice.cpp:212-213 | a new end point held in a local is recorded as at risk of leaking |
| Ownership.AccountSurrenderedContext | CameraDevice.cpp:132-135 | when avformat_open_input fails and frees the context, the ledger has no slot left |
| Ownership.AccountParsed | CameraDevice.cpp:245-246 | avfilter_graph_parse taking both end points over leaves nothing at risk |
| Ownership.AccountNode | CameraDevice.cpp:225-226 | a node owned by the graph does not change what the process holds |
| Ownership.ReleasedFresh | CameraDevice.cpp:266-299 | the cleanup keeps the old log as a prefix and frees nothing that was held before Open |
| Ownership.SettledAdd | CameraDevice.cpp:378 | a new allocation the device does not keep leaves the device at rest and was not held before |
| Camera.CameraDevice.constructor | CameraDevice.cpp:74-90 | a new device is not ready, every pointer is NULL and nothing is held |
| Camera.CameraDevice.ReleaseSlots | CameraDevice.cpp:266-297 | each non-NULL slot is freed and set to NULL in the order graph, decoder, format context, packet, raw frame, watermark frame |
| Camera.CameraDevice.OpenInput | CameraDevice.cpp:120-136 | succeeds exactly when the input format is found and the device opens; the options are handed over once the format is known; the format context stays held unless avformat_open_input fails, which leaves it NULL |
| Camera.CameraDevice.OpenDecoder | CameraDevice.cpp:139-177 | succeeds exactly when the probe succeeds, some stream is video and the decoder opens; the decoder context is held exactly when the probe succeeds, some stream is video and avcodec_alloc_context3 succeeds, and then it is configured from the first video stream |
| Camera.CameraDevice.AllocFrames | CameraDevice.cpp:180-185 | both frames are allocated before either is checked: each slot is held exactly when its own av_frame_alloc succeeds, and the step succeeds exactly when both do |
| Camera.CameraDevice.AllocGraph | CameraDevice.cpp:199-210 | succeeds exactly when the graph is allocated and both buffer filters are found; the graph is held exactly when avfilter_graph_alloc succeeds, so a failed filter lookup leaves it held for the cleanup chain |
| Camera.CameraDevice.AllocEndPoints | CameraDevice.cpp:212-217 | each end point is allocated when its call succeeds; they are distinct, and both are held only in locals, at risk of leaking |
| Camera.CameraDevice.CreateNodes | CameraDevice.cpp:219-230 | creates the source node from the argument string, then the sink; succeeds exactly when both are created; a failed source leaves the source NULL and the sink untouched, and a failed sink leaves the sink NULL |
| Camera.CameraDevice.ParseGraph | CameraDevice.cpp:245-254 | the drawtext description goes to the parser, which takes both end points over; succeeds exactly when parse and configure both do |
| Camera.CameraDevice.LinkGraph | CameraDevice.cpp:219-254 | the end points leak exactly when a node cannot be created; succeeds exactly when nodes, parse and configure all do |
| Camera.CameraDevice.BuildGraph | CameraDevice.cpp:199-254 | succeeds exactly when every graph call does; an end point is left behind exactly in the cases `GraphLeaksInOut` names |
| Camera.CameraDevice.AllocPacket | CameraDevice.cpp:257-261 | succeeds exactly when the packet is allocated, and the packet stays NULL otherwise |
| Camera.CameraDevice.AcquireDecoder | CameraDevice.cpp:120-185 | input, decoder and frames in order, stopping at the first failure: no decoder or frame after a failed input, no frame after a failed decoder; succeeds exactly when `DecodingReady` holds |
| Camera.CameraDevice.AcquireFilter | CameraDevice.cpp:199-261 | graph then packet: no packet unless the graph is built; succeeds exactly when the graph is built and the packet allocated, and leaks only end points |
| Camera.CameraDevice.Acquire | CameraDevice.cpp:115-261 | every acquisition of Open in order, stopping at the first failure (a failed avformat_alloc_context returns directly, every later failure jumps to cleanup): nothing held after a failed avformat_alloc_context, no graph or packet before decoding is ready, no packet before the graph is built; succeeds exactly when `OpenSucceeds`, leaks exactly when `LeaksInOut` |
| Camera.CameraDevice.Rollback | CameraDevice.cpp:266-299 | after the cleanup chain the device is valid, not ready and all NULL; the process holds what it held before Open plus the leaked end points; only handles acquired by this Open are freed, and nothing at all when every slot was NULL |
| Camera.CameraDevice.Commit | CameraDevice.cpp:263-264 | a fully acquired device becomes ready, holding all six slots on top of what the process held before |
| Camera.CameraDevice.OpenWith | CameraDevice.cpp:97-300 | Open of a ready device returns false and changes nothing; otherwise true exactly when every call succeeds and some stream is video. Success: ready, all six slots held, nothing freed. Failure: not ready, every slot NULL, only new end points left behind, exactly when `LeaksInOut`, and only this Open's handles freed. A successful Open leaves the packet and both frames without data, and no Open changes the count of lost packet references |
| Camera.CameraDevice.Attempt | CameraDevice.cpp:120-299 | for a device that is not ready: true exactly when `OpenSucceeds`; success makes it ready holding all six slots on top of what was live before, with empty buffers and nothing freed; failure leaves it not ready with every slot NULL, only new end points left behind exactly when `LeaksInOut`, and only this Open's handles freed; a failed avformat_alloc_context leaves what is live and what was freed unchanged, as its direct return does |
| Camera.CameraDevice.Open | CameraDevice.cpp:97-300 | the same contract as OpenWith, with the options map, argument string and drawtext description built from width, height, fps, platform and weekday |
| Camera.CameraDevice.TearDown | CameraDevice.cpp:304-337 | the ready branch of Close: the flag cleared, every slot freed in release order, the device valid and at rest |
| Camera.CameraDevice.Close | CameraDevice.cpp:302-339 | closing a ready device clears the flag and frees every slot in release order; closing a device that is not ready changes nothing, so a second Close is a no-op; the node pointers are left as they were and no packet reference is lost |
| Camera.CameraDevice.Pump | CameraDevice.cpp:349-376 | reports whether all five pipeline steps succeed; each buffer's data flag is what the last call reaching it left, and a reference the packet still held is counted as lost |
| Camera.CameraDevice.Deliver | CameraDevice.cpp:378-384 | returns a new frame exactly when the clone succeeds, not previously held, and always unreferences the three buffers |
| Camera.CameraDevice.Capture | CameraDevice.cpp:341-385 | NULL with nothing changed when not ready; otherwise a frame exactly when all five steps and the clone succeed, a fresh allocation the caller owns; the flag and the six slots never change; a packet reference left by an earlier early return is counted as lost |
| Camera.CameraDevice.CaptureAfterEarlyReturn | CameraDevice.cpp:349-382 | a Capture that reads a packet and then returns early, followed by any Capture, loses at least one packet reference |
| Camera.CameraDevice.CaptureAfterOpen | CameraDevice.cpp:97-382 | an Open of a device that is not ready followed by a Capture: the Open succeeds exactly when `OpenSucceeds`, a successful one leaves the buffers empty so the Capture loses no packet reference, and a frame is delivered exactly when the Open succeeded and the Capture delivers |

## Left out

- main.cpp and every other file of the server are not part of this model. Only CameraDevice.cpp is modelled.
- FFmpeg is opaque. Each call's success is an input, and what a call does to its arguments is taken from FFmpeg's documented contracts:
  - avformat_open_input frees the context when it fails;
  - avfilter_graph_create_filter sets its node to NULL when it fails;
  - avfilter_graph_parse takes both end points over;
  - av_read_frame leaves the packet blank when it fails, and overwrites a packet that still holds a reference without unreferencing it;
  - avcodec_receive_frame unreferences the frame first.
- Pixel data, timestamps, time bases, `av_opt_set_int_list` on the sink, the end points' names and pad indices, and the frames' format/width/height fields are left out. They do not affect ownership or control flow.
- The contents of the clone that Capture returns are left out. Only the clone's identity is modelled: a fresh allocation owned by the caller. The effect of `AV_BUFFERSRC_FLAG_KEEP_REF` is modelled: the raw frame keeps its data after av_buffersrc_add_frame_flags.
- `time()` and `localtime()` are replaced by the weekday `tm_wday`, the only part of their result in the string. The `#ifdef` platform choice is a parameter.
- The format and device name strings are left out; only whether the lookup and the open succeed matters.
- The register calls in the constructor, logging, and `LOG(info) << args` are left out. They are process-wide set-up or output and change no state of the object.
- The destructor is left out. Dafny has no destructors; it only calls Close.
- `av_free(params)` is left out: it frees a pointer that is always NULL.
- `s_filterDesc` is left out because nothing in the file uses it.
- The options dictionary `options` is never freed by the source. The model does not track it as an allocation.
- Strings are sequences of Unicode code points. The source streams UTF-8 bytes, so lengths of the weekday names are counted in characters, not bytes.
- Concurrency is left out: the object has no locking, and the model assumes calls are serialized.
- Camera.CameraDevice.Open: its contract does not restate the options map, argument string, description or chosen stream index, because stating them at this level costs too much to verify. OpenInput, OpenDecoder, CreateNodes and ParseGraph each state the value they hand to FFmpeg, and the lemmas of `DeviceOptions` and `Overlay` state what those strings contain.
- Camera.CameraDevice.OpenWith: its contract does not restate the handed-over strings either, for the same reason.
- Camera.CameraDevice.Attempt: the same holds for the not-ready body of Open. Neither it nor the composers it calls (Camera.CameraDevice.Acquire, Camera.CameraDevice.AcquireDecoder, Camera.CameraDevice.AcquireFilter, Camera.CameraDevice.BuildGraph, Camera.CameraDevice.LinkGraph) restates the options map, argument string, description or stream index, for the same reason.
- Integer width: width, height and fps are C ints (`Decimal.Int32`). The model does no arithmetic on them, so no wrap-around arises.
