/**
 * CameraDevice (CameraDevice.cpp): a capture device, its decoder, the
 * watermark filter graph and the reusable frame and packet buffers, owned by
 * one object that opens them all or none, hands out watermarked frames one at
 * a time, and releases them on Close.
 *
 * Each FFmpeg call is an opaque step: whether it succeeds is read from the
 * environment records OpenEnv and CaptureEnv, and a pointer it returns is a
 * Handle with a number no other allocation shares. The ghost field `live` is
 * the set of library allocations the process still holds, so a leak shows as
 * a handle left in `live`, and `released` is the order in which this object
 * freed its slots.
 */
module Camera {
  import opened Optional
  import opened Ownership
  import opened Decimal
  import DeviceOptions
  import Overlay
  import Streams
  import Lifecycle

  /** Whether each library call made by Open succeeds, in the order Open makes them. */
  datatype OpenEnv = OpenEnv(
    allocFormatContext: bool,            // avformat_alloc_context
    findInputFormat: bool,               // av_find_input_format(format)
    openInput: bool,                     // avformat_open_input(device)
    findStreamInfo: bool,                // avformat_find_stream_info
    streams: seq<Streams.MediaType>,     // codec type of each probed stream
    allocCodecContext: bool,             // avcodec_alloc_context3
    parametersToContext: bool,           // avcodec_parameters_to_context
    findDecoder: bool,                   // avcodec_find_decoder
    openCodec: bool,                     // avcodec_open2
    allocFrame: bool,                    // av_frame_alloc, raw frame
    allocWatermarkFrame: bool,           // av_frame_alloc, watermark frame
    allocGraph: bool,                    // avfilter_graph_alloc
    findBufferFilter: bool,              // avfilter_get_by_name("buffer")
    findBufferSinkFilter: bool,          // avfilter_get_by_name("buffersink")
    allocInOutIn: bool,                  // avfilter_inout_alloc, sink end point
    allocInOutOut: bool,                 // avfilter_inout_alloc, source end point
    createSource: bool,                  // avfilter_graph_create_filter "in"
    createSink: bool,                    // avfilter_graph_create_filter "out"
    parseGraph: bool,                    // avfilter_graph_parse
    configGraph: bool,                   // avfilter_graph_config
    allocPacket: bool)                   // av_packet_alloc

  /** Lines 120-136: the input format is known and the device opens. */
  predicate InputOpens(env: OpenEnv) {
    env.findInputFormat && env.openInput
  }

  /** Lines 139-177: the streams are probed, one of them is video, and its decoder opens. */
  predicate DecoderOpens(env: OpenEnv) {
    && env.findStreamInfo && Streams.FirstVideo(env.streams) != -1
    && env.allocCodecContext && env.parametersToContext && env.findDecoder && env.openCodec
  }

  /** Lines 180-185: both frames are allocated. */
  predicate FramesAllocated(env: OpenEnv) {
    env.allocFrame && env.allocWatermarkFrame
  }

  /** Lines 120-185: everything up to the filter graph. */
  predicate DecodingReady(env: OpenEnv) {
    InputOpens(env) && DecoderOpens(env) && FramesAllocated(env)
  }

  /** Lines 199-210: the graph is allocated and both buffer filters exist. */
  predicate GraphAllocated(env: OpenEnv) {
    env.allocGraph && env.findBufferFilter && env.findBufferSinkFilter
  }

  /** Lines 219-230: both nodes are created. */
  predicate NodesCreated(env: OpenEnv) {
    env.createSource && env.createSink
  }

  /** Lines 199-254: the whole filter graph is built and configured. */
  predicate GraphBuilt(env: OpenEnv) {
    && GraphAllocated(env) && env.allocInOutIn && env.allocInOutOut && NodesCreated(env)
    && env.parseGraph && env.configGraph
  }

  /** Open succeeds exactly when every call succeeds and some stream is video. */
  predicate OpenSucceeds(env: OpenEnv) {
    env.allocFormatContext && DecodingReady(env) && GraphBuilt(env) && env.allocPacket
  }

  /** Open gets as far as building the filter graph. */
  predicate ReachesGraph(env: OpenEnv) {
    env.allocFormatContext && DecodingReady(env)
  }

  /**
   * Building the graph leaks a filter end point: one was allocated and the
   * build gave up before avfilter_graph_parse, which would have taken both over.
   */
  predicate GraphLeaksInOut(env: OpenEnv) {
    && GraphAllocated(env)
    && (env.allocInOutIn || env.allocInOutOut)
    && !(env.allocInOutIn && env.allocInOutOut && NodesCreated(env))
  }

  /** A failing Open leaks a filter end point. */
  predicate LeaksInOut(env: OpenEnv) {
    ReachesGraph(env) && GraphLeaksInOut(env)
  }

  /** Whether each library call made by Capture succeeds. */
  datatype CaptureEnv = CaptureEnv(
    readFrame: bool,      // av_read_frame
    sendPacket: bool,     // avcodec_send_packet
    receiveFrame: bool,   // avcodec_receive_frame
    addFrame: bool,       // av_buffersrc_add_frame_flags
    getFrame: bool,       // av_buffersink_get_frame
    cloneFrame: bool)     // av_frame_clone

  /** The five pipeline steps succeed, so Capture reaches the clone and the unreferencing. */
  predicate Drains(env: CaptureEnv) {
    env.readFrame && env.sendPacket && env.receiveFrame && env.addFrame && env.getFrame
  }

  predicate Delivers(env: CaptureEnv) {
    Drains(env) && env.cloneFrame
  }

  class CameraDevice {
    var isReady: bool
    var formatContext: Option<Handle>
    var codecContext: Option<Handle>
    var frame: Option<Handle>
    var watermarkFrame: Option<Handle>
    var filterGraph: Option<Handle>
    var packet: Option<Handle>
    /** The graph's source and sink nodes: owned by the graph, never reset when it is freed. */
    var filterSource: Option<Handle>
    var filterSink: Option<Handle>
    /** Whether the packet and the two frames hold a data reference. */
    var packetHasData: bool
    var frameHasData: bool
    var watermarkHasData: bool
    /** The number the next allocation gets. */
    var nextId: nat

    ghost var live: set<Handle>
    ghost var released: seq<Handle>
    ghost var history: seq<Lifecycle.Event>
    /**
     * Packet data references lost: av_read_frame expects a blank packet and
     * overwrites one that still holds a reference without unreferencing it.
     */
    ghost var droppedPacketRefs: nat
    /** The strings last handed to avformat_open_input, to the source node and to the graph parser. */
    ghost var deviceOptions: map<string, string>
    ghost var sourceArgs: string
    ghost var filterDescription: string
    /** The stream last passed to avcodec_parameters_to_context. */
    ghost var videoStream: int

    ghost function Owned(): Slots
      reads this`filterGraph, this`codecContext, this`formatContext, this`packet, this`frame, this`watermarkFrame
    {
      Slots(filterGraph, codecContext, formatContext, packet, frame, watermarkFrame)
    }

    /** Every non-NULL slot points to a live allocation of its kind; only a non-NULL buffer holds data. */
    ghost predicate SlotsOwned()
      reads this`filterGraph, this`codecContext, this`formatContext, this`packet, this`frame, this`watermarkFrame
      reads this`live, this`packetHasData, this`frameHasData, this`watermarkHasData
    {
      SlotKinds(Owned()) && HeldIn(Owned(), live) && Backed(Owned(), packetHasData, frameHasData, watermarkHasData)
    }

    /** Ready with every slot held, or not ready with every slot NULL; the flag agrees with the history. */
    ghost predicate Valid()
      reads this
    {
      && Settled(isReady, Owned(), live, nextId, filterSource, filterSink)
      && Backed(Owned(), packetHasData, frameHasData, watermarkHasData)
      && Lifecycle.Tracks(history, isReady)
    }

    /** The constructor: not ready, every pointer NULL. */
    constructor ()
      ensures Valid() && !isReady && AllNull(Owned())
      ensures filterSource == None && filterSink == None
      ensures live == {} && released == [] && history == [] && droppedPacketRefs == 0
    {
      isReady := false;
      formatContext, codecContext, frame, watermarkFrame := None, None, None, None;
      filterGraph, packet, filterSource, filterSink := None, None, None, None;
      packetHasData, frameHasData, watermarkHasData := false, false, false;
      nextId := 0;
      live, released, history := {}, [], [];
      droppedPacketRefs := 0;
    }

    /** A library allocation that succeeded. */
    method Allocate(kind: Kind) returns (h: Handle)
      modifies this`nextId, this`live
      ensures h == Handle(kind, old(nextId)) && nextId == old(nextId) + 1
      ensures live == old(live) + {h}
    {
      h := Handle(kind, nextId);
      nextId := nextId + 1;
      live := live + {h};
    }

    /** A filter node allocated inside the graph, freed with it and never on its own. */
    method NewNode() returns (h: Handle)
      modifies this`nextId
      ensures h == Handle(FilterNode, old(nextId)) && nextId == old(nextId) + 1
    {
      h := Handle(FilterNode, nextId);
      nextId := nextId + 1;
    }

    /** This object frees `h`; only a live allocation may be freed. */
    ghost method Free(h: Handle)
      requires h in live
      modifies this`live, this`released
      ensures live == old(live) - {h} && released == old(released) + [h]
    {
      live := live - {h};
      released := released + [h];
    }

    /** `if (slot) { free(slot); }`: a non-NULL slot is freed; a NULL one is skipped. */
    ghost method FreeIfHeld(slot: Option<Handle>)
      requires slot.Some? ==> slot.value in live
      modifies this`live, this`released
      ensures live == old(live) - HeldSet(slot) && released == old(released) + Held(slot)
    {
      if slot.Some? {
        Free(slot.value);
      }
    }

    /** The library call `h` was passed to frees it. */
    ghost method Surrender(h: Handle)
      requires h in live
      modifies this`live
      ensures live == old(live) - {h}
    {
      live := live - {h};
    }

    /** The first half of the release chain: graph, decoder, format context. */
    method ReleaseContexts()
      requires SlotKinds(Owned()) && In(filterGraph, live) && In(codecContext, live) && In(formatContext, live)
      modifies this`filterGraph, this`codecContext, this`formatContext, this`live, this`released
      ensures filterGraph.None? && codecContext.None? && formatContext.None?
      ensures released == old(released) + Held(old(filterGraph)) + Held(old(codecContext)) + Held(old(formatContext))
      ensures live == old(live) - HeldSet(old(filterGraph)) - HeldSet(old(codecContext)) - HeldSet(old(formatContext))
    {
      FreeIfHeld(filterGraph);
      filterGraph := None;
      FreeIfHeld(codecContext);
      codecContext := None;
      FreeIfHeld(formatContext);
      formatContext := None;
    }

    /** The second half of the release chain: packet, raw frame, watermark frame. */
    method ReleaseBuffers()
      requires SlotKinds(Owned()) && In(packet, live) && In(frame, live) && In(watermarkFrame, live)
      modifies this`packet, this`frame, this`watermarkFrame, this`packetHasData, this`frameHasData,
               this`watermarkHasData, this`live, this`released
      ensures packet.None? && frame.None? && watermarkFrame.None?
      ensures !packetHasData && !frameHasData && !watermarkHasData
      ensures released == old(released) + Held(old(packet)) + Held(old(frame)) + Held(old(watermarkFrame))
      ensures live == old(live) - HeldSet(old(packet)) - HeldSet(old(frame)) - HeldSet(old(watermarkFrame))
    {
      FreeIfHeld(packet);
      packet, packetHasData := None, false;
      FreeIfHeld(frame);
      frame, frameHasData := None, false;
      FreeIfHeld(watermarkFrame);
      watermarkFrame, watermarkHasData := None, false;
    }

    /**
     * The release chain shared by Open's `cleanup:` label and Close: each
     * non-NULL slot is freed and set to NULL, in the order graph, decoder,
     * format context, packet, raw frame, watermark frame.
     */
    method ReleaseSlots()
      requires SlotsOwned()
      modifies this`filterGraph, this`codecContext, this`formatContext, this`packet, this`frame,
               this`watermarkFrame, this`packetHasData, this`frameHasData, this`watermarkHasData,
               this`live, this`released
      ensures SlotsOwned() && AllNull(Owned()) && !packetHasData && !frameHasData && !watermarkHasData
      ensures released == AfterRelease(old(released), old(Owned()))
      ensures live == WithoutSlots(old(live), old(Owned()))
    {
      ReleaseContexts();
      ReleaseBuffers();
      ReleaseLog(old(released), old(Owned()));
    }

    /** What holds while Open acquires its slots (see Ownership.Ledger). */
    ghost predicate Building(base: set<Handle>, leaked: set<Handle>)
      reads this`filterGraph, this`codecContext, this`formatContext, this`packet, this`frame, this`watermarkFrame
      reads this`live, this`nextId
    {
      Acquiring(live, Owned(), nextId, base, leaked)
    }

    /** Lines 120-136: look up the input format, set the capture options, open the device. */
    method OpenInput(options: map<string, string>, env: OpenEnv, ghost base: set<Handle>)
      returns (ok: bool)
      requires Building(base, {}) && formatContext.Some?
      requires Owned() == Slots(None, None, formatContext, None, None, None)
      modifies this`formatContext, this`live, this`deviceOptions
      ensures Building(base, {})
      ensures ok == InputOpens(env)
      ensures ok ==> formatContext.Some?
      ensures !env.findInputFormat || env.openInput ==> formatContext == old(formatContext)
      ensures env.findInputFormat && !env.openInput ==> formatContext.None?
      ensures env.findInputFormat ==> deviceOptions == options
    {
      if !env.findInputFormat {
        return false;
      }
      deviceOptions := options;
      if !env.openInput {
        // avformat_open_input frees a caller-allocated context when it fails
        AccountSurrenderedContext(live, formatContext.value, nextId, base, {});
        Surrender(formatContext.value);
        formatContext := None;
        return false;
      }
      return true;
    }

    /** Lines 139-177: probe the streams, pick the first video stream, open its decoder. */
    method OpenDecoder(env: OpenEnv, ghost base: set<Handle>) returns (ok: bool)
      requires Building(base, {}) && codecContext.None?
      modifies this`codecContext, this`nextId, this`live, this`videoStream
      ensures Building(base, {})
      ensures ok == DecoderOpens(env)
      ensures codecContext.Some? == (env.findStreamInfo && Streams.FirstVideo(env.streams) != -1 && env.allocCodecContext)
      ensures codecContext.Some? ==> videoStream == Streams.FirstVideo(env.streams)
    {
      if !env.findStreamInfo {
        return false;
      }
      var videoIndex := Streams.FindVideoStream(env.streams);
      if videoIndex == -1 {
        return false;
      }
      if !env.allocCodecContext {
        return false;
      }
      AccountSlot(live, Owned(), DecoderSlot, nextId, base, {}, Handle(CodecContext, nextId));
      var decoder := Allocate(CodecContext);
      codecContext := Some(decoder);
      // avcodec_parameters_to_context reads the parameters of stream videoIndex
      videoStream := videoIndex;
      ok := env.parametersToContext && env.findDecoder && env.openCodec;
    }

    /** Lines 180-185: allocate both frames, then check both. */
    method AllocFrames(env: OpenEnv, ghost base: set<Handle>) returns (ok: bool)
      requires Building(base, {}) && frame.None? && watermarkFrame.None?
      modifies this`frame, this`watermarkFrame, this`nextId, this`live
      ensures Building(base, {})
      ensures ok == FramesAllocated(env)
      ensures frame.Some? == env.allocFrame && watermarkFrame.Some? == env.allocWatermarkFrame
    {
      if env.allocFrame {
        AccountSlot(live, Owned(), FrameSlot, nextId, base, {}, Handle(Frame, nextId));
        var raw := Allocate(Frame);
        frame := Some(raw);
      }
      if env.allocWatermarkFrame {
        AccountSlot(live, Owned(), WatermarkSlot, nextId, base, {}, Handle(Frame, nextId));
        var marked := Allocate(Frame);
        watermarkFrame := Some(marked);
      }
      ok := frame.Some? && watermarkFrame.Some?;
    }

    /** Lines 199-210: allocate the graph and look up the buffer and buffersink filters. */
    method AllocGraph(env: OpenEnv, ghost base: set<Handle>) returns (ok: bool)
      requires Building(base, {}) && filterGraph.None?
      modifies this`filterGraph, this`nextId, this`live
      ensures Building(base, {})
      ensures ok == GraphAllocated(env)
      ensures filterGraph.Some? == env.allocGraph
    {
      if !env.allocGraph {
        return false;
      }
      AccountSlot(live, Owned(), GraphSlot, nextId, base, {}, Handle(FilterGraph, nextId));
      var graph := Allocate(FilterGraph);
      filterGraph := Some(graph);
      ok := env.findBufferFilter && env.findBufferSinkFilter;
    }

    /** Lines 212-217: allocate the two end points, held in locals of Open and in no slot. */
    method AllocEndPoints(env: OpenEnv, ghost base: set<Handle>)
      returns (inOutIn: Option<Handle>, inOutOut: Option<Handle>, ghost leaked: set<Handle>)
      requires Building(base, {})
      modifies this`nextId, this`live
      ensures Building(base, leaked) && leaked == HeldSet(inOutIn) + HeldSet(inOutOut)
      ensures inOutIn.Some? == env.allocInOutIn && inOutOut.Some? == env.allocInOutOut
      ensures inOutIn.Some? ==> inOutIn.value.kind == InOut
      ensures inOutOut.Some? ==> inOutOut.value.kind == InOut
      ensures inOutIn.Some? && inOutOut.Some? ==> inOutIn != inOutOut
    {
      inOutIn, inOutOut, leaked := None, None, {};
      if env.allocInOutIn {
        AccountEndPoint(live, Owned(), nextId, base, leaked, Handle(InOut, nextId));
        var endPoint := Allocate(InOut);
        inOutIn := Some(endPoint);
        leaked := leaked + {endPoint};
      }
      if env.allocInOutOut {
        AccountEndPoint(live, Owned(), nextId, base, leaked, Handle(InOut, nextId));
        var endPoint := Allocate(InOut);
        inOutOut := Some(endPoint);
        leaked := leaked + {endPoint};
      }
    }

    /**
     * Lines 219-230: create the source node from the argument string, then the
     * sink node; a failing avfilter_graph_create_filter sets its node to NULL,
     * and the sink is not attempted when the source fails.
     */
    method CreateNodes(args: string, env: OpenEnv, ghost base: set<Handle>, ghost leaked: set<Handle>)
      returns (ok: bool)
      requires Building(base, leaked)
      modifies this`filterSource, this`filterSink, this`nextId, this`sourceArgs
      ensures Building(base, leaked) && sourceArgs == args
      ensures ok == NodesCreated(env)
      ensures ok ==> filterSource.Some? && filterSink.Some? && filterSource != filterSink
      ensures !env.createSource ==> filterSource.None? && filterSink == old(filterSink)
      ensures env.createSource && !env.createSink ==> filterSource.Some? && filterSink.None?
    {
      sourceArgs := args;
      if !env.createSource {
        filterSource := None;
        return false;
      }
      AccountNode(live, Owned(), nextId, base, leaked);
      var source := NewNode();
      filterSource := Some(source);
      if !env.createSink {
        filterSink := None;
        return false;
      }
      AccountNode(live, Owned(), nextId, base, leaked);
      var sink := NewNode();
      filterSink := Some(sink);
      return true;
    }

    /**
     * Lines 245-254: parse the drawtext chain into the graph, which takes both
     * end points over whether it succeeds or not, then configure the graph.
     */
    method ParseGraph(description: string, inOutIn: Handle, inOutOut: Handle, env: OpenEnv,
                      ghost base: set<Handle>)
      returns (ok: bool)
      requires Building(base, {inOutIn, inOutOut}) && inOutIn != inOutOut
      modifies this`live, this`filterDescription
      ensures Building(base, {}) && filterDescription == description
      ensures ok == (env.parseGraph && env.configGraph)
    {
      filterDescription := description;
      AccountParsed(live, Owned(), nextId, base, inOutIn, inOutOut);
      Surrender(inOutIn);
      Surrender(inOutOut);
      ok := env.parseGraph && env.configGraph;
    }

    /**
     * Lines 199-254: the filter graph, its source and sink nodes and the
     * drawtext chain. `leaked` is the end points still held when the build
     * gives up before the parse.
     */
    method BuildGraph(args: string, description: string, env: OpenEnv, ghost base: set<Handle>)
      returns (ok: bool, ghost leaked: set<Handle>)
      requires Building(base, {}) && filterGraph.None?
      modifies this`filterGraph, this`filterSource, this`filterSink, this`nextId, this`live
      modifies this`sourceArgs, this`filterDescription
      ensures Building(base, leaked) && EndPoints(leaked)
      ensures leaked == {} <==> !GraphLeaksInOut(env)
      ensures ok == GraphBuilt(env)
      ensures ok ==> filterGraph.Some? && filterSource.Some? && filterSink.Some? && leaked == {}
    {
      leaked := {};
      ok := AllocGraph(env, base);
      if !ok {
        return;
      }
      var inOutIn, inOutOut;
      inOutIn, inOutOut, leaked := AllocEndPoints(env, base);
      if inOutIn.None? || inOutOut.None? {
        return false, leaked;
      }
      ok, leaked := LinkGraph(args, description, inOutIn.value, inOutOut.value, env, base);
    }

    /**
     * Lines 219-254 once both end points exist: the two nodes, then the
     * parse, which takes the end points over. They stay with the process
     * when a node cannot be created.
     */
    method LinkGraph(args: string, description: string, inOutIn: Handle, inOutOut: Handle, env: OpenEnv,
                     ghost base: set<Handle>)
      returns (ok: bool, ghost leaked: set<Handle>)
      requires Building(base, {inOutIn, inOutOut}) && inOutIn != inOutOut
      modifies this`filterSource, this`filterSink, this`nextId, this`live
      modifies this`sourceArgs, this`filterDescription
      ensures Building(base, leaked)
      ensures leaked == (if NodesCreated(env) then {} else {inOutIn, inOutOut})
      ensures ok == (NodesCreated(env) && env.parseGraph && env.configGraph)
      ensures ok ==> filterSource.Some? && filterSink.Some?
    {
      leaked := {inOutIn, inOutOut};
      ok := CreateNodes(args, env, base, leaked);
      if ok {
        ok := ParseGraph(description, inOutIn, inOutOut, env, base);
        leaked := {};
      }
    }

    /** Lines 257-261: allocate the packet. */
    method AllocPacket(env: OpenEnv, ghost base: set<Handle>, ghost leaked: set<Handle>)
      returns (ok: bool)
      requires Building(base, leaked) && packet.None?
      modifies this`packet, this`nextId, this`live
      ensures Building(base, leaked)
      ensures ok == env.allocPacket && packet.Some? == env.allocPacket
    {
      if !env.allocPacket {
        return false;
      }
      AccountSlot(live, Owned(), PacketSlot, nextId, base, leaked, Handle(Packet, nextId));
      var buffer := Allocate(Packet);
      packet := Some(buffer);
      return true;
    }

    /**
     * Lines 120-185: the input, the decoder and both frames, stopping at the
     * first failure.
     */
    method AcquireDecoder(options: map<string, string>, env: OpenEnv, ghost base: set<Handle>)
      returns (ok: bool)
      requires Building(base, {}) && formatContext.Some?
      requires Owned() == Slots(None, None, formatContext, None, None, None)
      modifies this`formatContext, this`codecContext, this`frame, this`watermarkFrame, this`nextId, this`live
      modifies this`deviceOptions, this`videoStream
      ensures Building(base, {})
      ensures ok == DecodingReady(env)
      ensures ok ==> formatContext.Some? && codecContext.Some? && frame.Some? && watermarkFrame.Some?
      ensures !InputOpens(env) ==> codecContext.None? && frame.None? && watermarkFrame.None?
      ensures InputOpens(env) && !DecoderOpens(env) ==> frame.None? && watermarkFrame.None?
    {
      ok := OpenInput(options, env, base);
      if !ok {
        return;
      }
      ok := OpenDecoder(env, base);
      if !ok {
        return;
      }
      ok := AllocFrames(env, base);
    }

    /** Lines 199-261: the filter graph, then the packet. */
    method AcquireFilter(args: string, description: string, env: OpenEnv, ghost base: set<Handle>)
      returns (ok: bool, ghost leaked: set<Handle>)
      requires Building(base, {}) && filterGraph.None? && packet.None?
      modifies this`filterGraph, this`packet, this`filterSource, this`filterSink, this`nextId, this`live
      modifies this`sourceArgs, this`filterDescription
      ensures Building(base, leaked) && EndPoints(leaked)
      ensures leaked == {} <==> !GraphLeaksInOut(env)
      ensures ok == (GraphBuilt(env) && env.allocPacket)
      ensures ok ==> filterGraph.Some? && packet.Some? && filterSource.Some? && filterSink.Some? && leaked == {}
      ensures !GraphBuilt(env) ==> packet.None?
    {
      ok, leaked := BuildGraph(args, description, env, base);
      if ok {
        ok := AllocPacket(env, base, leaked);
      }
    }

    /**
     * Lines 115-261: every acquisition of Open, from avformat_alloc_context to
     * av_packet_alloc, stopping at the first failure. A failed
     * avformat_alloc_context returns at once (lines 116-118) with every slot
     * still NULL; every later failure jumps to the cleanup chain.
     */
    method Acquire(options: map<string, string>, args: string, description: string, env: OpenEnv,
                   ghost base: set<Handle>)
      returns (ok: bool, ghost leaked: set<Handle>)
      requires Building(base, {}) && AllNull(Owned())
      modifies this`formatContext, this`codecContext, this`frame, this`watermarkFrame, this`filterGraph, this`packet
      modifies this`filterSource, this`filterSink, this`nextId, this`live
      modifies this`deviceOptions, this`videoStream, this`sourceArgs, this`filterDescription
      ensures Building(base, leaked) && EndPoints(leaked)
      ensures leaked == {} <==> !LeaksInOut(env)
      ensures ok == OpenSucceeds(env)
      ensures ok ==> Complete(Owned(), filterSource, filterSink) && leaked == {}
      ensures !env.allocFormatContext ==> AllNull(Owned())
      ensures env.allocFormatContext && !DecodingReady(env) ==> filterGraph.None? && packet.None?
      ensures ReachesGraph(env) && !GraphBuilt(env) ==> packet.None?
    {
      ok, leaked := false, {};
      label cleanup: {
        if !env.allocFormatContext {
          break cleanup;
        }
        AccountSlot(live, Owned(), FormatSlot, nextId, base, {}, Handle(FormatContext, nextId));
        var context := Allocate(FormatContext);
        formatContext := Some(context);
        ok := AcquireDecoder(options, env, base);
        if !ok {
          break cleanup;
        }
        ok, leaked := AcquireFilter(args, description, env, base);
      }
    }

    /**
     * Lines 266-299, the `cleanup:` label: the release chain run on a partly
     * opened device, after which the process holds what it held before Open
     * and the lost end points, and the device is back at rest, not ready.
     */
    method Rollback(ghost base: set<Handle>, ghost leaked: set<Handle>)
      requires Building(base, leaked) && EndPoints(leaked)
      requires Backed(Owned(), packetHasData, frameHasData, watermarkHasData)
      requires !isReady && Lifecycle.Tracks(history, false)
      modifies this`filterGraph, this`codecContext, this`formatContext, this`packet, this`frame,
               this`watermarkFrame, this`packetHasData, this`frameHasData, this`watermarkHasData,
               this`live, this`released, this`history
      ensures Valid() && !isReady && AllNull(Owned())
      ensures history == old(history) + [Lifecycle.OpenFailed]
      ensures live == base + leaked && (live == base <==> leaked == {})
      ensures base <= live && forall h :: h in live && h !in base ==> h.kind == InOut
      ensures |old(released)| <= |released| && released[..|old(released)|] == old(released)
      ensures forall i :: |old(released)| <= i < |released| ==> released[i] !in base
      ensures AllNull(old(Owned())) ==> released == old(released)
    {
      AcquiringHeld(live, Owned(), nextId, base, leaked);
      LedgerReleased(live, Owned(), nextId, base, leaked);
      ReleasedFresh(released, Owned(), base);
      LeakGrows(base, leaked);
      ReleaseSlots();
      history := history + [Lifecycle.OpenFailed];
      Lifecycle.Record(old(history), false, Lifecycle.OpenFailed);
    }

    /** Lines 263-264: every acquisition succeeded, so the device becomes ready. */
    method Commit(ghost base: set<Handle>)
      requires Building(base, {}) && Complete(Owned(), filterSource, filterSink)
      requires !isReady && Lifecycle.Tracks(history, false)
      modifies this`isReady, this`history
      ensures Valid() && isReady && AllHeld(Owned())
      ensures base !! SlotSet(Owned()) && live == base + SlotSet(Owned())
      ensures history == old(history) + [Lifecycle.Opened]
    {
      AcquiringHeld(live, Owned(), nextId, base, {});
      LedgerClosed(live, SlotSet(Owned()), nextId, base);
      isReady := true;
      history := history + [Lifecycle.Opened];
      Lifecycle.Record(old(history), false, Lifecycle.Opened);
    }

    /**
     * Lines 97-300 once the three strings are built: an Open of a ready
     * device is refused and changes nothing. Otherwise either every library
     * call succeeds and the device becomes ready holding all six slots, or
     * the cleanup chain frees what was acquired and the device stays not
     * ready with every slot NULL; the only allocations a failing Open leaves
     * behind are filter end points.
     */
    method OpenWith(options: map<string, string>, args: string, description: string, env: OpenEnv)
      returns (ok: bool)
      requires Valid()
      modifies this
      ensures Valid()
      ensures old(isReady) ==> !ok && unchanged(this)
      ensures !old(isReady) ==> ok == OpenSucceeds(env)
      ensures !old(isReady) ==> history == old(history) + [if ok then Lifecycle.Opened else Lifecycle.OpenFailed]
      ensures !old(isReady) ==> old(live) <= live
      ensures ok ==> isReady && AllHeld(Owned())
      ensures ok ==> old(live) !! SlotSet(Owned()) && live == old(live) + SlotSet(Owned()) && released == old(released)
      ensures !old(isReady) && !ok ==> !isReady && AllNull(Owned())
      ensures !old(isReady) && !ok ==> (live == old(live) <==> !LeaksInOut(env))
      ensures !old(isReady) && !ok ==> forall h :: h in live && h !in old(live) ==> h.kind == InOut
      ensures !old(isReady) && !ok ==> |old(released)| <= |released| && released[..|old(released)|] == old(released)
      ensures !old(isReady) && !ok ==> forall i :: |old(released)| <= i < |released| ==> released[i] !in old(live)
      ensures ok ==> !packetHasData && !frameHasData && !watermarkHasData
      ensures droppedPacketRefs == old(droppedPacketRefs)
    {
      if isReady {
        return false;
      }
      ok := Attempt(options, args, description, env);
    }

    /**
     * Lines 120-299: the acquisitions of a device that is not ready,
     * followed by the commit or by the cleanup chain.
     */
    method Attempt(options: map<string, string>, args: string, description: string, env: OpenEnv)
      returns (ok: bool)
      requires Valid() && !isReady
      modifies this`formatContext, this`codecContext, this`frame, this`watermarkFrame, this`filterGraph, this`packet
      modifies this`filterSource, this`filterSink, this`nextId, this`live
      modifies this`deviceOptions, this`videoStream, this`sourceArgs, this`filterDescription
      modifies this`isReady, this`packetHasData, this`frameHasData, this`watermarkHasData, this`released, this`history
      ensures Valid()
      ensures ok == OpenSucceeds(env)
      ensures history == old(history) + [if ok then Lifecycle.Opened else Lifecycle.OpenFailed]
      ensures old(live) <= live
      ensures ok ==> isReady && AllHeld(Owned())
      ensures ok ==> old(live) !! SlotSet(Owned()) && live == old(live) + SlotSet(Owned()) && released == old(released)
      ensures ok ==> !packetHasData && !frameHasData && !watermarkHasData
      ensures !ok ==> !isReady && AllNull(Owned())
      ensures !ok ==> (live == old(live) <==> !LeaksInOut(env))
      ensures !ok ==> forall h :: h in live && h !in old(live) ==> h.kind == InOut
      ensures !ok ==> |old(released)| <= |released| && released[..|old(released)|] == old(released)
      ensures !ok ==> forall i :: |old(released)| <= i < |released| ==> released[i] !in old(live)
      ensures !env.allocFormatContext ==> live == old(live) && released == old(released)
    {
      assert !packetHasData && !frameHasData && !watermarkHasData;
      ghost var base := live;
      assert Building(base, {}) by {
        assert SlotSet(Owned()) == {};
      }
      ghost var leaked;
      ok, leaked := Acquire(options, args, description, env, base);
      if ok {
        Commit(base);
      } else {
        Rollback(base, leaked);
      }
    }

    /**
     * Lines 97-300: Open(format, device, width, height, fps) with the
     * options dictionary, the source node's arguments and the drawtext
     * description it builds from its arguments, the platform and the clock.
     */
    method Open(width: Int32, height: Int32, fps: Int32, platform: Overlay.Platform, wday: int, env: OpenEnv)
      returns (ok: bool)
      requires Valid()
      modifies this
      ensures Valid()
      ensures old(isReady) ==> !ok && unchanged(this)
      ensures !old(isReady) ==> ok == OpenSucceeds(env)
      ensures !old(isReady) ==> history == old(history) + [if ok then Lifecycle.Opened else Lifecycle.OpenFailed]
      ensures !old(isReady) ==> old(live) <= live
      ensures ok ==> isReady && AllHeld(Owned())
      ensures ok ==> old(live) !! SlotSet(Owned()) && live == old(live) + SlotSet(Owned()) && released == old(released)
      ensures !old(isReady) && !ok ==> !isReady && AllNull(Owned())
      ensures !old(isReady) && !ok ==> (live == old(live) <==> !LeaksInOut(env))
      ensures !old(isReady) && !ok ==> forall h :: h in live && h !in old(live) ==> h.kind == InOut
      ensures !old(isReady) && !ok ==> |old(released)| <= |released| && released[..|old(released)|] == old(released)
      ensures !old(isReady) && !ok ==> forall i :: |old(released)| <= i < |released| ==> released[i] !in old(live)
      ensures ok ==> !packetHasData && !frameHasData && !watermarkHasData
      ensures droppedPacketRefs == old(droppedPacketRefs)
    {
      var options := DeviceOptions.CaptureOptions(width, height, fps);
      var args := DeviceOptions.SourceArgs(width, height, fps);
      var description := Overlay.LocalDateTimeString(platform, wday);
      ok := OpenWith(options, args, description, env);
    }

    /** Lines 304-337: the body of Close on a ready device. */
    method TearDown()
      requires Valid() && isReady
      modifies this`isReady, this`filterGraph, this`codecContext, this`formatContext, this`packet, this`frame,
               this`watermarkFrame, this`packetHasData, this`frameHasData, this`watermarkHasData,
               this`live, this`released, this`history
      ensures Valid() && !isReady && AllNull(Owned())
      ensures released == AfterRelease(old(released), old(Owned()))
      ensures live == WithoutSlots(old(live), old(Owned()))
      ensures history == old(history) + [Lifecycle.Closed]
    {
      isReady := false;
      ReleaseSlots();
      history := history + [Lifecycle.Closed];
      Lifecycle.Record(old(history), true, Lifecycle.Closed);
    }

    /**
     * Lines 302-339. Closing a ready device clears the flag and frees every
     * slot in the order graph, decoder, format context, packet, raw frame,
     * watermark frame; closing a device that is not ready does nothing. The
     * graph's node pointers are left as they were.
     */
    method Close()
      requires Valid()
      modifies this`isReady, this`filterGraph, this`codecContext, this`formatContext, this`packet, this`frame,
               this`watermarkFrame, this`packetHasData, this`frameHasData, this`watermarkHasData,
               this`live, this`released, this`history
      ensures Valid() && !isReady && AllNull(Owned())
      ensures !old(isReady) ==> unchanged(this)
      ensures old(isReady) ==> released == AfterRelease(old(released), old(Owned()))
      ensures old(isReady) ==> live == WithoutSlots(old(live), old(Owned()))
      ensures old(isReady) ==> history == old(history) + [Lifecycle.Closed]
      ensures nextId == old(nextId) && filterSource == old(filterSource) && filterSink == old(filterSink)
      ensures droppedPacketRefs == old(droppedPacketRefs)
    {
      if isReady {
        TearDown();
      }
    }

    /**
     * Lines 349-376 of Capture on a ready device: read a packet, decode it
     * into the raw frame, push that frame into the source node and take the
     * watermarked frame from the sink, stopping at the first failure. Each
     * buffer holds data exactly as the last library call that reached it
     * left it.
     */
    method Pump(env: CaptureEnv) returns (drained: bool)
      requires Valid() && isReady
      modifies this`packetHasData, this`frameHasData, this`watermarkHasData, this`droppedPacketRefs
      ensures Valid()
      ensures drained == Drains(env)
      ensures droppedPacketRefs == old(droppedPacketRefs) + (if old(packetHasData) then 1 else 0)
      ensures packetHasData == env.readFrame
      ensures frameHasData == (if env.readFrame && env.sendPacket then env.receiveFrame else old(frameHasData))
      ensures watermarkHasData == (if env.readFrame && env.sendPacket && env.receiveFrame && env.addFrame
                                   then env.getFrame else old(watermarkHasData))
    {
      drained := false;
      // a reference left by an earlier Capture that stopped early is overwritten
      if packetHasData {
        droppedPacketRefs := droppedPacketRefs + 1;
      }
      // av_read_frame leaves the packet blank when it fails
      packetHasData := env.readFrame;
      if !env.readFrame || !env.sendPacket {
        return;
      }
      // avcodec_receive_frame unreferences the frame before filling it
      frameHasData := env.receiveFrame;
      if !env.receiveFrame || !env.addFrame {
        return;
      }
      // av_buffersink_get_frame fills the watermark frame only when it succeeds
      watermarkHasData := env.getFrame;
      drained := env.getFrame;
    }

    /**
     * Lines 378-384: clone the watermarked frame (a new allocation that the
     * caller owns, or NULL when the clone fails), then unreference the
     * watermark frame, the raw frame and the packet in every case.
     */
    method Deliver(cloned: bool) returns (result: Option<Handle>)
      requires Valid() && isReady
      modifies this`nextId, this`live, this`packetHasData, this`frameHasData, this`watermarkHasData
      ensures Valid()
      ensures result.Some? <==> cloned
      ensures result.Some? ==> result.value == Handle(Frame, old(nextId)) && result.value !in old(live)
      ensures live == old(live) + HeldSet(result)
      ensures !packetHasData && !frameHasData && !watermarkHasData
    {
      result := None;
      if cloned {
        SettledAdd(isReady, Owned(), live, nextId, filterSource, filterSink, Handle(Frame, nextId));
        var copy := Allocate(Frame);
        result := Some(copy);
      }
      watermarkHasData, frameHasData, packetHasData := false, false, false;
    }

    /**
     * Lines 341-385. A device that is not ready yields NULL. Otherwise the
     * pipeline runs, the first failing step yields NULL, and once the graph
     * has delivered a frame it is cloned and the watermark frame, the raw
     * frame and the packet are unreferenced whether or not the clone
     * succeeds. Capture never changes the flag or a slot; the frame it
     * returns is a new allocation the caller owns.
     */
    method Capture(env: CaptureEnv) returns (result: Option<Handle>)
      requires Valid()
      modifies this`nextId, this`live, this`packetHasData, this`frameHasData, this`watermarkHasData
      modifies this`droppedPacketRefs
      ensures Valid()
      ensures isReady == old(isReady) && Owned() == old(Owned())
      ensures !old(isReady) ==> result.None? && unchanged(this)
      ensures result.Some? <==> old(isReady) && Delivers(env)
      ensures result.Some? ==> result.value == Handle(Frame, old(nextId)) && result.value !in old(live)
      ensures live == old(live) + HeldSet(result)
      ensures old(isReady) ==> droppedPacketRefs == old(droppedPacketRefs) + (if old(packetHasData) then 1 else 0)
      ensures old(isReady) && Drains(env) ==> !packetHasData && !frameHasData && !watermarkHasData
      ensures old(isReady) && !Drains(env) ==> packetHasData == env.readFrame
      ensures old(isReady) && !Drains(env) ==>
                frameHasData == (if env.readFrame && env.sendPacket then env.receiveFrame else old(frameHasData))
      ensures old(isReady) && !Drains(env) ==>
                watermarkHasData == (if env.readFrame && env.sendPacket && env.receiveFrame && env.addFrame
                                     then env.getFrame else old(watermarkHasData))
    {
      result := None;
      if !isReady {
        return;
      }
      var drained := Pump(env);
      if drained {
        result := Deliver(env.cloneFrame);
      }
    }

    /**
     * Two Captures in a row where the first reads a packet and then stops
     * early (the decoder wants more input, say): the early return of the
     * first skips av_packet_unref, and the second's av_read_frame loses
     * that reference.
     */
    method CaptureAfterEarlyReturn(first: CaptureEnv, second: CaptureEnv)
      returns (r1: Option<Handle>, r2: Option<Handle>)
      requires Valid() && isReady
      requires first.readFrame && !Drains(first)
      modifies this`nextId, this`live, this`packetHasData, this`frameHasData, this`watermarkHasData
      modifies this`droppedPacketRefs
      ensures Valid() && r1.None?
      ensures droppedPacketRefs >= old(droppedPacketRefs) + 1
    {
      r1 := Capture(first);
      r2 := Capture(second);
    }

    /**
     * A successful Open followed by a Capture: the buffers start out
     * without data, so the first av_read_frame after Open loses nothing.
     */
    method CaptureAfterOpen(options: map<string, string>, args: string, description: string,
                            openEnv: OpenEnv, captureEnv: CaptureEnv)
      returns (ok: bool, r: Option<Handle>)
      requires Valid() && !isReady
      modifies this
      ensures Valid()
      ensures ok == OpenSucceeds(openEnv)
      ensures ok ==> droppedPacketRefs == old(droppedPacketRefs)
      ensures r.Some? <==> ok && Delivers(captureEnv)
    {
      ok := OpenWith(options, args, description, openEnv);
      r := Capture(captureEnv);
    }
  }
}
