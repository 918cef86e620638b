/**
 * Ownership of library allocations: handles, the six slots a camera device
 * owns, and the ledger that says which allocations the process holds while a
 * device is being opened.
 */
module Ownership {
  import opened Optional

  /** What a library pointer points to. */
  datatype Kind = FormatContext | CodecContext | Frame | FilterGraph | FilterNode | InOut | Packet

  /** A non-NULL pointer returned by the library. */
  datatype Handle = Handle(kind: Kind, id: nat)

  /** The six owned slots, in the order Close and the cleanup chain release them. */
  datatype Slots = Slots(
    graph: Option<Handle>, decoder: Option<Handle>, format: Option<Handle>,
    packet: Option<Handle>, frame: Option<Handle>, watermark: Option<Handle>)

  function Held(o: Option<Handle>): seq<Handle> {
    if o.Some? then [o.value] else []
  }

  function HeldSet(o: Option<Handle>): set<Handle> {
    if o.Some? then {o.value} else {}
  }

  /** The handles a release chain frees, in the order it frees them. */
  function ReleaseOrder(s: Slots): seq<Handle> {
    Held(s.graph) + Held(s.decoder) + Held(s.format) + Held(s.packet) + Held(s.frame) + Held(s.watermark)
  }

  /** `log` followed by the handles of `s` in release order. */
  function AfterRelease(log: seq<Handle>, s: Slots): seq<Handle> {
    log + ReleaseOrder(s)
  }

  /** `pool` without the handles of `s`. */
  function WithoutSlots(pool: set<Handle>, s: Slots): set<Handle> {
    pool - HeldSet(s.graph) - HeldSet(s.decoder) - HeldSet(s.format)
         - HeldSet(s.packet) - HeldSet(s.frame) - HeldSet(s.watermark)
  }

  /** The six slots by name, with the kind each one holds. */
  datatype SlotName = GraphSlot | DecoderSlot | FormatSlot | PacketSlot | FrameSlot | WatermarkSlot

  function KindOf(n: SlotName): Kind {
    match n
    case GraphSlot => FilterGraph
    case DecoderSlot => CodecContext
    case FormatSlot => FormatContext
    case PacketSlot => Packet
    case FrameSlot => Frame
    case WatermarkSlot => Frame
  }

  function Get(s: Slots, n: SlotName): Option<Handle> {
    match n
    case GraphSlot => s.graph
    case DecoderSlot => s.decoder
    case FormatSlot => s.format
    case PacketSlot => s.packet
    case FrameSlot => s.frame
    case WatermarkSlot => s.watermark
  }

  function Put(s: Slots, n: SlotName, o: Option<Handle>): Slots {
    match n
    case GraphSlot => s.(graph := o)
    case DecoderSlot => s.(decoder := o)
    case FormatSlot => s.(format := o)
    case PacketSlot => s.(packet := o)
    case FrameSlot => s.(frame := o)
    case WatermarkSlot => s.(watermark := o)
  }

  /** Every handle of `s`, as a set. */
  function SlotSet(s: Slots): set<Handle> {
    HeldSet(s.graph) + HeldSet(s.decoder) + HeldSet(s.format)
      + HeldSet(s.packet) + HeldSet(s.frame) + HeldSet(s.watermark)
  }

  /** Every non-NULL slot points to an allocation of its kind, and the two frames are distinct. */
  predicate SlotKinds(s: Slots) {
    && (s.graph.Some? ==> s.graph.value.kind == FilterGraph)
    && (s.decoder.Some? ==> s.decoder.value.kind == CodecContext)
    && (s.format.Some? ==> s.format.value.kind == FormatContext)
    && (s.packet.Some? ==> s.packet.value.kind == Packet)
    && (s.frame.Some? ==> s.frame.value.kind == Frame)
    && (s.watermark.Some? ==> s.watermark.value.kind == Frame)
    && (s.frame.Some? && s.watermark.Some? ==> s.frame != s.watermark)
  }

  /** A non-NULL slot points to an allocation still held. */
  predicate In(o: Option<Handle>, live: set<Handle>) {
    o.Some? ==> o.value in live
  }

  predicate HeldIn(s: Slots, live: set<Handle>) {
    && In(s.graph, live) && In(s.decoder, live) && In(s.format, live)
    && In(s.packet, live) && In(s.frame, live) && In(s.watermark, live)
  }

  /**
   * The bookkeeping of a partly opened device: the process holds what it
   * held before (`base`), the handles now in slots and the allocations lost
   * so far, three disjoint sets, and every handle it holds has a number
   * below `next`.
   */
  predicate Ledger(live: set<Handle>, slots: set<Handle>, next: nat, base: set<Handle>, leaked: set<Handle>) {
    && (forall h :: h in live ==> h.id < next)
    && base !! slots && base !! leaked && slots !! leaked
    && live == base + slots + leaked
  }

  lemma LedgerAdd(live: set<Handle>, slots: set<Handle>, next: nat, base: set<Handle>, leaked: set<Handle>,
                  h: Handle)
    requires Ledger(live, slots, next, base, leaked) && h.id == next
    ensures Ledger(live + {h}, slots + {h}, next + 1, base, leaked)
  {
  }

  lemma LedgerLeak(live: set<Handle>, slots: set<Handle>, next: nat, base: set<Handle>, leaked: set<Handle>,
                   h: Handle)
    requires Ledger(live, slots, next, base, leaked) && h == Handle(InOut, next)
    ensures Ledger(live + {h}, slots, next + 1, base, leaked + {h})
  {
  }

  lemma LedgerDropSlot(live: set<Handle>, slots: set<Handle>, next: nat, base: set<Handle>, leaked: set<Handle>,
                       h: Handle)
    requires Ledger(live, slots, next, base, leaked) && h in slots
    ensures Ledger(live - {h}, slots - {h}, next, base, leaked)
  {
  }

  lemma LedgerDropLeak(live: set<Handle>, slots: set<Handle>, next: nat, base: set<Handle>, leaked: set<Handle>,
                       h: Handle)
    requires Ledger(live, slots, next, base, leaked) && h in leaked
    ensures Ledger(live - {h}, slots, next, base, leaked - {h})
  {
  }

  lemma LedgerTick(live: set<Handle>, slots: set<Handle>, next: nat, base: set<Handle>, leaked: set<Handle>)
    requires Ledger(live, slots, next, base, leaked)
    ensures Ledger(live, slots, next + 1, base, leaked)
  {
  }

  /** Every handle in `leaked` is a filter end point. */
  predicate EndPoints(leaked: set<Handle>) {
    forall h :: h in leaked ==> h.kind == InOut
  }

  /** A ledger with no leaks: the process holds what it held before and the slots, nothing else. */
  lemma LedgerClosed(live: set<Handle>, slots: set<Handle>, next: nat, base: set<Handle>)
    requires Ledger(live, slots, next, base, {})
    ensures base !! slots && live == base + slots
  {
    assert base + slots + {} == base + slots;
  }

  /** The ledger once the slots are released: what the process held before, and the leaks. */
  lemma LedgerReleased(live: set<Handle>, s: Slots, next: nat, base: set<Handle>, leaked: set<Handle>)
    requires Ledger(live, SlotSet(s), next, base, leaked)
    ensures WithoutSlots(live, s) == base + leaked
  {
  }

  /** Filling a NULL slot adds its handle to the slot set. */
  lemma PutSome(s: Slots, n: SlotName, h: Handle)
    requires Get(s, n).None?
    ensures SlotSet(Put(s, n, Some(h))) == SlotSet(s) + {h}
  {
    match n
    case GraphSlot =>
    case DecoderSlot =>
    case FormatSlot =>
    case PacketSlot =>
    case FrameSlot =>
    case WatermarkSlot =>
  }

  /** Filling a NULL slot with a new handle of its kind keeps the slots well kinded. */
  lemma KindsPut(s: Slots, n: SlotName, h: Handle)
    requires SlotKinds(s) && Get(s, n).None? && h.kind == KindOf(n) && h !in SlotSet(s)
    ensures SlotKinds(Put(s, n, Some(h)))
  {
    match n
    case GraphSlot =>
    case DecoderSlot =>
    case FormatSlot =>
    case PacketSlot =>
    case FrameSlot =>
    case WatermarkSlot =>
  }

  /** The ledger of a partly opened device whose slots are `s`, every slot of its kind. */
  predicate Acquiring(live: set<Handle>, s: Slots, next: nat, base: set<Handle>, leaked: set<Handle>) {
    SlotKinds(s) && Ledger(live, SlotSet(s), next, base, leaked)
  }

  lemma AcquiringHeld(live: set<Handle>, s: Slots, next: nat, base: set<Handle>, leaked: set<Handle>)
    requires Acquiring(live, s, next, base, leaked)
    ensures HeldIn(s, live) && forall h :: h in live ==> h.id < next
  {
  }

  /** A new allocation stored in a NULL slot of its kind. */
  lemma AccountSlot(live: set<Handle>, s: Slots, n: SlotName, next: nat, base: set<Handle>, leaked: set<Handle>,
                    h: Handle)
    requires Acquiring(live, s, next, base, leaked) && Get(s, n).None?
    requires h == Handle(KindOf(n), next)
    ensures Acquiring(live + {h}, Put(s, n, Some(h)), next + 1, base, leaked)
  {
    PutSome(s, n, h);
    KindsPut(s, n, h);
    LedgerAdd(live, SlotSet(s), next, base, leaked, h);
  }

  /** A new filter end point, held in a local. */
  lemma AccountEndPoint(live: set<Handle>, s: Slots, next: nat, base: set<Handle>, leaked: set<Handle>, h: Handle)
    requires Acquiring(live, s, next, base, leaked)
    requires h == Handle(InOut, next)
    ensures Acquiring(live + {h}, s, next + 1, base, leaked + {h})
  {
    LedgerLeak(live, SlotSet(s), next, base, leaked, h);
  }

  /** The format context, the only slot held when avformat_open_input fails, freed by that call. */
  lemma AccountSurrenderedContext(live: set<Handle>, h: Handle, next: nat, base: set<Handle>, leaked: set<Handle>)
    requires Acquiring(live, Slots(None, None, Some(h), None, None, None), next, base, leaked)
    ensures Acquiring(live - {h}, Slots(None, None, None, None, None, None), next, base, leaked)
  {
    LedgerDropSlot(live, {h}, next, base, leaked, h);
  }

  /** A filter end point handed to a library call that takes it over. */
  lemma AccountSurrenderedEndPoint(live: set<Handle>, s: Slots, next: nat, base: set<Handle>, leaked: set<Handle>,
                                   h: Handle)
    requires Acquiring(live, s, next, base, leaked)
    requires h in leaked
    ensures Acquiring(live - {h}, s, next, base, leaked - {h})
  {
    LedgerDropLeak(live, SlotSet(s), next, base, leaked, h);
  }

  /** Both filter end points handed to avfilter_graph_parse, which takes them over. */
  lemma AccountParsed(live: set<Handle>, s: Slots, next: nat, base: set<Handle>, a: Handle, b: Handle)
    requires Acquiring(live, s, next, base, {a, b}) && a != b
    ensures Acquiring(live - {a} - {b}, s, next, base, {})
  {
    LedgerDropLeak(live, SlotSet(s), next, base, {a, b}, a);
    assert {a, b} - {a} == {b};
    LedgerDropLeak(live - {a}, SlotSet(s), next, base, {b}, b);
    assert {b} - {b} == {};
  }

  /** An allocation owned by the graph, not by the process. */
  lemma AccountNode(live: set<Handle>, s: Slots, next: nat, base: set<Handle>, leaked: set<Handle>)
    requires Acquiring(live, s, next, base, leaked)
    ensures Acquiring(live, s, next + 1, base, leaked)
  {
    LedgerTick(live, SlotSet(s), next, base, leaked);
  }

  /** Concatenation of handle sequences is associative. */
  lemma Associate(a: seq<Handle>, b: seq<Handle>, c: seq<Handle>)
    ensures a + b + c == a + (b + c)
  {
  }

  /** Appending the slots' handles one at a time gives the log after the release chain. */
  lemma {:induction false} ReleaseLog(log: seq<Handle>, s: Slots)
    ensures log + Held(s.graph) + Held(s.decoder) + Held(s.format) + Held(s.packet) + Held(s.frame)
            + Held(s.watermark) == AfterRelease(log, s)
  {
    var g, d, f := Held(s.graph), Held(s.decoder), Held(s.format);
    var p, r, w := Held(s.packet), Held(s.frame), Held(s.watermark);
    Associate(log, g, d);
    Associate(log, g + d, f);
    Associate(log, g + d + f, p);
    Associate(log, g + d + f + p, r);
    Associate(log, g + d + f + p + r, w);
  }

  /** Every handle a release chain frees is one of the slots. */
  lemma ReleaseOrderHeld(s: Slots)
    ensures forall h :: h in ReleaseOrder(s) ==> h in SlotSet(s)
  {
  }

  /**
   * A cleanup that starts from the ledger keeps the old log as a prefix and
   * appends only handles that were not held before the open began.
   */
  lemma ReleasedFresh(log: seq<Handle>, s: Slots, base: set<Handle>)
    requires base !! SlotSet(s)
    ensures |log| <= |AfterRelease(log, s)| && AfterRelease(log, s)[..|log|] == log
    ensures forall i :: |log| <= i < |AfterRelease(log, s)| ==> AfterRelease(log, s)[i] !in base
  {
    ReleaseOrderHeld(s);
    var t := AfterRelease(log, s);
    forall i | |log| <= i < |t|
      ensures t[i] !in base
    {
      assert t[i] == ReleaseOrder(s)[i - |log|];
    }
  }

  /** A ledger with leaks holds more than its base. */
  lemma LeakGrows(base: set<Handle>, leaked: set<Handle>)
    requires base !! leaked
    ensures base + leaked == base <==> leaked == {}
  {
    if leaked != {} {
      var h :| h in leaked;
      assert h !in base;
    }
  }

  predicate AllHeld(s: Slots) {
    s.graph.Some? && s.decoder.Some? && s.format.Some? && s.packet.Some? && s.frame.Some? && s.watermark.Some?
  }

  predicate AllNull(s: Slots) {
    s.graph.None? && s.decoder.None? && s.format.None? && s.packet.None? && s.frame.None? && s.watermark.None?
  }

  /** Only a buffer that is not NULL holds a data reference. */
  predicate Backed(s: Slots, packetHasData: bool, frameHasData: bool, watermarkHasData: bool) {
    && (packetHasData ==> s.packet.Some?)
    && (frameHasData ==> s.frame.Some?)
    && (watermarkHasData ==> s.watermark.Some?)
  }

  /**
   * A device between calls: its slots are well kinded and held, every held
   * allocation is numbered below `next`, and it is either ready with all six
   * slots and both filter nodes, or not ready with every slot NULL.
   */
  predicate Settled(ready: bool, s: Slots, live: set<Handle>, next: nat,
                    source: Option<Handle>, sink: Option<Handle>) {
    && SlotKinds(s) && HeldIn(s, live)
    && (forall h :: h in live ==> h.id < next)
    && (ready ==> Complete(s, source, sink))
    && (!ready ==> AllNull(s))
  }

  /** A fully opened device: all six slots and both filter nodes. */
  predicate Complete(s: Slots, source: Option<Handle>, sink: Option<Handle>) {
    AllHeld(s) && source.Some? && sink.Some?
  }

  /** A new allocation the device does not keep leaves it at rest. */
  lemma SettledAdd(ready: bool, s: Slots, live: set<Handle>, next: nat, source: Option<Handle>,
                   sink: Option<Handle>, h: Handle)
    requires Settled(ready, s, live, next, source, sink) && h.id == next
    ensures Settled(ready, s, live + {h}, next + 1, source, sink) && h !in live
  {
  }
}
