/**
 * The statically initialised globals of a Composite component: its identity,
 * the scheduler notification area it shares with the kernel, and the
 * component information descriptor the loader reads at attach time.
 *
 * Every value here is a constant record; the loader and the kernel patch some
 * fields later, but nothing in this part of the runtime does.
 */
module ComponentState {

  datatype Option<T> = None | Some(value: T)

  /** The five hand-written retryable code fragments the kernel may restart. */
  datatype AtomicRegion = Cmpxchg | User1 | User2 | User3 | User4

  /** Link-time symbols whose addresses the descriptor publishes. */
  datatype LinkSymbol =
    | UpcallEntry                      // cos_upcall_entry
    | UserCaps                         // ST_user_caps
    | SchedNotifications               // cos_sched_notifications
    | RegionStart(region: AtomicRegion) // cos_atomic_<region>
    | RegionEnd(region: AtomicRegion)   // cos_atomic_<region>_end

  /**
   * An address as the runtime sees it: NULL (the integer 0), the address of
   * a link-time symbol, or some other address the model does not name (an
   * opaque upcall argument, a heap address patched in by the loader).
   */
  datatype Addr = Null | SymbolAt(sym: LinkSymbol) | Foreign(id: nat)

  /** Thread id 0 names no thread. */
  const NoThread: nat := 0

  /** Scheduler notification area: the kernel's next-thread hint. */
  datatype NextHint = NextHint(nextThdId: nat, nextThdFlags: nat)

  /** Scheduler notification area: owner and waiter of the component lock. */
  datatype LockWord = LockWord(ownerThd: nat, queuedThd: nat)

  /**
   * The area shared with the kernel. The event buffer's layout belongs to the
   * scheduler; the model records only the entries that have been posted.
   */
  datatype SchedDataArea = SchedDataArea(next: NextHint, locks: LockWord, events: seq<nat>)

  /** One stack freelist slot of the descriptor. */
  datatype StackSlot = StackSlot(freelist: Addr, thdId: nat)

  /** One restartable atomic sequence: the half-open range [start, end). */
  datatype RasEntry = RasEntry(start: Addr, end: Addr)

  /** The published component information descriptor (cos_comp_info). */
  datatype ComponentInfo = ComponentInfo(
    thisSpdId: int,
    heapPtr: Addr,
    freelists: seq<StackSlot>,
    upcallEntry: Addr,
    schedDataArea: Addr,
    userCaps: Addr,
    ras: seq<RasEntry>,
    poly: seq<int>)

  /** Every global this file defines, as one process-wide record. */
  datatype Globals = Globals(
    thisSpdId: int,          // cos_this_spd_id
    heapPtr: Addr,           // cos_heap_ptr
    sched: SchedDataArea,    // cos_sched_notifications
    info: ComponentInfo)     // cos_comp_info

  /**
   * Lengths of the descriptor's arrays. They are fixed in a header that is not
   * part of this model; the initialisers write index 0 of each, so each holds
   * at least one element.
   */
  datatype HeaderSizes = HeaderSizes(freelistSlots: nat, polyWords: nat)

  predicate ValidSizes(sizes: HeaderSizes)
  {
    sizes.freelistSlots >= 1 && sizes.polyWords >= 1
  }

  // ---------------------------------------------------------------------
  // What "baseline" means for the scheduler notification area

  /** The kernel has not named a thread to run next. */
  predicate NoNextHint(area: SchedDataArea)
  {
    area.next.nextThdId == NoThread && area.next.nextThdFlags == 0
  }

  /** No thread holds the component lock and no thread waits for it. */
  predicate LockFree(area: SchedDataArea)
  {
    area.locks.ownerThd == NoThread && area.locks.queuedThd == NoThread
  }

  /** No event has been posted to the component. */
  predicate NoPendingEvents(area: SchedDataArea)
  {
    |area.events| == 0
  }

  predicate ZeroBaseline(area: SchedDataArea)
  {
    NoNextHint(area) && LockFree(area) && NoPendingEvents(area)
  }

  /** cos_sched_notifications as the program image holds it. */
  function InitialSchedArea(): (area: SchedDataArea)
    ensures ZeroBaseline(area)
  {
    SchedDataArea(NextHint(0, 0), LockWord(0, 0), [])
  }

  // ---------------------------------------------------------------------
  // Restartable atomic sequences

  /** The order in which the descriptor lists the regions. */
  const RasOrder: seq<AtomicRegion> := [Cmpxchg, User1, User2, User3, User4]

  /**
   * The region an entry covers, if the entry runs from some region's start
   * symbol to that same region's end symbol.
   */
  function EntryRegion(e: RasEntry): Option<AtomicRegion>
  {
    if e.start.SymbolAt? && e.start.sym.RegionStart? && e.end == SymbolAt(RegionEnd(e.start.sym.region))
    then Some(e.start.sym.region)
    else None
  }

  /** The RAS table of cos_comp_info. */
  function InitialRasTable(): (ras: seq<RasEntry>)
    ensures |ras| == |RasOrder| == 5
    ensures forall i :: 0 <= i < |ras| ==> EntryRegion(ras[i]) == Some(RasOrder[i])
  {
    [ RasEntry(SymbolAt(RegionStart(Cmpxchg)), SymbolAt(RegionEnd(Cmpxchg))),
      RasEntry(SymbolAt(RegionStart(User1)), SymbolAt(RegionEnd(User1))),
      RasEntry(SymbolAt(RegionStart(User2)), SymbolAt(RegionEnd(User2))),
      RasEntry(SymbolAt(RegionStart(User3)), SymbolAt(RegionEnd(User3))),
      RasEntry(SymbolAt(RegionStart(User4)), SymbolAt(RegionEnd(User4))) ]
  }

  /** Every atomic region has a place in the table's order. */
  lemma RasOrderCoversRegion(region: AtomicRegion)
    ensures exists i :: 0 <= i < |RasOrder| && RasOrder[i] == region
  {
    match region
    case Cmpxchg => assert RasOrder[0] == region;
    case User1 => assert RasOrder[1] == region;
    case User2 => assert RasOrder[2] == region;
    case User3 => assert RasOrder[3] == region;
    case User4 => assert RasOrder[4] == region;
  }

  /** No region is listed twice, so with the lemma above each is listed exactly once. */
  lemma RasOrderHasNoDuplicates()
    ensures forall i, j :: 0 <= i < j < |RasOrder| ==> RasOrder[i] != RasOrder[j]
  {
  }

  // ---------------------------------------------------------------------
  // The descriptor and the identity globals

  /** The descriptor's identity fields still hold the loader's placeholders. */
  predicate IdentityUnpatched(info: ComponentInfo)
  {
    info.thisSpdId == 0 && info.heapPtr == Null
  }

  /** A stack slot with no free stack and no owner. */
  predicate EmptySlot(s: StackSlot)
  {
    s.freelist == Null && s.thdId == NoThread
  }

  /** cos_comp_info as the program image holds it. */
  function InitialInfo(sizes: HeaderSizes): (info: ComponentInfo)
    requires ValidSizes(sizes)
    ensures IdentityUnpatched(info)
    ensures |info.freelists| == sizes.freelistSlots && EmptySlot(info.freelists[0])
    ensures forall k :: 0 <= k < |info.freelists| ==> EmptySlot(info.freelists[k])
    ensures |info.poly| == sizes.polyWords && forall k :: 0 <= k < |info.poly| ==> info.poly[k] == 0
    ensures info.upcallEntry == SymbolAt(UpcallEntry)
    ensures info.schedDataArea == SymbolAt(SchedNotifications)
    ensures info.userCaps == SymbolAt(UserCaps)
    ensures |info.ras| == 5
    ensures forall i :: 0 <= i < |info.ras| ==> EntryRegion(info.ras[i]) == Some(RasOrder[i])
  {
    ComponentInfo(
      0,
      Null,
      seq(sizes.freelistSlots, _ => StackSlot(Null, 0)),
      SymbolAt(UpcallEntry),
      SymbolAt(SchedNotifications),
      SymbolAt(UserCaps),
      InitialRasTable(),
      seq(sizes.polyWords, _ => 0))
  }

  /** All globals of the component as the program image holds them. */
  function InitialGlobals(sizes: HeaderSizes): (g: Globals)
    requires ValidSizes(sizes)
    ensures g.thisSpdId == 0 && g.heapPtr == Null
    ensures ZeroBaseline(g.sched)
    ensures g.info == InitialInfo(sizes)
  {
    Globals(0, Null, InitialSchedArea(), InitialInfo(sizes))
  }

  /**
   * The area the descriptor's scheduler pointer refers to, when it refers to
   * the component's own notification area.
   */
  function PublishedSchedArea(g: Globals): Option<SchedDataArea>
  {
    if g.info.schedDataArea == SymbolAt(SchedNotifications) then Some(g.sched) else None
  }

  /** The freshly loaded descriptor leads the kernel to the zeroed area. */
  lemma InitialDescriptorPublishesSchedArea(sizes: HeaderSizes)
    requires ValidSizes(sizes)
    ensures PublishedSchedArea(InitialGlobals(sizes)).Some?
    ensures ZeroBaseline(PublishedSchedArea(InitialGlobals(sizes)).value)
  {
  }

  // ---------------------------------------------------------------------
  // Region placement, an assumption about the linker

  /** Where the linker put each symbol. */
  type Layout = LinkSymbol -> int

  function Resolve(layout: Layout, a: Addr): int
  {
    match a
    case Null => 0
    case SymbolAt(s) => layout(s)
    case Foreign(n) => n
  }

  /**
   * What the kernel's restart logic expects of the linker: each region is a
   * non-empty range and distinct regions do not overlap. Nothing in the
   * runtime checks this.
   */
  predicate RegionsWellPlaced(layout: Layout)
  {
    && (forall r: AtomicRegion :: layout(RegionStart(r)) < layout(RegionEnd(r)))
    && (forall r1: AtomicRegion, r2: AtomicRegion :: r1 != r2 ==>
          layout(RegionEnd(r1)) <= layout(RegionStart(r2)) || layout(RegionEnd(r2)) <= layout(RegionStart(r1)))
  }

  predicate RangesDisjoint(layout: Layout, e1: RasEntry, e2: RasEntry)
  {
    Resolve(layout, e1.end) <= Resolve(layout, e2.start) || Resolve(layout, e2.end) <= Resolve(layout, e1.start)
  }

  /**
   * Under a well-placed layout the published table lists non-empty,
   * pairwise disjoint ranges: the table pairs each start with its own end
   * and names no region twice.
   */
  lemma RasTableWellFormed(sizes: HeaderSizes, layout: Layout)
    requires ValidSizes(sizes)
    requires RegionsWellPlaced(layout)
    ensures var ras := InitialInfo(sizes).ras;
      && (forall i :: 0 <= i < |ras| ==> Resolve(layout, ras[i].start) < Resolve(layout, ras[i].end))
      && (forall i, j :: 0 <= i < j < |ras| ==> RangesDisjoint(layout, ras[i], ras[j]))
  {
  }
}
