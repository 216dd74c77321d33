/**
 * The EvoOS memory-management module: a kernel region and a user region, each
 * with a 1024-entry page table, built on module load, released on module unload,
 * and a shrinker whose two callbacks are placeholders.
 *
 * The module's globals `kernel_region` and `user_region` are the fields of a
 * RegionManager; the kernel it runs in is a Host.Kernel, whose log records every
 * allocator and shrinker call, so that what a call acquired and released, and in
 * which order, can be stated exactly.
 */
module MemoryMgmt {
  import opened Ledger
  import opened Layout
  import opened Host

  datatype Option<T> = None | Some(value: T)

  /** The undefined behaviour the unguarded teardown can reach first. */
  datatype Fault = NullDereference | UseAfterFree | DoubleFree

  /** `struct shrink_control`, as far as a shrinker callback may read it. */
  datatype ShrinkControl = ShrinkControl(gfpMask: u32, nid: int, nrToScan: u64)

  /** The allocator families of init's four requests: kernel region, its table, user region, its table. */
  const InitKinds: seq<Kind> := [Slab, Vmalloc, Slab, Vmalloc]

  /** The blocks init acquired, given the addresses its successful requests returned, in order. */
  function InitBlocks(acquired: seq<object>): seq<Block>
    requires |acquired| <= 4
  {
    seq(|acquired|, i requires 0 <= i < |acquired| => Block(InitKinds[i], acquired[i]))
  }

  /**
   * The calls of allocating one region and its table when the successful requests
   * returned `acquired`: a refused region; a refused table, after which the region
   * is freed; or both allocated.
   */
  function RegionLog(acquired: seq<object>): seq<Call>
    requires |acquired| <= 2
  {
    if |acquired| == 0 then [Refused(Slab)]
    else if |acquired| == 1 then [Allocated(Block(Slab, acquired[0])), Refused(Vmalloc), Freed(Block(Slab, acquired[0]))]
    else [Allocated(Block(Slab, acquired[0])), Allocated(Block(Vmalloc, acquired[1]))]
  }

  /**
   * The calls `init_memory_management` makes when its successful requests returned
   * `acquired`: the kernel region's allocation; if that succeeded, the user
   * region's; if that failed, the release of the kernel region and its table.
   */
  function InitLog(acquired: seq<object>): seq<Call>
    requires |acquired| <= 4
  {
    if |acquired| < 2 then RegionLog(acquired)
    else RegionLog(acquired[..2]) + RegionLog(acquired[2..])
         + if |acquired| < 4 then ReleaseLog(acquired[0], acquired[1]) else []
  }

  /** The calls `memory_management` makes: init, then registration if init succeeded. */
  function LoadLog(acquired: seq<object>, registrationRefused: bool): seq<Call>
    requires |acquired| <= 4
  {
    InitLog(acquired)
      + if |acquired| < 4 then []
        else [if registrationRefused then ShrinkerRefused else ShrinkerRegistered]
  }

  /** Releasing one region: `vfree` of its table (nothing when NULL), then `kfree` of the region. */
  function ReleaseLog(region: object, table: object?): seq<Call>
  {
    (if table == null then [] else [Freed(Block(Vmalloc, table))]) + [Freed(Block(Slab, region))]
  }

  /** The blocks of one region and of its table (none for a NULL table). */
  function RegionBlocks(region: object, table: object?): set<Block>
  {
    {Block(Slab, region)} + if table == null then {} else {Block(Vmalloc, table)}
  }

  /** The calls of a teardown that meets no undefined behaviour. */
  function ExitLog(kernelRegion: object, kernelTable: object?, userRegion: object, userTable: object?): seq<Call>
  {
    [ShrinkerUnregistered] + ReleaseLog(userRegion, userTable) + ReleaseLog(kernelRegion, kernelTable)
  }

  /** The four blocks of a successful init. */
  lemma InitBlocksFour(acquired: seq<object>)
    requires |acquired| == 4
    ensures Elements(InitBlocks(acquired))
         == {Block(Slab, acquired[0]), Block(Vmalloc, acquired[1]), Block(Slab, acquired[2]), Block(Vmalloc, acquired[3])}
  {
    var bs := InitBlocks(acquired);
    assert bs == [Block(Slab, acquired[0]), Block(Vmalloc, acquired[1]), Block(Slab, acquired[2]), Block(Vmalloc, acquired[3])];
  }

  /**
   * Init's calls are an unwinding: the successful requests' allocations in
   * request order; then, unless all four succeeded, the refused request and the
   * release of everything obtained, last first.
   */
  lemma InitLogUnwinds(acquired: seq<object>)
    requires |acquired| <= 4
    ensures var bs := InitBlocks(acquired);
      InitLog(acquired) == Allocations(bs) + if |bs| == 4 then [] else [Refused(InitKinds[|bs|])] + Frees(Reverse(bs))
  {
    var bs := InitBlocks(acquired);
    var r := Reverse(bs);
    assert |r| == |bs|;
    if |bs| == 1 {
      assert r == [bs[0]];
    } else if |bs| == 2 {
      assert r == [bs[1], bs[0]];
      assert acquired[..2] == acquired;
    } else if |bs| == 3 {
      assert r == [bs[2], bs[1], bs[0]];
      assert acquired[2..] == [acquired[2]];
    } else if |bs| == 4 {
      assert acquired[2..] == [acquired[2], acquired[3]];
    }
  }

  /**
   * A failed init acquires its blocks in request order, releases them in the
   * reverse order and leaves the ledger as it found it.
   */
  lemma InitLogFailure(live: set<Block>, acquired: seq<object>)
    requires |acquired| < 4
    requires forall b :: b in InitBlocks(acquired) ==> b !in live
    ensures Acquired(InitLog(acquired)) == InitBlocks(acquired)
    ensures Released(InitLog(acquired)) == Reverse(Acquired(InitLog(acquired)))
    ensures Replay(live, InitLog(acquired)) == live
  {
    var bs := InitBlocks(acquired);
    var refusal := [Refused(InitKinds[|bs|])];
    InitLogUnwinds(acquired);
    assert InitLog(acquired) == Allocations(bs) + refusal + Frees(Reverse(bs));
    AcquiredAppend(Allocations(bs) + refusal, Frees(Reverse(bs)));
    AcquiredAppend(Allocations(bs), refusal);
    ReleasedAppend(Allocations(bs) + refusal, Frees(Reverse(bs)));
    ReleasedAppend(Allocations(bs), refusal);
    AllocationsAcquire(bs);
    FreesRelease(Reverse(bs));
    assert Acquired(refusal) == [] && Released(refusal) == [];
    UnwindIsNetZero(live, bs, refusal);
  }

  /** A successful init acquires four blocks, releases none, and they are all live afterwards. */
  lemma InitLogSuccess(live: set<Block>, acquired: seq<object>)
    requires |acquired| == 4
    ensures Acquired(InitLog(acquired)) == InitBlocks(acquired)
    ensures Released(InitLog(acquired)) == []
    ensures Replay(live, InitLog(acquired)) == live + Elements(InitBlocks(acquired))
  {
    var bs := InitBlocks(acquired);
    assert InitLog(acquired) == Allocations(bs) by {
      InitLogUnwinds(acquired);
    }
    AllocationsAcquire(bs);
    ReplayAllocations(live, bs);
  }

  /**
   * Whether or not the shrinker registration is refused, a load leaves exactly
   * the blocks of a successful init live: a refused registration releases nothing.
   */
  lemma LoadLogLedger(live: set<Block>, acquired: seq<object>, registrationRefused: bool)
    requires |acquired| <= 4
    requires forall b :: b in InitBlocks(acquired) ==> b !in live
    ensures Released(LoadLog(acquired, registrationRefused)) == Released(InitLog(acquired))
    ensures Replay(live, LoadLog(acquired, registrationRefused))
         == if |acquired| == 4 then live + Elements(InitBlocks(acquired)) else live
  {
    var tail := if |acquired| < 4 then []
                else [if registrationRefused then ShrinkerRefused else ShrinkerRegistered];
    ReleasedAppend(InitLog(acquired), tail);
    ReplayAppend(live, InitLog(acquired), tail);
    InertCalls(Replay(live, InitLog(acquired)), tail);
    if |acquired| == 4 {
      InitLogSuccess(live, acquired);
    } else {
      InitLogFailure(live, acquired);
    }
  }

  /** A clean teardown of init's four blocks unregisters the shrinker, then frees the blocks last first. */
  lemma ExitLogFrees(acquired: seq<object>)
    requires |acquired| == 4
    ensures ExitLog(acquired[0], acquired[1], acquired[2], acquired[3])
         == [ShrinkerUnregistered] + Frees(Reverse(InitBlocks(acquired)))
  {
    var bs := InitBlocks(acquired);
    assert Reverse(bs) == [bs[3], bs[2], bs[1], bs[0]];
  }

  /**
   * Teardown after a successful init releases exactly the four blocks init
   * acquired, in the reverse of their acquisition order.
   */
  lemma ExitReleasesInitReversed(acquired: seq<object>)
    requires |acquired| == 4
    ensures Released(ExitLog(acquired[0], acquired[1], acquired[2], acquired[3]))
         == Reverse(Acquired(InitLog(acquired)))
  {
    var bs := InitBlocks(acquired);
    ExitLogFrees(acquired);
    ReleasedAppend([ShrinkerUnregistered], Frees(Reverse(bs)));
    FreesRelease(Reverse(bs));
    InitLogSuccess({}, acquired);
  }

  /** Teardown after a successful init brings the ledger back to what it was before init. */
  lemma ExitUndoesInit(live: set<Block>, acquired: seq<object>)
    requires |acquired| == 4
    requires forall b :: b in InitBlocks(acquired) ==> b !in live
    ensures Replay(Replay(live, InitLog(acquired)), ExitLog(acquired[0], acquired[1], acquired[2], acquired[3]))
         == live
  {
    var bs := InitBlocks(acquired);
    var exit := [ShrinkerUnregistered] + Frees(Reverse(bs));
    ExitLogFrees(acquired);
    assert InitLog(acquired) == Allocations(bs) by {
      InitLogUnwinds(acquired);
    }
    ReplayAppend(live, Allocations(bs), exit);
    assert Allocations(bs) + exit == Allocations(bs) + [ShrinkerUnregistered] + Frees(Reverse(bs));
    UnwindIsNetZero(live, bs, [ShrinkerUnregistered]);
  }

  /** `evo_count_objects`: a placeholder that reports nothing reclaimable. */
  function CountObjects(sc: ShrinkControl): (freeable: u64)
    ensures freeable == 0
  {
    0
  }

  /**
   * `evo_scan_objects`: a placeholder that reclaims nothing. It keeps the
   * shrinker contract: it frees no more than it was asked to scan and no more
   * than the count callback reported.
   */
  function ScanObjects(sc: ShrinkControl): (freed: u64)
    ensures freed <= sc.nrToScan
    ensures freed <= CountObjects(sc)
  {
    0
  }

  class RegionManager {
    /** The kernel the module runs in. */
    const kernel: Kernel
    /** The architecture's `PAGE_OFFSET`, `high_memory` and `TASK_SIZE`. */
    const pageOffset: u64
    const highMemory: u64
    const taskSize: u64

    /** The globals `kernel_region` and `user_region`. */
    var kernelRegion: MemoryRegion?
    var userRegion: MemoryRegion?

    /** The kernel's ledger is consistent, and the two regions, and their tables, are not aliases. */
    ghost predicate Valid()
      reads this, kernel, kernelRegion, userRegion
    {
      && kernel.Valid()
      && (kernelRegion != null && userRegion != null ==>
            && kernelRegion != userRegion
            && (kernelRegion.pageTable != null && userRegion.pageTable != null ==>
                  kernelRegion.pageTable != userRegion.pageTable))
    }

    /** The module is loaded: both regions and both tables are live blocks, each table of ENTRIES entries. */
    ghost predicate Constructed()
      reads this, kernel, kernelRegion, userRegion
    {
      && kernelRegion != null && userRegion != null
      && kernelRegion.pageTable != null && userRegion.pageTable != null
      && Block(Slab, kernelRegion) in kernel.live && Block(Vmalloc, kernelRegion.pageTable) in kernel.live
      && Block(Slab, userRegion) in kernel.live && Block(Vmalloc, userRegion.pageTable) in kernel.live
      && kernelRegion.pageTable.Length == ENTRIES && userRegion.pageTable.Length == ENTRIES
    }

    /** The two page tables, where the regions point to one. */
    ghost function Tables(): set<object>
      reads this, kernelRegion, userRegion
    {
      (if kernelRegion != null && kernelRegion.pageTable != null then {kernelRegion.pageTable as object} else {})
      + (if userRegion != null && userRegion.pageTable != null then {userRegion.pageTable as object} else {})
    }

    /**
     * As a successful init leaves the module: constructed, the kernel region spanning
     * `PAGE_OFFSET..high_memory`, the user region `0..TASK_SIZE`, every entry zero.
     */
    ghost predicate Initialised()
      reads this, kernel, kernelRegion, userRegion, Tables()
    {
      && Constructed()
      && kernelRegion.startAddress == pageOffset && kernelRegion.endAddress == highMemory
      && userRegion.startAddress == 0 && userRegion.endAddress == taskSize
      && Zeroed(kernelRegion.pageTable[..]) && Zeroed(userRegion.pageTable[..])
    }

    /**
     * What allocating a region and its table left in `region` when its successful
     * requests returned `acquired`: NULL; a region with its bounds and a NULL table;
     * or a region with its bounds and its table.
     */
    ghost predicate RegionHolds(region: MemoryRegion?, acquired: seq<object>, start: u64, end: u64)
      reads region
    {
      if |acquired| == 0 then region == null
      else && region != null && region == acquired[0]
           && region.startAddress == start && region.endAddress == end
           && region.pageTable == (if |acquired| == 1 then null else acquired[1])
    }

    /**
     * The undefined behaviour releasing `region` meets first: reading its table
     * pointer through NULL or through freed memory, or `vfree` of a table that is
     * no longer live.
     */
    ghost function RegionFault(region: MemoryRegion?): Option<Fault>
      reads kernel, region
    {
      if region == null then Some(NullDereference)
      else if Block(Slab, region) !in kernel.live then Some(UseAfterFree)
      else if region.pageTable != null && Block(Vmalloc, region.pageTable) !in kernel.live then Some(DoubleFree)
      else None
    }

    /** The undefined behaviour the teardown meets first: the user region is released before the kernel region. */
    ghost function ExitFault(): Option<Fault>
      reads this, kernel, kernelRegion, userRegion
    {
      if RegionFault(userRegion).Some? then RegionFault(userRegion) else RegionFault(kernelRegion)
    }

    /** Static storage starts zeroed: both globals are NULL. */
    constructor (kernel: Kernel, pageOffset: u64, highMemory: u64, taskSize: u64)
      requires kernel.Valid()
      ensures Valid()
      ensures this.kernel == kernel && this.pageOffset == pageOffset
      ensures this.highMemory == highMemory && this.taskSize == taskSize
      ensures kernelRegion == null && userRegion == null
    {
      this.kernel := kernel;
      this.pageOffset := pageOffset;
      this.highMemory := highMemory;
      this.taskSize := taskSize;
      kernelRegion := null;
      userRegion := null;
    }

    /**
     * What `init_memory_management` leaves behind when its successful requests
     * returned `acquired`, given the log `log0`, the live blocks `live0` and the
     * user global `user0` it started from: its return value and calls; the four
     * blocks live on success and the ledger as it was on failure; what the globals
     * hold; and, on failure, the globals left pointing to freed regions.
     */
    ghost predicate InitLeft(ret: int, acquired: seq<object>, log0: seq<Call>, live0: set<Block>, user0: MemoryRegion?)
      reads this, kernel, kernelRegion, userRegion, Tables()
    {
      && |acquired| <= 4
      && ret == (if |acquired| == 4 then 0 else -ENOMEM)
      && kernel.log == log0 + InitLog(acquired)
      && (forall b :: b in InitBlocks(acquired) ==> b !in live0)
      && kernel.live == (if |acquired| == 4 then live0 + Elements(InitBlocks(acquired)) else live0)
      && (|acquired| < 2 ==> RegionHolds(kernelRegion, acquired, pageOffset, highMemory) && userRegion == user0)
      && (|acquired| >= 2 ==> RegionHolds(kernelRegion, acquired[..2], pageOffset, highMemory))
      && (|acquired| >= 2 ==> RegionHolds(userRegion, acquired[2..], 0, taskSize))
      && (|acquired| == 4 ==> Initialised())
      && (1 <= |acquired| < 4 ==> kernelRegion != null && Block(Slab, kernelRegion) !in kernel.live)
      && (|acquired| == 3 ==> userRegion != null && Block(Slab, userRegion) !in kernel.live)
    }

    /**
     * `init_memory_management`. Its four requests are the kernel region, its table,
     * the user region and its table; `acquired` are the addresses the successful
     * ones returned. The first refused request ends init with `-ENOMEM` after
     * everything obtained so far is freed, last first; the globals keep the
     * addresses they were given.
     */
    method InitMemoryManagement() returns (ret: int, ghost acquired: seq<object>)
      requires Valid()
      modifies this, kernel
      ensures Valid()
      ensures |acquired| == FirstRefused(kernel.refused, old(kernel.requests), 4)
      ensures kernel.requests == old(kernel.requests) + (if |acquired| == 4 then 4 else |acquired| + 1)
      ensures kernel.shrinkerRegistered == old(kernel.shrinkerRegistered)
      ensures InitLeft(ret, acquired, old(kernel.log), old(kernel.live), old(userRegion))
    {
      ghost var base := kernel.requests;
      ghost var log0 := kernel.log;
      ghost var live0 := kernel.live;
      var k, kret, kAcq := AllocateRegion(pageOffset, highMemory);
      kernelRegion := k;
      FirstRefusedSplit(kernel.refused, base, 2, 2);
      if kret != 0 {
        ret, acquired := -ENOMEM, kAcq;
        return;
      }
      ret, acquired := InitUserRegion(kAcq, log0, live0, old(userRegion));
    }

    /**
     * The user half of init, from `user_region = kmalloc(...)` on, once the kernel
     * half has succeeded with `kAcq`. When it fails, the kernel region and its table
     * are released through the global.
     */
    method InitUserRegion(ghost kAcq: seq<object>, ghost log0: seq<Call>, ghost live0: set<Block>, ghost user0: MemoryRegion?)
      returns (ret: int, ghost acquired: seq<object>)
      requires Valid()
      requires |kAcq| == 2 && RegionHolds(kernelRegion, kAcq, pageOffset, highMemory)
      requires kernelRegion.pageTable.Length == ENTRIES && Zeroed(kernelRegion.pageTable[..])
      requires kernel.log == log0 + RegionLog(kAcq)
      requires Block(Slab, kernelRegion) !in live0 && Block(Vmalloc, kernelRegion.pageTable) !in live0
      requires kernel.live == live0 + RegionBlocks(kernelRegion, kernelRegion.pageTable)
      modifies this, kernel
      ensures Valid()
      ensures |acquired| == 2 + FirstRefused(kernel.refused, old(kernel.requests), 2)
      ensures kernel.requests == old(kernel.requests) + (if |acquired| == 4 then 2 else |acquired| - 1)
      ensures kernel.shrinkerRegistered == old(kernel.shrinkerRegistered)
      ensures InitLeft(ret, acquired, log0, live0, user0)
    {
      var u, uret, uAcq := AllocateRegion(0, taskSize);
      userRegion := u;
      acquired := kAcq + uAcq;
      assert acquired[..2] == kAcq && acquired[2..] == uAcq;
      if uret != 0 {
        var fault := ReleaseRegion(kernelRegion);
        assert fault == None;
        return -ENOMEM, acquired;
      }
      ret := 0;
      InitBlocksFour(acquired);
    }

    /**
     * The two halves of init repeat one shape: `kmalloc` a region, set its bounds,
     * `vzalloc` its table and, when the table is refused, `kfree` the region.
     * `acquired` are the addresses the successful requests returned.
     */
    method AllocateRegion(start: u64, end: u64) returns (r: MemoryRegion?, ret: int, ghost acquired: seq<object>)
      requires kernel.Valid()
      modifies kernel
      ensures kernel.Valid()
      ensures |acquired| == FirstRefused(kernel.refused, old(kernel.requests), 2)
      ensures kernel.requests == old(kernel.requests) + (if |acquired| == 2 then 2 else |acquired| + 1)
      ensures kernel.shrinkerRegistered == old(kernel.shrinkerRegistered)
      ensures ret == (if |acquired| == 2 then 0 else -ENOMEM)
      ensures RegionHolds(r, acquired, start, end)
      ensures kernel.log == old(kernel.log) + RegionLog(acquired)
      ensures |acquired| < 2 ==> kernel.live == old(kernel.live)
      ensures |acquired| >= 1 ==> fresh(r)
      ensures |acquired| == 1 ==> Block(Slab, r) !in kernel.live
      ensures |acquired| == 2 ==> fresh(r.pageTable)
      ensures |acquired| == 2 ==> r.pageTable.Length == ENTRIES && Zeroed(r.pageTable[..])
      ensures |acquired| == 2 ==> Block(Slab, r) !in old(kernel.live) && Block(Vmalloc, r.pageTable) !in old(kernel.live)
      ensures |acquired| == 2 ==> kernel.live == old(kernel.live) + RegionBlocks(r, r.pageTable)
    {
      r := kernel.KmallocRegion();
      if r == null {
        return null, -ENOMEM, [];
      }
      r.startAddress := start;
      r.endAddress := end;
      var t := kernel.VzallocTable();
      r.pageTable := t;
      if t == null {
        var doubleFree := kernel.Free(Slab, r);
        return r, -ENOMEM, [r];
      }
      ret, acquired := 0, [r, t];
    }

    /**
     * What a load (`memory_management`, and so `evo_memory_init`) leaves behind when
     * init's successful requests returned `acquired`, given the request count
     * `requests0`, log `log0`, live blocks `live0`, user global `user0` and shrinker
     * flag `registered0` it started from: the calls made; the four blocks live after
     * a successful init, whatever registration did, and the ledger as it was after a
     * failed one; the shrinker registered only when init and registration both
     * succeeded; and what the globals hold.
     */
    ghost predicate LoadLeft(acquired: seq<object>, requests0: nat, log0: seq<Call>, live0: set<Block>,
                             user0: MemoryRegion?, registered0: bool)
      reads this, kernel, kernelRegion, userRegion, Tables()
    {
      && |acquired| == FirstRefused(kernel.refused, requests0, 4)
      && kernel.requests == requests0 + (if |acquired| == 4 then 4 else |acquired| + 1)
      && kernel.log == log0 + LoadLog(acquired, kernel.registrationRefused)
      && (forall b :: b in InitBlocks(acquired) ==> b !in live0)
      && kernel.live == (if |acquired| == 4 then live0 + Elements(InitBlocks(acquired)) else live0)
      && kernel.shrinkerRegistered
           == (if |acquired| == 4 then registered0 || !kernel.registrationRefused else registered0)
      && (|acquired| == 0 ==> kernelRegion == null)
      && (1 <= |acquired| < 4 ==> kernelRegion != null && Block(Slab, kernelRegion) !in kernel.live)
      && (|acquired| < 2 ==> userRegion == user0)
      && (|acquired| == 2 ==> userRegion == null)
      && (|acquired| == 3 ==> userRegion != null && Block(Slab, userRegion) !in kernel.live)
      && (|acquired| == 4 ==> Initialised())
      && (|acquired| == 4 ==> acquired == [kernelRegion, kernelRegion.pageTable, userRegion, userRegion.pageTable])
    }

    /**
     * `memory_management`: init, then, only if init succeeded, shrinker
     * registration. A refused registration is only logged: the regions stay
     * allocated and nothing is reported to the caller.
     */
    method MemoryManagement() returns (ghost acquired: seq<object>)
      requires Valid()
      modifies this, kernel
      ensures Valid()
      ensures LoadLeft(acquired, old(kernel.requests), old(kernel.log), old(kernel.live),
                       old(userRegion), old(kernel.shrinkerRegistered))
    {
      var ret;
      ret, acquired := InitMemoryManagement();
      if ret != 0 {
        assert InitLog(acquired) == LoadLog(acquired, kernel.registrationRefused);
        return;
      }
      ret := kernel.RegisterShrinker();
      if ret != 0 {
        return;
      }
    }

    /** `evo_memory_init`, the module's load entry point: it reports success whatever happened. */
    method EvoMemoryInit() returns (ret: int, ghost acquired: seq<object>)
      requires Valid()
      modifies this, kernel
      ensures Valid()
      ensures ret == 0
      ensures LoadLeft(acquired, old(kernel.requests), old(kernel.log), old(kernel.live),
                       old(userRegion), old(kernel.shrinkerRegistered))
    {
      acquired := MemoryManagement();
      ret := 0;
    }

    /** One half of the teardown: `vfree(region->page_table); kfree(region);`. */
    method ReleaseRegion(region: MemoryRegion?) returns (fault: Option<Fault>)
      requires kernel.Valid()
      modifies kernel
      ensures kernel.Valid()
      ensures kernel.requests == old(kernel.requests)
      ensures kernel.shrinkerRegistered == old(kernel.shrinkerRegistered)
      ensures fault == old(RegionFault(region))
      ensures fault.Some? ==> kernel.log == old(kernel.log) && kernel.live == old(kernel.live)
      ensures fault == None ==> kernel.log == old(kernel.log) + ReleaseLog(region, region.pageTable)
      ensures fault == None ==> kernel.live == old(kernel.live) - RegionBlocks(region, region.pageTable)
    {
      if region == null {
        return Some(NullDereference);
      }
      if !kernel.IsLive(Block(Slab, region)) {
        return Some(UseAfterFree);
      }
      var doubleFree := kernel.Free(Vmalloc, region.pageTable);
      if doubleFree {
        return Some(DoubleFree);
      }
      doubleFree := kernel.Free(Slab, region);
      assert !doubleFree;
      fault := None;
    }

    /**
     * `evo_memory_exit`, the module's unload entry point. It has no guard: it
     * unregisters the shrinker, then releases the user region and then the kernel
     * region through the globals whatever they hold. The model stops at the first
     * undefined behaviour and returns it; after that, C promises nothing.
     */
    method EvoMemoryExit() returns (fault: Option<Fault>)
      requires Valid()
      modifies kernel
      ensures Valid()
      ensures kernel.requests == old(kernel.requests)
      ensures !kernel.shrinkerRegistered
      ensures fault == old(ExitFault())
      ensures old(Constructed()) ==> fault == None
      ensures fault == None ==>
        kernel.log == old(kernel.log) + ExitLog(kernelRegion, kernelRegion.pageTable, userRegion, userRegion.pageTable)
      ensures fault == None ==>
        kernel.live == old(kernel.live) - RegionBlocks(userRegion, userRegion.pageTable)
                                        - RegionBlocks(kernelRegion, kernelRegion.pageTable)
      ensures fault.Some? && old(RegionFault(userRegion)).Some? ==>
        kernel.log == old(kernel.log) + [ShrinkerUnregistered] && kernel.live == old(kernel.live)
      ensures fault.Some? && old(RegionFault(userRegion)) == None ==>
        kernel.log == old(kernel.log) + [ShrinkerUnregistered] + ReleaseLog(userRegion, userRegion.pageTable)
    {
      kernel.UnregisterShrinker();
      fault := ReleaseRegion(userRegion);
      if fault.Some? {
        return;
      }
      fault := ReleaseRegion(kernelRegion);
    }
  }

  /**
   * One lifetime of the module as the host runs it: load (`module_init`), then
   * unload (`module_exit`), starting from zeroed globals. The load always reports
   * success. After a successful init the unload is clean and the ledger is back
   * where it started; after a failed init the unload always reaches undefined
   * behaviour: a NULL user region when one of the first three requests was
   * refused, a freed one when the last was.
   */
  method ModuleLifetime(m: RegionManager) returns (loadRet: int, fault: Option<Fault>)
    requires m.Valid() && m.kernelRegion == null && m.userRegion == null
    modifies m, m.kernel
    ensures var step := FirstRefused(m.kernel.refused, old(m.kernel.requests), 4);
      && loadRet == 0
      && (step == 4 ==> fault == None && m.kernel.live == old(m.kernel.live))
      && (step < 3 ==> fault == Some(NullDereference))
      && (step == 3 ==> fault == Some(UseAfterFree))
  {
    ghost var acquired;
    loadRet, acquired := m.EvoMemoryInit();
    if |acquired| == 4 {
      InitBlocksFour(acquired);
    }
    fault := m.EvoMemoryExit();
  }

  /** The teardown has no guard: a second call after a clean one reads freed memory. */
  method UnloadTwice(m: RegionManager) returns (first: Option<Fault>, second: Option<Fault>)
    requires m.Valid() && m.Constructed()
    modifies m.kernel
    ensures first == None && second == Some(UseAfterFree)
  {
    first := m.EvoMemoryExit();
    second := m.EvoMemoryExit();
  }
}
