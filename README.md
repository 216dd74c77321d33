# EvoOS memory-management module, modelled in Dafny

This project models the EvoOS kernel module `generic/Memory_Mgmt/memory_mgmt.c` and proves
properties of the model. The module keeps two global pointers, `kernel_region` and
`user_region`. Each region struct holds an address range and a pointer to a zero-filled page
table of 1024 entries.

- **Load.** `evo_memory_init` runs `memory_management`. That calls `init_memory_management`,
  which makes four allocations in order: kernel region, kernel table, user region, user table.
  Each failure branch frees what was obtained, last first, and returns `-ENOMEM`. If init
  succeeded, `memory_management` registers a shrinker. The load reports 0 whatever happened.
- **Unload.** `evo_memory_exit` unregisters the shrinker. It then frees the user table, the user
  region, the kernel table and the kernel region through the globals, with no check at all.
- **Shrinker callbacks.** `evo_count_objects` and `evo_scan_objects` are placeholders that
  return 0.

## Structure

- `ledger.dfy`, module `Ledger`: what a module can observe of the kernel allocators.
  - A `Block` is an allocator family (`Slab` for kmalloc/kfree, `Vmalloc` for vzalloc/vfree)
    paired with an address.
  - A `Call` is one event in the kernel's log.
  - `Acquired` and `Released` give, in order, the blocks a log allocated and freed.
  - `Replay` gives the live set that a log leaves behind.
  - The lemmas relate these functions. The main one, `UnwindIsNetZero`, says that allocating
    fresh blocks and then freeing them last first leaves the live set unchanged.
- `layout.dfy`, module `Layout`: the C data model.
  - `struct evo_pte` is the datatype `Pte`, with `unsigned long` as `u64` and `unsigned int`
    as `u32`.
  - `struct evo_page_table` is an `array<Pte>` of `ENTRIES` = 1024 entries.
  - `struct evo_memory_region` is the class `MemoryRegion`, whose fields init writes in place.
- `host.dfy`, module `Host`: the kernel interface the module calls, as the class `Kernel`.
  - Its fields are the live-block ledger, the ordered log of calls and the shrinker
    registration flag.
  - Two failure oracles are fixed when the kernel is built:
    - `refused`, the set of allocation-request numbers that return NULL;
    - `registrationRefused`, whether `register_shrinker` fails.
  - `Kernel.Valid()` says the ledger is exactly what replaying the log leaves live.
  - `FirstRefused` counts how many of a run of requests succeed before the first refusal.
- `memory_mgmt.dfy`, module `MemoryMgmt`: the module itself.
  - The two globals are the fields of the class `RegionManager`.
  - `PAGE_OFFSET`, `high_memory` and `TASK_SIZE` are constructor parameters.
  - Init, load and unload are methods that update the globals and the kernel in place. The two
    callbacks are functions, since they return a constant and touch no state.
  - The pure functions `InitLog`, `LoadLog` and `ExitLog` describe the call sequences those
    methods must produce. The lemmas prove what those sequences do to the ledger.

### Unguarded teardown

Exit is modelled as an error state, not as a precondition, because the C code has no guard.
`EvoMemoryExit` returns the first undefined behaviour it meets (`Fault`), or `None` for a clean
teardown. The model stops at that point, since C promises nothing afterwards. The possible
faults are:

- a NULL dereference of a region;
- a read of the `page_table` field through a freed region;
- a `vfree` of a table that is no longer live.

Which one comes first depends on the state:

- **Init failed at one of its first three requests.** `user_region` is NULL, so line 123
  dereferences NULL.
- **Init failed at the last request.** `user_region` still points to the region that line 78
  freed, so line 123 reads freed memory. The double free of line 124 would follow.
- **Exit is called a second time.** It reads freed memory in the same way.

`ModuleLifetime` and `UnloadTwice` state these outcomes.

### Behaviour of the code worth knowing

- **Teardown has no guard.** A second unload, or an unload after a failed init, reaches
  undefined behaviour (see above).
- **A refused registration is not rolled back.** The four blocks stay allocated, the shrinker
  stays unregistered, and the load still reports 0.
- **The shrinker callbacks are placeholders.** Count reports 0 reclaimable objects and scan
  frees nothing, whatever the tables hold.
- **Rollback does not clear the globals.** After any refusal but the first, `kernel_region`
  still points to the kernel region that the rollback freed. After a refusal of the last
  request, `user_region` also points to a freed region.

## Model

| member | source | states |
|---|---|---|
| Host.FirstRefused | generic/Memory_Mgmt/memory_mgmt.c:54-82 | the number of init's requests that succeed before the first refusal: none of those is refused, and the next one is refused unless all succeed |
| Host.FirstRefusedSplit | generic/Memory_Mgmt/memory_mgmt.c:54-82 | the successful prefix of four requests is that of the kernel pair, then, only if both succeeded, that of the user pair |
| Host.Kernel.KmallocRegion | generic/Memory_Mgmt/memory_mgmt.c:54-55 | `kmalloc` of a region: NULL exactly when the oracle refuses the request; otherwise a fresh block, logged and added to the ledger |
| Host.Kernel.VzallocTable | generic/Memory_Mgmt/memory_mgmt.c:60 | `vzalloc` of a page table (here and for the user table): NULL when refused; otherwise a fresh table of 1024 all-zero entries, logged and live |
| Host.Kernel.Free | generic/Memory_Mgmt/memory_mgmt.c:123-126 | `kfree` or `vfree`: NULL is a no-op; a live block is logged and removed from the ledger; a block that is not live is reported as a double free |
| Host.Kernel.RegisterShrinker | generic/Memory_Mgmt/memory_mgmt.c:101 | `register_shrinker` returns `-ENOMEM` exactly when the registry refuses; only a success registers the shrinker; the ledger is untouched |
| Host.Kernel.UnregisterShrinker | generic/Memory_Mgmt/memory_mgmt.c:122 | afterwards the shrinker is not registered; the ledger is untouched |
| Ledger.Acquired | generic/Memory_Mgmt/memory_mgmt.c:54-82 | every block returned is one an allocation in the log handed out, and every such block is returned |
| Ledger.Released | generic/Memory_Mgmt/memory_mgmt.c:54-82 | every block returned is one a free in the log released, and every such block is returned |
| Ledger.Reverse | generic/Memory_Mgmt/memory_mgmt.c:61-81 | same length, with element i being element n-1-i of the input (the rollback order) |
| Ledger.UnwindIsNetZero | generic/Memory_Mgmt/memory_mgmt.c:54-82 | allocating fresh blocks, making calls that neither allocate nor free, then freeing the blocks last first leaves the live set as it was |
| MemoryMgmt.InitLogUnwinds | generic/Memory_Mgmt/memory_mgmt.c:51-85 | init's calls are the successful allocations in request order, then, unless all four succeeded, the refused request and the frees of everything obtained, last first |
| MemoryMgmt.InitLogFailure | generic/Memory_Mgmt/memory_mgmt.c:54-82 | a failed init acquires its blocks in request order, releases exactly those blocks in reverse order, and leaves the ledger as it found it |
| MemoryMgmt.InitLogSuccess | generic/Memory_Mgmt/memory_mgmt.c:51-84 | a successful init acquires exactly its four blocks, releases nothing, and adds exactly those blocks to the ledger |
| MemoryMgmt.LoadLogLedger | generic/Memory_Mgmt/memory_mgmt.c:94-105 | whether or not registration is refused, a load releases no more than init did and leaves the four blocks live exactly when init succeeded |
| MemoryMgmt.ExitLogFrees | generic/Memory_Mgmt/memory_mgmt.c:122-126 | a clean teardown unregisters the shrinker, then frees user table, user region, kernel table, kernel region, which is init's blocks last first |
| MemoryMgmt.ExitReleasesInitReversed | generic/Memory_Mgmt/memory_mgmt.c:122-126 | the teardown after a successful init releases exactly init's blocks, in the reverse of their acquisition order |
| MemoryMgmt.ExitUndoesInit | generic/Memory_Mgmt/memory_mgmt.c:118-127 | init followed by a clean teardown leaves the ledger as it was before init |
| MemoryMgmt.CountObjects | generic/Memory_Mgmt/memory_mgmt.c:129-133 | the count callback reports 0 reclaimable objects |
| MemoryMgmt.ScanObjects | generic/Memory_Mgmt/memory_mgmt.c:135-139 | the scan callback frees nothing, so no more than requested and no more than the count reported |
| MemoryMgmt.RegionManager.constructor | generic/Memory_Mgmt/memory_mgmt.c:33-34 | the static globals start NULL |
| MemoryMgmt.RegionManager.InitMemoryManagement | generic/Memory_Mgmt/memory_mgmt.c:51-85 | ret is 0 exactly when all four requests succeed, else `-ENOMEM`; the calls made are InitLog; on success both regions and tables are live with their bounds and zeroed 1024-entry tables and exactly four blocks were added; on failure the ledger is unchanged; after a refusal of request 1 `kernel_region` is NULL, after a refusal of requests 2-4 it points to the freed kernel region, `user_region` is untouched after a refusal of request 1 or 2, NULL after a refusal of request 3, and points to the freed user region after a refusal of request 4 |
| MemoryMgmt.RegionManager.InitUserRegion | generic/Memory_Mgmt/memory_mgmt.c:66-82 | the user half of init; when it fails, the kernel table and the kernel region are freed through the global, after the user region |
| MemoryMgmt.RegionManager.AllocateRegion | generic/Memory_Mgmt/memory_mgmt.c:54-64 | kmalloc a region, set its bounds, vzalloc its table, and kfree the region if the table is refused; the first refusal ends it with `-ENOMEM` and the ledger as it was |
| MemoryMgmt.RegionManager.MemoryManagement | generic/Memory_Mgmt/memory_mgmt.c:88-108 | init, then registration only after a successful init (LoadLeft); the calls made are LoadLog and the request count grows by the requests init made; a refused registration leaves the four blocks live and the shrinker unregistered; after a failed init the ledger is unchanged, `kernel_region` is NULL after a refusal of request 1 and points to the freed kernel region after a refusal of requests 2-4, and `user_region` is untouched, NULL or freed as init left it |
| MemoryMgmt.RegionManager.EvoMemoryInit | generic/Memory_Mgmt/memory_mgmt.c:111-116 | the load reports 0 whatever init and registration did, and leaves everything else as `memory_management` does (LoadLeft) |
| MemoryMgmt.RegionManager.ReleaseRegion | generic/Memory_Mgmt/memory_mgmt.c:123-126 | `vfree(region->page_table); kfree(region)`, or the first undefined behaviour on the way: NULL region, freed region, or freed table |
| MemoryMgmt.RegionManager.EvoMemoryExit | generic/Memory_Mgmt/memory_mgmt.c:118-127 | unregisters the shrinker, then releases the user region and then the kernel region; clean exactly when both regions are live and each table is NULL or live, and then the ledger loses exactly the two regions and their non-NULL tables |
| MemoryMgmt.ModuleLifetime | generic/Memory_Mgmt/memory_mgmt.c:111-127 | load then unload: load returns 0; after a successful init the unload is clean and the ledger is back where it started; after a failed init the unload dereferences NULL (refusal at steps 1-3) or reads freed memory (refusal at step 4) |
| MemoryMgmt.UnloadTwice | generic/Memory_Mgmt/memory_mgmt.c:118-127 | a second unload after a clean one reads the freed user region |

## Left out

- `printk`: logging with no behaviour to state.
- The `MODULE_*`, `module_init` and `module_exit` macros: host-runtime glue. `ModuleLifetime` stands in for one load followed by one unload.
- The allocators' internals: `kmalloc`, `vzalloc`, `kfree` and `vfree` are an abstract ledger with a failure oracle over request numbers. Allocation sizes are not modelled.
- Address reuse: the model's allocator always returns a fresh address and never reuses one that was freed, while `kmalloc` and `vzalloc` may. No stated property depends on this, since within one load and unload no allocation follows a free.
- The contents of memory that `kmalloc` returns: the region's fields start arbitrary, since the model's constructor leaves them unset, and init overwrites all three.
- The internals of `register_shrinker` and `unregister_shrinker`: a registration flag whose registration may be refused. `struct shrinker`'s `seeks` field is not modelled.
- Host.Kernel.UnregisterShrinker: unregistering a shrinker that was never registered is modelled as a no-op. Whether it is one depends on the kernel version, which falls outside this model.
- The values of `PAGE_OFFSET`, `high_memory` and `TASK_SIZE`: architecture constants, taken as parameters.
- The shrinker callbacks' `struct shrinker *` argument: it is unused. Of `struct shrink_control`, only `gfp_mask`, `nid` and `nr_to_scan` are kept; the other fields, such as `memcg` and `nr_scanned`, are not modelled, since the placeholder callbacks read none of them.
- Every undefined behaviour after the first: the model stops there and reports which one it was.
- Concurrency, and the kernel invoking the callbacks: the module has no locking, and the placeholder callbacks touch no state.
- `File_Systems/evo_fs.c` is not part of this model: it holds only operation-table and registration boilerplate.
- `dlkm_support.c` is not part of this model: it holds only load and unload log messages.
- `generic/Device_Drivers/device_drivers.c` is not part of this model: it holds only a driver callback table.
- MemoryMgmt.RegionManager.InitMemoryManagement: it states that four blocks were added as the set of the four blocks init acquired, not as a count.
