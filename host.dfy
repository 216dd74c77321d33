/**
 * The kernel services the memory-management module calls: the slab and vmalloc
 * allocators and the shrinker registry. Their internals are foreign; the model
 * keeps what the module can observe of them: a ledger of live blocks, an ordered
 * log of every call, and two failure oracles chosen when the kernel is set up,
 * the allocation requests that return NULL and whether registration is refused.
 */
module Host {
  import opened Ledger
  import opened Layout

  /** Linux's `ENOMEM`. */
  const ENOMEM: int := 12

  /**
   * Of the `n` allocation requests numbered `base`, `base + 1`, ..., the number
   * that succeed before the first one the allocator refuses (`n` if none is refused).
   */
  function FirstRefused(refused: set<nat>, base: nat, n: nat): (k: nat)
    ensures k <= n
    ensures forall i :: base <= i < base + k ==> i !in refused
    ensures k < n ==> base + k in refused
    decreases n
  {
    if n == 0 || base in refused then 0 else 1 + FirstRefused(refused, base + 1, n - 1)
  }

  /** Counting the refusal-free prefix of `n + m` requests: first the `n`, then, if all succeed, the `m`. */
  lemma {:induction false} FirstRefusedSplit(refused: set<nat>, base: nat, n: nat, m: nat)
    ensures FirstRefused(refused, base, n + m)
         == if FirstRefused(refused, base, n) < n then FirstRefused(refused, base, n)
            else n + FirstRefused(refused, base + n, m)
    decreases n
  {
    if n > 0 && base !in refused {
      FirstRefusedSplit(refused, base + 1, n - 1, m);
      assert n + m - 1 == (n - 1) + m;
    }
  }

  class Kernel {
    /** Failure oracle: the allocation requests (numbered from 0) that return NULL. */
    const refused: set<nat>
    /** Failure oracle: whether `register_shrinker` fails. */
    const registrationRefused: bool

    /** Number of allocation requests made so far. */
    var requests: nat
    /** The blocks currently allocated to the module. */
    var live: set<Block>
    /** Every call the module made, in order. */
    var log: seq<Call>
    /** Whether the module's shrinker is registered. */
    var shrinkerRegistered: bool

    /** The ledger is exactly what the log has left live. */
    ghost predicate Valid()
      reads this
    {
      live == Replay({}, log)
    }

    constructor (refused: set<nat>, registrationRefused: bool)
      ensures Valid()
      ensures this.refused == refused && this.registrationRefused == registrationRefused
      ensures requests == 0 && live == {} && log == [] && !shrinkerRegistered
    {
      this.refused := refused;
      this.registrationRefused := registrationRefused;
      requests := 0;
      live := {};
      log := [];
      shrinkerRegistered := false;
    }

    /** `kmalloc(sizeof(struct evo_memory_region), GFP_KERNEL)`. */
    method KmallocRegion() returns (r: MemoryRegion?)
      requires Valid()
      modifies this
      ensures Valid()
      ensures requests == old(requests) + 1 && shrinkerRegistered == old(shrinkerRegistered)
      ensures r == null <==> old(requests) in refused
      ensures r == null ==> log == old(log) + [Refused(Slab)] && live == old(live)
      ensures r != null ==> fresh(r) && Block(Slab, r) !in old(live)
      ensures r != null ==> log == old(log) + [Allocated(Block(Slab, r))]
      ensures r != null ==> live == old(live) + {Block(Slab, r)}
    {
      var c: Call;
      if requests in refused {
        r := null;
        c := Refused(Slab);
      } else {
        r := new MemoryRegion();
        c := Allocated(Block(Slab, r));
        live := live + {Block(Slab, r)};
      }
      ReplaySnoc({}, log, c);
      log := log + [c];
      requests := requests + 1;
    }

    /** `vzalloc(sizeof(struct evo_page_table))`: a zero-filled table of ENTRIES entries. */
    method VzallocTable() returns (t: array?<Pte>)
      requires Valid()
      modifies this
      ensures Valid()
      ensures requests == old(requests) + 1 && shrinkerRegistered == old(shrinkerRegistered)
      ensures t == null <==> old(requests) in refused
      ensures t == null ==> log == old(log) + [Refused(Vmalloc)] && live == old(live)
      ensures t != null ==> fresh(t) && t.Length == ENTRIES && Zeroed(t[..])
      ensures t != null ==> Block(Vmalloc, t) !in old(live)
      ensures t != null ==> log == old(log) + [Allocated(Block(Vmalloc, t))]
      ensures t != null ==> live == old(live) + {Block(Vmalloc, t)}
    {
      var c: Call;
      if requests in refused {
        t := null;
        c := Refused(Vmalloc);
      } else {
        t := new Pte[ENTRIES](_ => ZeroPte);
        c := Allocated(Block(Vmalloc, t));
        live := live + {Block(Vmalloc, t)};
      }
      ReplaySnoc({}, log, c);
      log := log + [c];
      requests := requests + 1;
    }

    /**
     * `kfree(p)` for kind Slab, `vfree(p)` for kind Vmalloc. Freeing NULL does
     * nothing. Freeing a block that is not live is a double free, undefined
     * behaviour in C: it is reported and nothing is recorded.
     */
    method Free(kind: Kind, p: object?) returns (doubleFree: bool)
      requires Valid()
      modifies this
      ensures Valid()
      ensures requests == old(requests) && shrinkerRegistered == old(shrinkerRegistered)
      ensures doubleFree <==> p != null && Block(kind, p) !in old(live)
      ensures p == null || doubleFree ==> log == old(log) && live == old(live)
      ensures p != null && !doubleFree ==> log == old(log) + [Freed(Block(kind, p))]
      ensures p != null && !doubleFree ==> live == old(live) - {Block(kind, p)}
    {
      doubleFree := p != null && Block(kind, p) !in live;
      if p != null && !doubleFree {
        ReplaySnoc({}, log, Freed(Block(kind, p)));
        log := log + [Freed(Block(kind, p))];
        live := live - {Block(kind, p)};
      }
    }

    /** `register_shrinker`: 0 on success, `-ENOMEM` when the registry refuses. */
    method RegisterShrinker() returns (ret: int)
      requires Valid()
      modifies this
      ensures Valid()
      ensures requests == old(requests) && live == old(live)
      ensures ret == (if registrationRefused then -ENOMEM else 0)
      ensures log == old(log) + [if registrationRefused then ShrinkerRefused else ShrinkerRegistered]
      ensures shrinkerRegistered == (old(shrinkerRegistered) || !registrationRefused)
    {
      var c := if registrationRefused then ShrinkerRefused else ShrinkerRegistered;
      ReplaySnoc({}, log, c);
      log := log + [c];
      if registrationRefused {
        ret := -ENOMEM;
      } else {
        ret := 0;
        shrinkerRegistered := true;
      }
    }

    /** `unregister_shrinker`: afterwards the shrinker is not registered, whatever it was before. */
    method UnregisterShrinker()
      requires Valid()
      modifies this
      ensures Valid()
      ensures requests == old(requests) && live == old(live)
      ensures log == old(log) + [ShrinkerUnregistered]
      ensures !shrinkerRegistered
    {
      ReplaySnoc({}, log, ShrinkerUnregistered);
      log := log + [ShrinkerUnregistered];
      shrinkerRegistered := false;
    }

    /** Whether block `b` is live; the model uses it to detect use of freed memory. */
    predicate IsLive(b: Block)
      reads this
    {
      b in live
    }
  }
}
