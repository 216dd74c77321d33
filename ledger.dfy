/**
 * Accounting of the blocks a kernel module obtains from the kernel's allocators.
 *
 * The kernel's allocators are foreign code; what the module can observe of them is
 * the sequence of calls it makes and which blocks are live at any moment. This
 * module gives those two views as values: a log of calls, the blocks that log
 * acquired and released (in order), and the set of live blocks a log leaves behind.
 */
module Ledger {

  /** The allocator family a block belongs to: `kmalloc`/`kfree` or `vzalloc`/`vfree`. */
  datatype Kind = Slab | Vmalloc

  /** A block handed out by an allocator: its family and its address. */
  datatype Block = Block(kind: Kind, addr: object)

  /** One call the module makes into the kernel, as the kernel's log records it. */
  datatype Call =
    | Allocated(block: Block)   // kmalloc / vzalloc returned this block
    | Refused(kind: Kind)       // kmalloc / vzalloc returned NULL
    | Freed(block: Block)       // kfree / vfree released this block
    | ShrinkerRegistered        // register_shrinker returned 0
    | ShrinkerRefused           // register_shrinker returned an error
    | ShrinkerUnregistered      // unregister_shrinker

  function Reverse<T>(s: seq<T>): (r: seq<T>)
    ensures |r| == |s|
    ensures forall i :: 0 <= i < |s| ==> r[i] == s[|s| - 1 - i]
  {
    if s == [] then [] else Reverse(s[1..]) + [s[0]]
  }

  /** The set of elements of a sequence of blocks. */
  function Elements(bs: seq<Block>): set<Block>
  {
    set b | b in bs
  }

  /** The blocks the log's allocations handed out, in the order they were handed out. */
  function Acquired(log: seq<Call>): (r: seq<Block>)
    ensures forall i :: 0 <= i < |r| ==> Allocated(r[i]) in log
    ensures forall i :: 0 <= i < |log| && log[i].Allocated? ==> log[i].block in r
  {
    if log == [] then []
    else (if log[0].Allocated? then [log[0].block] else []) + Acquired(log[1..])
  }

  /** The blocks the log's frees released, in the order they were released. */
  function Released(log: seq<Call>): (r: seq<Block>)
    ensures forall i :: 0 <= i < |r| ==> Freed(r[i]) in log
    ensures forall i :: 0 <= i < |log| && log[i].Freed? ==> log[i].block in r
  {
    if log == [] then []
    else (if log[0].Freed? then [log[0].block] else []) + Released(log[1..])
  }

  /** The effect of one call on the set of live blocks. */
  function Apply(live: set<Block>, c: Call): set<Block>
  {
    match c
    case Allocated(b) => live + {b}
    case Freed(b) => live - {b}
    case _ => live
  }

  /** The set of live blocks after the calls of `log`, starting from `live`. */
  function Replay(live: set<Block>, log: seq<Call>): (r: set<Block>)
    decreases |log|
  {
    if log == [] then live else Replay(Apply(live, log[0]), log[1..])
  }

  /** The log of allocating the blocks `bs`, one after the other. */
  function Allocations(bs: seq<Block>): seq<Call>
  {
    seq(|bs|, i requires 0 <= i < |bs| => Allocated(bs[i]))
  }

  /** The log of freeing the blocks `bs`, one after the other. */
  function Frees(bs: seq<Block>): seq<Call>
  {
    seq(|bs|, i requires 0 <= i < |bs| => Freed(bs[i]))
  }

  lemma {:induction false} ReplayAppend(live: set<Block>, a: seq<Call>, b: seq<Call>)
    ensures Replay(live, a + b) == Replay(Replay(live, a), b)
    decreases |a|
  {
    if a == [] {
      assert a + b == b;
    } else {
      assert (a + b)[0] == a[0];
      assert (a + b)[1..] == a[1..] + b;
      ReplayAppend(Apply(live, a[0]), a[1..], b);
    }
  }

  /** Replaying one more call applies it to what the log left live. */
  lemma ReplaySnoc(live: set<Block>, log: seq<Call>, c: Call)
    ensures Replay(live, log + [c]) == Apply(Replay(live, log), c)
  {
    ReplayAppend(live, log, [c]);
    assert [c][1..] == [];
  }

  lemma {:induction false} AcquiredAppend(a: seq<Call>, b: seq<Call>)
    ensures Acquired(a + b) == Acquired(a) + Acquired(b)
    decreases |a|
  {
    if a == [] {
      assert a + b == b;
    } else {
      assert (a + b)[0] == a[0];
      assert (a + b)[1..] == a[1..] + b;
      AcquiredAppend(a[1..], b);
    }
  }

  lemma {:induction false} ReleasedAppend(a: seq<Call>, b: seq<Call>)
    ensures Released(a + b) == Released(a) + Released(b)
    decreases |a|
  {
    if a == [] {
      assert a + b == b;
    } else {
      assert (a + b)[0] == a[0];
      assert (a + b)[1..] == a[1..] + b;
      ReleasedAppend(a[1..], b);
    }
  }

  /** Allocating `bs` acquires exactly `bs`, in order, and releases nothing. */
  lemma {:induction false} AllocationsAcquire(bs: seq<Block>)
    ensures Acquired(Allocations(bs)) == bs
    ensures Released(Allocations(bs)) == []
    decreases |bs|
  {
    if bs != [] {
      assert Allocations(bs)[1..] == Allocations(bs[1..]);
      AllocationsAcquire(bs[1..]);
    }
  }

  /** Freeing `bs` releases exactly `bs`, in order, and acquires nothing. */
  lemma {:induction false} FreesRelease(bs: seq<Block>)
    ensures Released(Frees(bs)) == bs
    ensures Acquired(Frees(bs)) == []
    decreases |bs|
  {
    if bs != [] {
      assert Frees(bs)[1..] == Frees(bs[1..]);
      FreesRelease(bs[1..]);
    }
  }

  /** After allocating `bs`, the blocks of `bs` are live besides those that already were. */
  lemma {:induction false} ReplayAllocations(live: set<Block>, bs: seq<Block>)
    ensures Replay(live, Allocations(bs)) == live + Elements(bs)
    decreases |bs|
  {
    if bs == [] {
      assert Allocations(bs) == [];
    } else {
      assert Allocations(bs)[0] == Allocated(bs[0]);
      assert Allocations(bs)[1..] == Allocations(bs[1..]);
      ReplayAllocations(live + {bs[0]}, bs[1..]);
      assert Elements(bs) == {bs[0]} + Elements(bs[1..]);
    }
  }

  /** After freeing `bs`, none of the blocks of `bs` is live and every other block is as it was. */
  lemma {:induction false} ReplayFrees(live: set<Block>, bs: seq<Block>)
    ensures Replay(live, Frees(bs)) == live - Elements(bs)
    decreases |bs|
  {
    if bs == [] {
      assert Frees(bs) == [];
    } else {
      assert Frees(bs)[0] == Freed(bs[0]);
      assert Frees(bs)[1..] == Frees(bs[1..]);
      ReplayFrees(live - {bs[0]}, bs[1..]);
      assert Elements(bs) == {bs[0]} + Elements(bs[1..]);
    }
  }

  /**
   * Unwinding: allocating fresh blocks, making any calls that neither allocate nor
   * free, then freeing the same blocks in reverse order leaves the live set as it was.
   */
  lemma UnwindIsNetZero(live: set<Block>, bs: seq<Block>, between: seq<Call>)
    requires forall b :: b in bs ==> b !in live
    requires forall i :: 0 <= i < |between| ==> !between[i].Allocated? && !between[i].Freed?
    ensures Replay(live, Allocations(bs) + between + Frees(Reverse(bs))) == live
  {
    ReplayAppend(live, Allocations(bs) + between, Frees(Reverse(bs)));
    ReplayAppend(live, Allocations(bs), between);
    ReplayAllocations(live, bs);
    InertCalls(live + Elements(bs), between);
    ReplayFrees(live + Elements(bs), Reverse(bs));
    assert Elements(Reverse(bs)) == Elements(bs) by {
      forall b | b in Elements(bs) ensures b in Elements(Reverse(bs)) {
        var i :| 0 <= i < |bs| && bs[i] == b;
        assert Reverse(bs)[|bs| - 1 - i] == b;
      }
    }
  }

  /** Calls that neither allocate nor free leave the live set as it was. */
  lemma {:induction false} InertCalls(live: set<Block>, log: seq<Call>)
    requires forall i :: 0 <= i < |log| ==> !log[i].Allocated? && !log[i].Freed?
    ensures Replay(live, log) == live
    decreases |log|
  {
    if log != [] {
      InertCalls(live, log[1..]);
    }
  }
}
