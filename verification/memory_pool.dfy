/** The fixed-size memory pool: two intrusive doubly linked lists through the headers of the
    blocks, with removal from the middle in constant time. */
module MemoryPool {
  // ---------------------------------------------------------------- over values

  // The pool as two lists of blocks, and the largest number of blocks in use so far.
  datatype Pool<T> = Pool(free: seq<T>, used: seq<T>, peak: nat)

  function Max(a: nat, b: nat): nat {
    if a < b then b else a
  }

  // `spare` is what malloc returns when no block is free.
  function Allocated<T>(p: Pool<T>, spare: T): Pool<T> {
    var free := if p.free == [] then [] else p.free[1..];
    var block := if p.free == [] then spare else p.free[0];
    Pool(free, [block] + p.used, Max(p.peak, |p.used| + 1))
  }

  function Freed<T>(p: Pool<T>, k: nat): Pool<T>
    requires k < |p.used|
  {
    Pool([p.used[k]] + p.free, p.used[..k] + p.used[k + 1..], p.peak)
  }

  ghost predicate Distinct<T>(s: seq<T>) {
    forall i, j :: 0 <= i < j < |s| ==> s[i] != s[j]
  }

  // Every block ever obtained is in exactly one list, and there are as many as were ever in
  // use at once.
  ghost predicate Tidy<T>(p: Pool<T>) {
    Distinct(p.free + p.used) && |p.free| + |p.used| == p.peak
  }

  datatype Op<T> = Take(spare: T) | Give(k: nat)

  // malloc returns a block that is not in the pool; only a block in use is given back.
  predicate Possible<T(==)>(p: Pool<T>, op: Op<T>) {
    match op
    case Take(spare) => p.free == [] ==> spare !in p.used
    case Give(k) => k < |p.used|
  }

  function Apply<T(==)>(p: Pool<T>, op: Op<T>): Pool<T>
    requires Possible(p, op)
  {
    match op
    case Take(spare) => Allocated(p, spare)
    case Give(k) => Freed(p, k)
  }

  lemma {:induction false} ApplyTidy<T>(p: Pool<T>, op: Op<T>)
    requires Tidy(p) && Possible(p, op)
    ensures Tidy(Apply(p, op))
  {
    var r, all := Apply(p, op), p.free + p.used;
    match op
    case Take(spare) =>
      if p.free == [] {
        assert r.free + r.used == [spare] + all;
      } else {
        var m := |p.free| - 1;
        forall i, j | 0 <= i < j < |r.free + r.used| ensures (r.free + r.used)[i] != (r.free + r.used)[j] {
          var i' := if i < m then i + 1 else if i == m then 0 else i;
          var j' := if j < m then j + 1 else if j == m then 0 else j;
          assert (r.free + r.used)[i] == all[i'] && (r.free + r.used)[j] == all[j'] && i' != j';
        }
      }
    case Give(k) =>
      var m := |p.free|;
      forall i, j | 0 <= i < j < |r.free + r.used| ensures (r.free + r.used)[i] != (r.free + r.used)[j] {
        var i' := if i == 0 then m + k else if i <= m + k then i - 1 else i;
        var j' := if j <= m + k then j - 1 else j;
        assert (r.free + r.used)[i] == all[i'] && (r.free + r.used)[j] == all[j'] && i' != j';
      }
  }

  lemma {:induction false} TidyParts<T>(p: Pool<T>)
    requires Tidy(p)
    ensures Separate(p)
  {
    var all := p.free + p.used;
    forall i, j | 0 <= i < j < |p.used| ensures p.used[i] != p.used[j] {
      assert all[|p.free| + i] == p.used[i] && all[|p.free| + j] == p.used[j];
    }
    forall i, j | 0 <= i < |p.free| && 0 <= j < |p.used| ensures p.free[i] != p.used[j] {
      assert all[i] == p.free[i] && all[|p.free| + j] == p.used[j];
    }
    forall i, j | 0 <= i < j < |p.free| ensures p.free[i] != p.free[j] {
      assert all[i] == p.free[i] && all[j] == p.free[j];
    }
  }

  ghost predicate Separate<T>(p: Pool<T>) {
    && Distinct(p.free) && Distinct(p.used)
    && forall i, j :: 0 <= i < |p.free| && 0 <= j < |p.used| ==> p.free[i] != p.used[j]
  }

  lemma {:induction false} TakeSeparate<T>(p: Pool<T>, spare: T)
    requires Separate(p) && (p.free == [] ==> spare !in p.used)
    ensures Separate(Allocated(p, spare))
  {
  }

  lemma {:induction false} GiveSeparate<T>(p: Pool<T>, k: nat)
    requires Separate(p) && k < |p.used|
    ensures Separate(Freed(p, k))
  {
    Without(p.used, k);
  }

  // The states a sequence of operations goes through.
  ghost predicate Trace<T>(ps: seq<Pool<T>>, ops: seq<Op<T>>) {
    && |ps| == |ops| + 1
    && ps[0] == Pool([], [], 0)
    && forall i :: 0 <= i < |ops| ==> Possible(ps[i], ops[i]) && ps[i + 1] == Apply(ps[i], ops[i])
  }

  // The blocks malloc was asked for in the first n operations.
  ghost function Obtained<T>(ps: seq<Pool<T>>, ops: seq<Op<T>>, n: nat): seq<T>
    requires n <= |ops| < |ps|
  {
    if n == 0 then []
    else Obtained(ps, ops, n - 1) + if ops[n - 1].Take? && ps[n - 1].free == [] then [ops[n - 1].spare] else []
  }

  ghost function Blocks<T>(p: Pool<T>): multiset<T> {
    multiset(p.free) + multiset(p.used)
  }

  // An operation loses no block, and gains at most the one it obtains.
  lemma {:induction false} ApplyKeepsBlocks<T>(p: Pool<T>, op: Op<T>)
    requires Possible(p, op)
    ensures Blocks(Apply(p, op)) == Blocks(p) + if op.Take? && p.free == [] then multiset{op.spare} else multiset{}
  {
    match op
    case Take(spare) =>
      if p.free != [] { assert p.free == [p.free[0]] + p.free[1..]; }
    case Give(k) =>
      assert p.used == p.used[..k] + [p.used[k]] + p.used[k + 1..];
  }

  // Every block ever obtained is in exactly one of the lists, and their number is the largest
  // number ever in use at once.
  lemma {:induction false} HighWater<T>(ps: seq<Pool<T>>, ops: seq<Op<T>>, n: nat)
    requires Trace(ps, ops) && n < |ps|
    ensures Tidy(ps[n])
    ensures multiset(Obtained(ps, ops, n)) == Blocks(ps[n]) && |Obtained(ps, ops, n)| == ps[n].peak
    ensures forall i :: 0 <= i <= n ==> |ps[i].used| <= |ps[n].free| + |ps[n].used|
    ensures exists i :: 0 <= i <= n && |ps[i].used| == |ps[n].free| + |ps[n].used|
    decreases n
  {
    if n > 0 {
      HighWater(ps, ops, n - 1);
      ApplyTidy(ps[n - 1], ops[n - 1]);
      ApplyKeepsBlocks(ps[n - 1], ops[n - 1]);
      SameSize(Obtained(ps, ops, n), ps[n]);
      var i :| 0 <= i <= n - 1 && |ps[i].used| == |ps[n - 1].free| + |ps[n - 1].used|;
      assert |ps[i].used| == |ps[n].free| + |ps[n].used| || |ps[n].used| == |ps[n].free| + |ps[n].used|;
    }
  }

  lemma {:induction false} Accounted<T>(p: Pool<T>, obtained: seq<T>, block: T)
    requires Tidy(p) && multiset(obtained) == Blocks(p) && (p.free == [] ==> block !in p.used)
    ensures var more := if p.free == [] then [block] else [];
      Tidy(Allocated(p, block)) && multiset(obtained + more) == Blocks(Allocated(p, block))
  {
    ApplyTidy(p, Take(block));
    ApplyKeepsBlocks(p, Take(block));
  }

  lemma {:induction false} SameSize<T>(s: seq<T>, p: Pool<T>)
    requires multiset(s) == Blocks(p) && Tidy(p)
    ensures |s| == p.peak
  {
    assert |multiset(s)| == |s|;
  }

  // What is given back last is taken first, and the pool is then as it was but for the place
  // of that block among the used ones.
  lemma {:induction false} LastFreedFirst<T>(p: Pool<T>, k: nat, spare: T)
    requires k < |p.used| && Tidy(p)
    ensures Allocated(Freed(p, k), spare) == p.(used := [p.used[k]] + p.used[..k] + p.used[k + 1..])
  {
    assert ([p.used[k]] + p.free)[1..] == p.free;
    assert [p.used[k]] + (p.used[..k] + p.used[k + 1..]) == [p.used[k]] + p.used[..k] + p.used[k + 1..];
  }

  // ---------------------------------------------------------------- on the heap

  const HEADER := 16
  const SIZE_MODULUS := 0x1_0000_0000_0000_0000

  // The usable size is that of the block less the two links of its header, as a size_t: it wraps
  // when the block cannot hold its header.
  function Usable(maxSize: nat): (size: nat)
    ensures maxSize >= 16 && maxSize - 16 < 0x1_0000_0000_0000_0000 ==> size == maxSize - 16
    ensures maxSize < 16 ==> size == 0x1_0000_0000_0000_0000 - 16 + maxSize
  {
    (maxSize - HEADER) % SIZE_MODULUS
  }

  // The header of a block. malloc is taken to return one with null links.
  class Block {
    var prev: Block?
    var next: Block?

    constructor ()
      ensures prev == null && next == null
    {
      prev, next := null, null;
    }
  }

  lemma {:induction false} Without<T>(s: seq<T>, k: nat)
    requires k < |s|
    ensures var r := s[..k] + s[k + 1..];
      forall i :: 0 <= i < |r| ==> r[i] == s[if i < k then i else i + 1]
  {
  }

  // The blocks s, chained both ways from `head`.
  ghost predicate Chain(head: Block?, s: seq<Block>)
    reads s
  {
    && head == (if s == [] then null else s[0])
    && (forall i {:trigger s[i].prev} :: 0 <= i < |s| ==> s[i].prev == if i == 0 then null else s[i - 1])
    && (forall i {:trigger s[i].next} :: 0 <= i < |s| ==> s[i].next == if i + 1 < |s| then s[i + 1] else null)
  }

  // A chain whose links pass over s[k] is a chain of the others.
  lemma {:induction false} Bypassed(head: Block?, s: seq<Block>, k: nat)
    requires k < |s|
    requires head == if k > 0 then s[0] else if |s| > 1 then s[1] else null
    requires forall i {:trigger s[i].prev} :: 0 <= i < |s| && i != k && i != k + 1 ==>
      s[i].prev == if i == 0 then null else s[i - 1]
    requires forall i {:trigger s[i].next} :: 0 <= i < |s| && i != k && i + 1 != k ==>
      s[i].next == if i + 1 < |s| then s[i + 1] else null
    requires k + 1 < |s| ==> s[k + 1].prev == if k == 0 then null else s[k - 1]
    requires k > 0 ==> s[k - 1].next == if k + 1 < |s| then s[k + 1] else null
    ensures Chain(head, s[..k] + s[k + 1..])
  {
    var r := s[..k] + s[k + 1..];
    Without(s, k);
    forall i | 0 <= i < |r|
      ensures r[i].prev == (if i == 0 then null else r[i - 1])
      ensures r[i].next == (if i + 1 < |r| then r[i + 1] else null)
    {
      var j := if i < k then i else i + 1;
      assert r[i] == s[j];
    }
  }

  class FixedSizeMemoryPool {
    const maxSize: nat
    var free: Block?
    var inUse: Block?
    ghost var contents: Pool<Block>

    // The blocks malloc was ever asked for.
    ghost var obtained: seq<Block>

    ghost predicate Valid()
      reads this, contents.free, contents.used
    {
      Tidy(contents) && multiset(obtained) == Blocks(contents) && Lists(contents)
    }

    // The two lists hold what p says, and have no block in common.
    ghost predicate Lists(p: Pool<Block>)
      reads this, p.free, p.used
    {
      Separate(p) && Chain(free, p.free) && Chain(inUse, p.used)
    }

    constructor (maxSize: nat := 65536)
      ensures Valid() && contents == Pool([], [], 0) && obtained == [] && this.maxSize == maxSize
    {
      this.maxSize := maxSize;
      free, inUse, contents, obtained := null, null, Pool([], [], 0), [];
    }

    // Take the first block off the free list, or a new one.
    method Obtain() returns (block: Block)
      requires Distinct(contents.free) && Chain(free, contents.free)
      modifies this`free, contents.free
      ensures if old(contents.free) == [] then fresh(block) else block == contents.free[0]
      ensures Chain(free, if contents.free == [] then [] else contents.free[1..])
      ensures block.prev == null
    {
      if free != null {
        block := free;
      } else {
        block := new Block();
      }
      if block == free {
        ghost var rest := contents.free[1..];
        if free.next != null {
          free.next.prev := null;
        }
        free := free.next;
        assert forall i :: 0 <= i < |rest| ==> rest[i] == contents.free[i + 1];
      }
    }

    // Put a block at the head of the list of used blocks. Its `prev` link is not written.
    method Use(block: Block)
      requires Chain(inUse, contents.used) && Distinct(contents.used)
      requires block !in contents.used && block.prev == null
      modifies this`inUse, contents.used, block
      ensures Chain(inUse, [block] + contents.used)
    {
      if inUse != null {
        inUse.prev := block;
      }
      block.next := inUse;
      inUse := block;
    }

    // A block moves to the head of the list of used blocks.
    method Take() returns (block: Block)
      requires Lists(contents)
      modifies this`free, this`inUse, contents.free, contents.used
      ensures Lists(Allocated(contents, block))
      ensures if contents.free == [] then fresh(block) else block == contents.free[0]
    {
      ghost var p := contents;
      block := Obtain();
      assert forall j :: 0 <= j < |p.used| ==> p.used[j] != block;
      ghost var rest := if p.free == [] then [] else p.free[1..];
      assert forall i :: 0 <= i < |rest| ==> rest[i] == p.free[i + 1];
      assert forall i :: 0 <= i < |rest| ==> rest[i] != block;
      Use(block);
      assert Separate(Allocated(p, block)) by { TakeSeparate(p, block); }
    }

    ghost method RecordTaken(block: Block)
      requires Tidy(contents) && multiset(obtained) == Blocks(contents) && Lists(Allocated(contents, block))
      requires contents.free == [] ==> block !in contents.used
      modifies this`contents, this`obtained
      ensures Valid() && contents == Allocated(old(contents), block)
      ensures obtained == old(obtained) + if old(contents).free == [] then [block] else []
    {
      Accounted(contents, obtained, block);
      obtained := obtained + if contents.free == [] then [block] else [];
      contents := Allocated(contents, block);
    }

    ghost method RecordGiven(k: nat)
      requires Tidy(contents) && multiset(obtained) == Blocks(contents)
      requires k < |contents.used| && Lists(Freed(contents, k))
      modifies this`contents
      ensures Valid() && contents == Freed(old(contents), k)
    {
      ApplyTidy(contents, Op.Give(k));
      ApplyKeepsBlocks(contents, Op.Give(k));
      contents := Freed(contents, k);
    }

    method Allocate() returns (block: Block, size: nat)
      requires Valid()
      modifies this, contents.free, contents.used
      ensures Valid() && contents == Allocated(old(contents), block)
      ensures if old(contents.free) == [] then fresh(block) else block == old(contents.free[0])
      ensures obtained == old(obtained) + if fresh(block) then [block] else []
      ensures maxSize >= 16 && maxSize - 16 < 0x1_0000_0000_0000_0000 ==> size == maxSize - 16
      ensures maxSize < 16 ==> size == 0x1_0000_0000_0000_0000 - 16 + maxSize
    {
      block := Take();
      size := Usable(maxSize);
      RecordTaken(block);
    }

    // Take a block out of the list of used blocks, wherever it is in it.
    method Unlink(block: Block, ghost k: nat)
      requires Chain(inUse, contents.used) && Distinct(contents.used)
      requires k < |contents.used| && contents.used[k] == block
      modifies this`inUse, contents.used
      ensures Chain(inUse, contents.used[..k] + contents.used[k + 1..])
    {
      ghost var s := contents.used;
      if block == inUse {
        if inUse.next != null {
          inUse.next.prev := null;
        }
        inUse := inUse.next;
      }
      if block.next != null {
        block.next.prev := block.prev;
      }
      if block.prev != null {
        block.prev.next := block.next;
      }
      Bypassed(inUse, s, k);
    }

    // Put a block at the head of the free list.
    method Push(block: Block)
      requires Chain(free, contents.free) && Distinct(contents.free) && block !in contents.free
      modifies this`free, contents.free, block
      ensures Chain(free, [block] + contents.free)
    {
      block.prev := null;
      block.next := free;
      if free != null {
        free.prev := block;
      }
      free := block;
    }

    // A used block moves to the head of the free list.
    method Give(block: Block, ghost k: nat)
      requires Lists(contents) && k < |contents.used| && contents.used[k] == block
      modifies this`free, this`inUse, contents.free, contents.used
      ensures Lists(Freed(contents, k))
    {
      ghost var p := contents;
      Unlink(block, k);
      ghost var rest := p.used[..k] + p.used[k + 1..];
      assert (forall j :: 0 <= j < |rest| ==> rest[j] != block)
        && (forall i, j :: 0 <= i < |p.free| && 0 <= j < |rest| ==> p.free[i] != rest[j]) by { Without(p.used, k); }
      Push(block);
      assert Separate(Freed(p, k)) by { GiveSeparate(p, k); }
    }

    // Give a block back. Giving back null does nothing.
    method Free(block: Block?, ghost k: nat)
      requires Valid()
      requires block != null ==> k < |contents.used| && contents.used[k] == block
      modifies this, contents.free, contents.used
      ensures Valid()
      ensures contents == if block == null then old(contents) else Freed(old(contents), k)
      ensures obtained == old(obtained)
    {
      if block != null {
        Give(block, k);
        RecordGiven(k);
      }
    }

    // Release the blocks of a list, reading each header before the block goes.
    method FreeBlocks(head: Block?, ghost s: seq<Block>) returns (ghost released: seq<Block>)
      requires Chain(head, s) && Distinct(s)
      ensures released == s
    {
      released := [];
      var current := head;
      while current != null
        invariant |released| <= |s| && released == s[..|released|]
        invariant current == if |released| == |s| then null else s[|released|]
        decreases |s| - |released|
      {
        assert current !in released;
        var next := current.next;
        released := released + [current];
        current := next;
      }
    }

    // The destructor releases every block ever obtained, each exactly once.
    method Destroy() returns (ghost released: seq<Block>)
      requires Valid()
      ensures released == contents.free + contents.used
      ensures multiset(released) == multiset(obtained) && |released| == |obtained|
      ensures Distinct(released) && |released| == contents.peak
    {
      TidyParts(contents);
      released := FreeBlocks(free, contents.free);
      ghost var more := FreeBlocks(inUse, contents.used);
      released := released + more;
      SameSize(obtained, contents);
    }
  }
}
