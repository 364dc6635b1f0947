/**
 Ownership of memory blocks by buffer handles: construction, moves, splitting and destruction.
 A handle that owns a block releases it through the releaser it was constructed with.
 */
module BufferOwnership {
  import opened Options

  const WRAP := 0x1_0000_0000_0000_0000

  type Block = nat
  type HandleId = nat
  type U64 = x: int | 0 <= x < 0x1_0000_0000_0000_0000

  datatype Release = Function(fn: nat) | Deallocate(mr: nat, memType: nat, size: nat)

  // The right and duty to release a block in a certain way.
  datatype Token = Token(block: Block, release: Release)

  // data is None for a null pointer; fn is None when there is no release function.
  datatype Handle = Handle(mr: nat, memType: nat, data: Option<Block>, size: U64, own: bool, fn: Option<nat>) {
    function Duty(): Option<Token> {
      if data.Some? && own
      then Some(Token(data.value, if fn.Some? then Function(fn.value) else Deallocate(mr, memType, size)))
      else None
    }

    // What is left of a handle that was moved from.
    function MovedFrom(): Handle {
      this.(data := None, size := 0, own := false, fn := None)
    }

    function Destroyed(): Handle {
      if data.Some? && own then this.(data := None, size := 0, own := false) else this
    }
  }

  function Releases(h: Handle): seq<Token> {
    if h.Duty().Some? then [h.Duty().value] else []
  }

  datatype World = World(handles: map<HandleId, Handle>, released: seq<Token>)

  datatype Op =
    | Construct(id: HandleId, handle: Handle)
    | Move(id: HandleId, from: HandleId)
    | MoveAs(id: HandleId, from: HandleId, own: bool)
    | Assign(id: HandleId, from: HandleId)
    | Split(id: HandleId, from: HandleId, sizes: seq<U64>)
    | Destroy(id: HandleId)

  const EMPTY := World(map[], [])

  // ---------------------------------------------------------------------------
  // Splitting

  datatype View = View(offset: nat, size: nat)

  function Sum(sizes: seq<U64>): nat {
    if sizes == [] then 0 else Sum(sizes[..|sizes| - 1]) + sizes[|sizes| - 1]
  }

  // The check adds the sizes up in 64 bits.
  predicate Accepted(sizes: seq<U64>, size: U64) {
    Sum(sizes) % WRAP <= size
  }

  function Views(sizes: seq<U64>): seq<View> {
    seq(|sizes|, k requires 0 <= k < |sizes| => View(Sum(sizes[..k]), sizes[k]))
  }

  predicate InBounds(views: seq<View>, size: nat) {
    forall k | 0 <= k < |views| :: views[k].offset + views[k].size <= size
  }

  lemma SumStep(sizes: seq<U64>, k: nat)
    requires k < |sizes|
    ensures Sum(sizes[..k + 1]) == Sum(sizes[..k]) + sizes[k]
  {
    assert sizes[..k + 1][..k] == sizes[..k];
  }

  lemma {:induction false} SumGrows(sizes: seq<U64>, i: nat, j: nat)
    requires i <= j <= |sizes|
    ensures Sum(sizes[..i]) <= Sum(sizes[..j])
  {
    if i < j {
      SumStep(sizes, j - 1);
      SumGrows(sizes, i, j - 1);
    }
  }

  /** The views tile a prefix of the block: the first starts at its start, each later one where the
      one before it ends, and the last ends at the sum of the sizes. */
  lemma ViewsTile(sizes: seq<U64>, i: nat)
    requires i < |sizes|
    ensures |Views(sizes)| == |sizes| && Views(sizes)[0].offset == 0 && Views(sizes)[i].size == sizes[i]
    ensures Views(sizes)[i].offset + Views(sizes)[i].size
         == if i + 1 < |sizes| then Views(sizes)[i + 1].offset else Sum(sizes)
  {
    SumStep(sizes, i);
    assert sizes[..|sizes|] == sizes;
  }

  /** The views are in order and do not overlap. */
  lemma ViewsAreDisjoint(sizes: seq<U64>, i: nat, j: nat)
    requires i < j < |sizes|
    ensures Views(sizes)[i].offset + Views(sizes)[i].size <= Views(sizes)[j].offset
  {
    SumStep(sizes, i);
    SumGrows(sizes, i + 1, j);
  }

  lemma InBoundsIffSumFits(sizes: seq<U64>, size: nat)
    ensures InBounds(Views(sizes), size) <==> Sum(sizes) <= size
  {
    assert sizes[..|sizes|] == sizes;
    if sizes != [] {
      SumStep(sizes, |sizes| - 1);
      var last := Views(sizes)[|sizes| - 1];
      assert last.offset + last.size == Sum(sizes);
    }
    forall k | 0 <= k < |sizes|
      ensures Views(sizes)[k].offset + Views(sizes)[k].size <= Sum(sizes)
    {
      SumStep(sizes, k);
      SumGrows(sizes, k + 1, |sizes|);
    }
  }

  /** An accepted split stays inside the block if and only if the sizes add up without wrapping. */
  lemma AcceptedSplitIsSafeIff(sizes: seq<U64>, size: U64)
    requires Accepted(sizes, size)
    ensures InBounds(Views(sizes), size) <==> Sum(sizes) < WRAP
  {
    InBoundsIffSumFits(sizes, size);
    if Sum(sizes) < WRAP {
      assert Sum(sizes) % WRAP == Sum(sizes);
    }
  }

  /** The check can be passed by sizes that wrap: the second view then starts outside the block. */
  lemma WrappingSplitEscapes()
    ensures var sizes: seq<U64> := [0xFFFF_FFFF_FFFF_FFFF, 1];
            Accepted(sizes, 16) && !InBounds(Views(sizes), 16) && Views(sizes)[1].offset > 16
  {
    var sizes: seq<U64> := [0xFFFF_FFFF_FFFF_FFFF, 1];
    assert sizes[..1] == [0xFFFF_FFFF_FFFF_FFFF];
    assert sizes[..1][..0] == [];
    assert Sum(sizes[..1]) == 0xFFFF_FFFF_FFFF_FFFF;
    assert Sum(sizes) == WRAP;
    assert Views(sizes)[1].offset == 0xFFFF_FFFF_FFFF_FFFF;
  }

  // ---------------------------------------------------------------------------
  // Runs

  // A handle is constructed under a new name; the others exist.
  predicate Enabled(w: World, op: Op) {
    match op
    case Construct(id, _) => id !in w.handles
    case Move(id, from) => id !in w.handles && from in w.handles
    case MoveAs(id, from, _) => id !in w.handles && from in w.handles
    case Assign(id, from) => id in w.handles && from in w.handles
    case Split(id, from, _) => id !in w.handles && from in w.handles
    case Destroy(id) => id in w.handles
  }

  function Moved(w: World, id: HandleId, from: HandleId, h: Handle): World
    requires from in w.handles
  {
    w.(handles := w.handles[from := w.handles[from].MovedFrom()][id := h])
  }

  function Next(w: World, op: Op): World {
    if !Enabled(w, op) then w else
    match op
    case Construct(id, h) => w.(handles := w.handles[id := h])
    case Move(id, from) => Moved(w, id, from, w.handles[from])
    case MoveAs(id, from, own) => Moved(w, id, from, w.handles[from].(own := own))
    case Assign(id, from) =>
      if id == from then w
      else Moved(w.(released := w.released + Releases(w.handles[id])), id, from, w.handles[from])
    case Split(id, from, sizes) =>
      if Accepted(sizes, w.handles[from].size) then Moved(w, id, from, w.handles[from]) else w
    case Destroy(id) =>
      w.(handles := w.handles - {id}, released := w.released + Releases(w.handles[id]))
  }

  function After(ops: seq<Op>): World {
    if ops == [] then EMPTY else Next(After(ops[..|ops| - 1]), ops[|ops| - 1])
  }

  // What is counted: one releaser of a block, or all of them together.
  datatype What = Exactly(token: Token) | Any(block: Block)

  predicate Is(t: Token, what: What) {
    match what
    case Exactly(token) => t == token
    case Any(block) => t.block == block
  }

  // The handle's owner releases its block this way: through the function it was given, if any.
  predicate Through(h: Handle, release: Release) {
    && (h.fn.Some? ==> release == Function(h.fn.value))
    && (h.fn.None? ==> release == Deallocate(h.mr, h.memType, h.size))
  }

  predicate Owes(h: Handle, what: What) {
    h.own &&
    match what
    case Exactly(token) => h.data == Some(token.block) && Through(h, token.release)
    case Any(block) => h.data == Some(block)
  }

  function Holds(h: Handle, what: What): int {
    if Owes(h, what) then 1 else 0
  }

  // A claim takes a duty on: an owning construction, or a move that declares the new handle an owner
  // of what the old one did not own.  The opposite move gives the duty up.
  function Claim(w: World, op: Op, what: What): int {
    if !Enabled(w, op) then 0 else
    match op
    case Construct(_, h) => Holds(h, what)
    case MoveAs(_, from, own) => Holds(w.handles[from].(own := own), what) - Holds(w.handles[from], what)
    case _ => 0
  }

  function Claims(ops: seq<Op>, what: What): int {
    if ops == [] then 0
    else Claims(ops[..|ops| - 1], what) + Claim(After(ops[..|ops| - 1]), ops[|ops| - 1], what)
  }

  ghost function Owners(handles: map<HandleId, Handle>, what: What): set<HandleId> {
    set id | id in handles && Owes(handles[id], what)
  }

  function Count(released: seq<Token>, what: What): nat {
    if released == [] then 0
    else Count(released[..|released| - 1], what) + if Is(released[|released| - 1], what) then 1 else 0
  }

  ghost function Accounted(w: World, what: What): nat {
    Count(w.released, what) + |Owners(w.handles, what)|
  }

  lemma ReleaseCounts(released: seq<Token>, h: Handle, what: What)
    ensures Count(released + Releases(h), what) == Count(released, what) + Holds(h, what)
  {
    if h.Duty().Some? {
      assert (released + [h.Duty().value])[..|released|] == released;
    } else {
      assert released + [] == released;
    }
  }

  lemma DropOwner(handles: map<HandleId, Handle>, id: HandleId, what: What)
    requires id in handles
    ensures |Owners(handles - {id}, what)| == |Owners(handles, what)| - Holds(handles[id], what)
  {
    assert Owners(handles - {id}, what) == Owners(handles, what) - {id};
  }

  lemma PutOwner(handles: map<HandleId, Handle>, id: HandleId, h: Handle, what: What)
    ensures |Owners(handles[id := h], what)|
         == |Owners(handles, what)| + Holds(h, what) - if id in handles then Holds(handles[id], what) else 0
  {
    if Owes(h, what) {
      assert Owners(handles[id := h], what) == Owners(handles, what) + {id};
    } else {
      assert Owners(handles[id := h], what) == Owners(handles, what) - {id};
    }
  }

  lemma MovedCounts(w: World, id: HandleId, from: HandleId, h: Handle, what: What)
    requires from in w.handles && id != from
    ensures |Owners(Moved(w, id, from, h).handles, what)|
         == |Owners(w.handles, what)| + Holds(h, what) - Holds(w.handles[from], what)
            - if id in w.handles then Holds(w.handles[id], what) else 0
  {
    PutOwner(w.handles, from, w.handles[from].MovedFrom(), what);
    PutOwner(w.handles[from := w.handles[from].MovedFrom()], id, h, what);
  }

  lemma StepAccounts(w: World, op: Op, what: What)
    ensures Accounted(Next(w, op), what) == Accounted(w, what) + Claim(w, op, what)
  {
    if Enabled(w, op) {
      match op
      case Construct(id, h) => PutOwner(w.handles, id, h, what);
      case Move(id, from) => MovedCounts(w, id, from, w.handles[from], what);
      case MoveAs(id, from, own) => MovedCounts(w, id, from, w.handles[from].(own := own), what);
      case Assign(id, from) =>
        if id != from {
          ReleaseCounts(w.released, w.handles[id], what);
          MovedCounts(w, id, from, w.handles[from], what);
        }
      case Split(id, from, sizes) =>
        if Accepted(sizes, w.handles[from].size) {
          MovedCounts(w, id, from, w.handles[from], what);
        }
      case Destroy(id) =>
        ReleaseCounts(w.released, w.handles[id], what);
        DropOwner(w.handles, id, what);
    }
  }

  /** Over every run of constructions, moves, splits and destructions, a block has been released by a
      given releaser once for each time the duty to do so was taken on, except for the handles that
      still have it. */
  lemma {:induction false} RunAccounts(ops: seq<Op>, what: What)
    ensures Accounted(After(ops), what) == Claims(ops, what)
  {
    if ops == [] {
      assert Owners(map[], what) == {};
    } else {
      RunAccounts(ops[..|ops| - 1], what);
      StepAccounts(After(ops[..|ops| - 1]), ops[|ops| - 1], what);
    }
  }

  /** A block claimed once in all is released at most once, by any releaser; when all handles are gone it
      was released exactly once if and only if it was claimed exactly once; and a releaser it was not
      claimed with is never used on it. */
  lemma ReleasedOnceByItsReleaser(ops: seq<Op>, block: Block, release: Release)
    ensures Claims(ops, Any(block)) == 1 ==> Count(After(ops).released, Any(block)) <= 1
    ensures After(ops).handles == map[] ==>
              (Count(After(ops).released, Any(block)) == 1 <==> Claims(ops, Any(block)) == 1)
    ensures Claims(ops, Exactly(Token(block, release))) == 0 ==>
              Count(After(ops).released, Exactly(Token(block, release))) == 0
  {
    RunAccounts(ops, Any(block));
    RunAccounts(ops, Exactly(Token(block, release)));
    assert Owners(map[], Any(block)) == {};
  }

  predicate NoMoveAs(ops: seq<Op>) {
    forall i | 0 <= i < |ops| :: !ops[i].MoveAs?
  }

  // Whoever is constructed around this block is given this releaser: a function, or none and then the
  // memory resource, type and size it deallocates with.
  predicate ConstructedWith(ops: seq<Op>, block: Block, fn: Option<nat>, mr: nat, memType: nat, size: nat) {
    forall i | 0 <= i < |ops| && ops[i].Construct? && ops[i].handle.data == Some(block) ::
      var h := ops[i].handle;
      h.fn == fn && (fn.None? ==> h.mr == mr && h.memType == memType && h.size == size)
  }

  function OwningConstructions(ops: seq<Op>, block: Block): nat {
    if ops == [] then 0
    else
      var before, op := ops[..|ops| - 1], ops[|ops| - 1];
      OwningConstructions(before, block)
      + if op.Construct? && op.id !in After(before).handles && op.handle.data == Some(block) && op.handle.own then 1 else 0
  }

  ghost predicate AllReleaseThrough(w: World, block: Block, release: Release) {
    && (forall id | id in w.handles && w.handles[id].data == Some(block) :: Through(w.handles[id], release))
    && (forall t | t in w.released && t.block == block :: t.release == release)
  }

  lemma StepReleasesThrough(w: World, op: Op, block: Block, release: Release)
    requires AllReleaseThrough(w, block, release)
    requires op.Construct? && op.handle.data == Some(block) ==> Through(op.handle, release)
    ensures AllReleaseThrough(Next(w, op), block, release)
  {}

  lemma {:induction false} RunReleasesThrough(ops: seq<Op>, block: Block, fn: Option<nat>, mr: nat, memType: nat, size: nat)
    requires ConstructedWith(ops, block, fn, mr, memType, size)
    ensures AllReleaseThrough(After(ops), block, if fn.Some? then Function(fn.value) else Deallocate(mr, memType, size))
  {
    if ops != [] {
      var before, op := ops[..|ops| - 1], ops[|ops| - 1];
      assert ConstructedWith(before, block, fn, mr, memType, size);
      RunReleasesThrough(before, block, fn, mr, memType, size);
      StepReleasesThrough(After(before), op, block, if fn.Some? then Function(fn.value) else Deallocate(mr, memType, size));
    }
  }

  lemma {:induction false} ClaimsAreConstructions(ops: seq<Op>, block: Block)
    requires NoMoveAs(ops)
    ensures Claims(ops, Any(block)) == OwningConstructions(ops, block)
  {
    if ops != [] {
      ClaimsAreConstructions(ops[..|ops| - 1], block);
    }
  }

  lemma {:induction false} CountsAgree(released: seq<Token>, block: Block, release: Release)
    requires forall t | t in released && t.block == block :: t.release == release
    ensures Count(released, Exactly(Token(block, release))) == Count(released, Any(block))
  {
    if released != [] {
      CountsAgree(released[..|released| - 1], block, release);
    }
  }

  lemma {:induction false} NoneCounted(released: seq<Token>, block: Block)
    requires Count(released, Any(block)) == 0
    ensures forall t | t in released :: t.block != block
  {
    if released != [] {
      NoneCounted(released[..|released| - 1], block);
    }
  }

  /** From the constructor to the release: whatever moves, splits and assignments happen in between, a
      block is only ever released through the function its buffers were constructed with, or else
      deallocated with their memory resource, type and size; constructed as owned once, it is so released
      at most once, and exactly once when all handles are gone; never constructed as owned, never. */
  lemma BlockIsReleasedAsConstructed(ops: seq<Op>, block: Block, fn: Option<nat>, mr: nat, memType: nat, size: nat)
    requires ConstructedWith(ops, block, fn, mr, memType, size)
    ensures forall t | t in After(ops).released && t.block == block ::
              t == Token(block, if fn.Some? then Function(fn.value) else Deallocate(mr, memType, size))
    ensures var token := Token(block, if fn.Some? then Function(fn.value) else Deallocate(mr, memType, size));
            NoMoveAs(ops) && OwningConstructions(ops, block) == 1 ==>
              && Count(After(ops).released, Exactly(token)) <= 1
              && (After(ops).handles == map[] ==> Count(After(ops).released, Exactly(token)) == 1)
    ensures NoMoveAs(ops) && OwningConstructions(ops, block) == 0 ==>
              forall t | t in After(ops).released :: t.block != block
  {
    RunReleasesThrough(ops, block, fn, mr, memType, size);
    CountsAgree(After(ops).released, block, if fn.Some? then Function(fn.value) else Deallocate(mr, memType, size));
    if NoMoveAs(ops) {
      ClaimsAreConstructions(ops, block);
      ReleasedOnceByItsReleaser(ops, block, Deallocate(mr, memType, size));
      RunAccounts(ops, Any(block));
      if Count(After(ops).released, Any(block)) == 0 {
        NoneCounted(After(ops).released, block);
      }
    }
  }

  /** A move, an assignment or an accepted split hands the whole handle over and leaves nothing behind; a
      move that declares ownership changes that flag and nothing else; no other handle is touched. */
  lemma MovesHandOver(w: World, op: Op)
    requires Enabled(w, op) && (op.Move? || op.MoveAs? || (op.Assign? && op.id != op.from)
                                || (op.Split? && Accepted(op.sizes, w.handles[op.from].size)))
    ensures var w', h := Next(w, op), w.handles[op.from];
            && w'.handles.Keys == w.handles.Keys + {op.id}
            && w'.handles[op.id] == h.(own := if op.MoveAs? then op.own else h.own)
            && w'.handles[op.from].data.None? && !w'.handles[op.from].own
            && forall k | k in w.handles && k != op.id && k != op.from :: w'.handles[k] == w.handles[k]
  {}

  ghost function References(handles: map<HandleId, Handle>, block: Block): set<HandleId> {
    set id | id in handles && handles[id].data == Some(block)
  }

  function Constructions(ops: seq<Op>, block: Block): nat {
    if ops == [] then 0
    else
      var before, op := ops[..|ops| - 1], ops[|ops| - 1];
      Constructions(before, block)
      + if op.Construct? && op.id !in After(before).handles && op.handle.data == Some(block) then 1 else 0
  }

  function Refers(h: Handle, block: Block): int {
    if h.data == Some(block) then 1 else 0
  }

  lemma DropReference(handles: map<HandleId, Handle>, id: HandleId, block: Block)
    requires id in handles
    ensures |References(handles - {id}, block)| == |References(handles, block)| - Refers(handles[id], block)
  {
    assert References(handles - {id}, block) == References(handles, block) - {id};
  }

  lemma PutReference(handles: map<HandleId, Handle>, id: HandleId, h: Handle, block: Block)
    ensures |References(handles[id := h], block)|
         == |References(handles, block)| + Refers(h, block) - if id in handles then Refers(handles[id], block) else 0
  {
    if h.data == Some(block) {
      assert References(handles[id := h], block) == References(handles, block) + {id};
    } else {
      assert References(handles[id := h], block) == References(handles, block) - {id};
    }
  }

  lemma MovedRefers(w: World, id: HandleId, from: HandleId, h: Handle, block: Block)
    requires from in w.handles && id != from && h.data == w.handles[from].data
    ensures |References(Moved(w, id, from, h).handles, block)|
         == |References(w.handles, block)| - if id in w.handles then Refers(w.handles[id], block) else 0
  {
    PutReference(w.handles, from, w.handles[from].MovedFrom(), block);
    PutReference(w.handles[from := w.handles[from].MovedFrom()], id, h, block);
  }

  lemma StepRefers(w: World, op: Op, block: Block)
    ensures Count(Next(w, op).released, Any(block)) + |References(Next(w, op).handles, block)|
         <= Count(w.released, Any(block)) + |References(w.handles, block)|
            + if op.Construct? && op.id !in w.handles && op.handle.data == Some(block) then 1 else 0
  {
    if Enabled(w, op) {
      match op
      case Construct(id, h) => PutReference(w.handles, id, h, block);
      case Move(id, from) => MovedRefers(w, id, from, w.handles[from], block);
      case MoveAs(id, from, own) => MovedRefers(w, id, from, w.handles[from].(own := own), block);
      case Assign(id, from) =>
        if id != from {
          ReleaseCounts(w.released, w.handles[id], Any(block));
          MovedRefers(w, id, from, w.handles[from], block);
        }
      case Split(id, from, sizes) =>
        if Accepted(sizes, w.handles[from].size) {
          MovedRefers(w, id, from, w.handles[from], block);
        }
      case Destroy(id) =>
        ReleaseCounts(w.released, w.handles[id], Any(block));
        DropReference(w.handles, id, block);
    }
  }

  /** Over every run, even one that declares owners, the releases of a block and the handles that refer to
      it are together no more than the constructions around it: a block constructed once has at most one
      handle, and none once it is released. */
  lemma {:induction false} NoHandleOutlivesItsBlock(ops: seq<Op>, block: Block)
    ensures Count(After(ops).released, Any(block)) + |References(After(ops).handles, block)| <= Constructions(ops, block)
  {
    if ops == [] {
      assert References(map[], block) == {};
    } else {
      NoHandleOutlivesItsBlock(ops[..|ops| - 1], block);
      StepRefers(After(ops[..|ops| - 1]), ops[|ops| - 1], block);
    }
  }

  lemma AfterOneMore(ops: seq<Op>, op: Op)
    ensures After(ops + [op]) == Next(After(ops), op)
  {
    assert (ops + [op])[..|ops|] == ops;
  }

  /** A move that declares its target an owner can release a block twice: the owner and the declared one
      both do. */
  lemma DeclaredOwnerReleasesTwice()
    ensures var owner := Handle(0, 0, Some(7), 16, true, None);
            var ops := [Construct(0, owner), Construct(1, owner.(own := false)), MoveAs(2, 1, true), Destroy(0), Destroy(2)];
            var t := Token(7, Deallocate(0, 0, 16));
            After(ops).released == [t, t]
  {
    var owner := Handle(0, 0, Some(7), 16, true, None);
    var view := owner.(own := false);
    var ops1 := [Construct(0, owner)];
    var ops2 := ops1 + [Construct(1, view)];
    var ops3 := ops2 + [MoveAs(2, 1, true)];
    var ops4 := ops3 + [Destroy(0)];
    AfterOneMore([], Construct(0, owner));
    AfterOneMore(ops1, Construct(1, view));
    AfterOneMore(ops2, MoveAs(2, 1, true));
    AfterOneMore(ops3, Destroy(0));
    AfterOneMore(ops4, Destroy(2));
    assert [] + [Construct(0, owner)] == ops1;
    assert ops4 + [Destroy(2)]
        == [Construct(0, owner), Construct(1, view), MoveAs(2, 1, true), Destroy(0), Destroy(2)];
  }

  // ---------------------------------------------------------------------------
  // The buffers

  class Memory {
    var released: seq<Token>

    constructor ()
      ensures released == []
    {
      released := [];
    }

    method Run(release: Release, block: Block)
      modifies this
      ensures released == old(released) + [Token(block, release)]
    {
      released := released + [Token(block, release)];
    }
  }

  lemma WrapAdd(a: nat, b: nat)
    ensures (a % WRAP + b) % WRAP == (a + b) % WRAP
  {
    assert a == (a / WRAP) * WRAP + a % WRAP;
  }

  // The sum of the sizes in 64 bits.
  method AddUp(sizes: seq<U64>) returns (total: U64)
    ensures total == Sum(sizes) % WRAP
  {
    total := 0;
    var i := 0;
    while i < |sizes|
      invariant 0 <= i <= |sizes| && total == Sum(sizes[..i]) % WRAP
    {
      SumStep(sizes, i);
      WrapAdd(Sum(sizes[..i]), sizes[i]);
      total := (total + sizes[i]) % WRAP;
      i := i + 1;
    }
    assert sizes[..|sizes|] == sizes;
  }

  method Chop(sizes: seq<U64>) returns (buffers: seq<View>)
    ensures buffers == Views(sizes)
  {
    buffers := [];
    var current: nat := 0;
    var i := 0;
    while i < |sizes|
      invariant 0 <= i <= |sizes| && current == Sum(sizes[..i])
      invariant buffers == Views(sizes)[..i]
    {
      SumStep(sizes, i);
      buffers := buffers + [View(current, sizes[i])];
      current := current + sizes[i];
      i := i + 1;
    }
  }

  class UcxBuffer {
    var mr: nat
    var memType: nat
    var data: Option<Block>
    var size: U64
    var ownBuffer: bool
    var releaseFn: Option<nat>

    function State(): Handle
      reads this
    {
      Handle(mr, memType, data, size, ownBuffer, releaseFn)
    }

    // Allocates nothing when the size is zero.
    constructor Allocate(mr: nat, memType: nat, size: U64, block: Block, own: bool, fn: Option<nat>)
      ensures State() == Handle(mr, memType, if size > 0 then Some(block) else None, size, own, fn)
    {
      this.mr, this.memType, this.ownBuffer, this.releaseFn := mr, memType, own, fn;
      this.data, this.size := None, 0;
      if size > 0 {
        this.data, this.size := Some(block), size;
      }
    }

    constructor Wrap(mr: nat, memType: nat, data: Option<Block>, size: U64, own: bool, fn: Option<nat>)
      ensures State() == Handle(mr, memType, data, size, own, fn)
    {
      this.mr, this.memType, this.data, this.size, this.ownBuffer, this.releaseFn := mr, memType, data, size, own, fn;
    }

    constructor Move(other: UcxBuffer)
      modifies other
      ensures State() == old(other.State()) && other.State() == old(other.State().MovedFrom())
    {
      mr, memType, data, size, ownBuffer, releaseFn :=
        other.mr, other.memType, other.data, other.size, other.ownBuffer, other.releaseFn;
      new;
      other.releaseFn, other.data, other.size, other.ownBuffer := None, None, 0, false;
    }

    constructor MoveAs(other: UcxBuffer, own: bool)
      modifies other
      ensures State() == old(other.State()).(own := own) && other.State() == old(other.State().MovedFrom())
    {
      mr, memType, data, size, ownBuffer, releaseFn :=
        other.mr, other.memType, other.data, other.size, own, other.releaseFn;
      new;
      other.releaseFn, other.data, other.size, other.ownBuffer := None, None, 0, false;
    }

    method ReleaseBlock(memory: Memory)
      modifies memory
      ensures memory.released == old(memory.released) + old(Releases(State()))
    {
      if data.Some? && ownBuffer {
        if releaseFn.Some? {
          memory.Run(Function(releaseFn.value), data.value);
        } else {
          memory.Run(Deallocate(mr, memType, size), data.value);
        }
      }
    }

    method Destroy(memory: Memory)
      modifies this, memory
      ensures memory.released == old(memory.released) + old(Releases(State()))
      ensures old(data.Some? && ownBuffer && releaseFn.Some?) ==>
                memory.released == old(memory.released) + [Token(old(data.value), Function(old(releaseFn.value)))]
      ensures old(data.Some? && ownBuffer && releaseFn.None?) ==>
                memory.released == old(memory.released) + [Token(old(data.value), Deallocate(old(mr), old(memType), old(size)))]
      ensures old(data.None? || !ownBuffer) ==> memory.released == old(memory.released)
      ensures State() == old(State().Destroyed())
    {
      ReleaseBlock(memory);
      if data.Some? && ownBuffer {
        data, size, ownBuffer := None, 0, false;
      }
    }

    method Assign(other: UcxBuffer, memory: Memory)
      modifies this, other, memory
      ensures this == other ==> State() == old(State()) && memory.released == old(memory.released)
      ensures this != other ==>
                && memory.released == old(memory.released) + old(Releases(State()))
                && State() == old(other.State()) && other.State() == old(other.State().MovedFrom())
    {
      if this != other {
        ReleaseBlock(memory);
        mr, memType, data, size := other.mr, other.memType, other.data, other.size;
        ownBuffer, other.ownBuffer := other.ownBuffer, false;
        releaseFn, other.releaseFn := other.releaseFn, None;
        other.data, other.size := None, 0;
      }
    }

    // None when the sizes do not fit: then the buffer keeps its block.
    method ToBufferVec(sizes: seq<U64>) returns (vec: Option<UcxBufferVec>)
      modifies this
      ensures vec.Some? == Accepted(sizes, old(size))
      ensures vec.None? ==> State() == old(State())
      ensures vec.Some? ==>
                && fresh(vec.value) && fresh(vec.value.backingBuffer)
                && vec.value.buffers == Views(sizes) && !vec.value.ownBuffer
                && vec.value.backingBuffer.State() == old(State()) && State() == old(State().MovedFrom())
    {
      var total := AddUp(sizes);
      if total > size {
        vec := None;
      } else {
        var buffers := Chop(sizes);
        var backing := new UcxBuffer.Move(this);
        var v := new UcxBufferVec(buffers, backing);
        vec := Some(v);
      }
    }
  }

  // Views of one backing buffer: destroying them releases nothing but the backing buffer's block.
  class UcxBufferVec {
    var buffers: seq<View>
    var ownBuffer: bool
    var backingBuffer: UcxBuffer

    constructor (buffers: seq<View>, backing: UcxBuffer)
      ensures this.buffers == buffers && !ownBuffer && backingBuffer == backing
    {
      this.buffers, ownBuffer, backingBuffer := buffers, false, backing;
    }

    method Destroy(memory: Memory)
      requires !ownBuffer
      modifies backingBuffer, memory
      ensures memory.released == old(memory.released) + old(Releases(backingBuffer.State()))
    {
      backingBuffer.Destroy(memory);
    }
  }
}
