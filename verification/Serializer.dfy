/**
 Two-pass serialization.  The same serializer first runs against a target that only counts, then
 against a buffer of the counted size.  The serializer is any client whose next write depends on the
 offsets it was given; against the buffer the bytes it writes may also depend on what was written,
 as a checksum does.
 */
module Serializer {
  import opened Options

  type Byte = bv8

  // Append(bytes, alignment) asks for the next block; Patch overwrites bytes at a known position.
  datatype Op = Append(bytes: seq<Byte>, alignment: nat) | Patch(at: nat, bytes: seq<Byte>)

  // What an operation asks of the layout.
  datatype Shape = Block(size: nat, alignment: nat) | Overwrite(at: nat, size: nat)

  // The offset each operation returned; a patch returns nothing.
  type History = seq<Option<nat>>

  type Planner = History -> Shape
  type Client = (History, seq<Byte>) -> Op

  function ShapeOf(op: Op): Shape {
    match op
    case Append(bytes, alignment) => Block(|bytes|, alignment)
    case Patch(at, bytes) => Overwrite(at, |bytes|)
  }

  // Where a block goes, after padding.
  function Start(pos: nat, alignment: nat): nat {
    if alignment > 1 && pos % alignment != 0 then pos + (alignment - pos % alignment) else pos
  }

  function Max(a: nat, b: nat): nat {
    if a < b then b else a
  }

  datatype Sizing = Sizing(pos: nat, total: nat, history: History)

  function Sized(s: Sizing, shape: Shape): Sizing {
    match shape
    case Block(size, alignment) =>
      var start := Start(s.pos, alignment);
      Sizing(start + size, Max(s.total, start + size), s.history + [Some(start)])
    case Overwrite(at, size) => Sizing(s.pos, Max(s.total, at + size), s.history + [None])
  }

  // ok: no check has failed.  A failed check stops the serializer.
  datatype Writing = Writing(buf: seq<Byte>, pos: nat, ok: bool, history: History)

  function Splice(buf: seq<Byte>, at: nat, bytes: seq<Byte>): seq<Byte>
    requires at + |bytes| <= |buf|
  {
    buf[..at] + bytes + buf[at + |bytes|..]
  }

  function Wrote(w: Writing, op: Op): Writing {
    if !w.ok then w else
    match op
    case Append(bytes, alignment) =>
      var start := Start(w.pos, alignment);
      if start + |bytes| <= |w.buf|
      then Writing(Splice(w.buf, start, bytes), start + |bytes|, true, w.history + [Some(start)])
      else w.(pos := start + |bytes|, ok := false)
    case Patch(at, bytes) =>
      if at + |bytes| <= |w.buf|
      then w.(buf := Splice(w.buf, at, bytes), history := w.history + [None])
      else w.(ok := false)
  }

  function Plan(planner: Planner, n: nat): Sizing {
    if n == 0 then Sizing(0, 0, [])
    else
      var s := Plan(planner, n - 1);
      Sized(s, planner(s.history))
  }

  function Write(client: Client, buf: seq<Byte>, n: nat): Writing {
    if n == 0 then Writing(buf, 0, true, [])
    else
      var w := Write(client, buf, n - 1);
      Wrote(w, client(w.history, w.buf))
  }

  // The serializer's layout does not depend on the target, nor on the bytes in it.
  ghost predicate SameShape(planner: Planner, client: Client) {
    forall h, buf :: ShapeOf(client(h, buf)) == planner(h)
  }

  // ---------------------------------------------------------------------------
  // The size is exact

  lemma {:induction false} TotalGrows(planner: Planner, m: nat, n: nat)
    requires m <= n
    ensures Plan(planner, m).total <= Plan(planner, n).total
  {
    if m < n {
      TotalGrows(planner, m, n - 1);
    }
  }

  // One step of the two passes, side by side.
  lemma StepFits(w: Writing, s: Sizing, op: Op)
    requires w.ok && w.history == s.history && w.pos == s.pos && s.total <= |w.buf|
    ensures var w', s' := Wrote(w, op), Sized(s, ShapeOf(op));
            && |w'.buf| == |w.buf| && (w'.ok <==> s'.total <= |w.buf|)
            && (w'.ok ==> w'.history == s'.history && w'.pos == s'.pos)
  {}

  lemma FailureSticks(w: Writing, op: Op)
    requires !w.ok
    ensures Wrote(w, op) == w
  {}

  /** The buffer pass succeeds if and only if the buffer has at least the counted size, and then it
      returns the same offsets and stops at the same position. */
  lemma {:induction false} FitsExactly(planner: Planner, client: Client, buf: seq<Byte>, n: nat)
    requires SameShape(planner, client)
    ensures Write(client, buf, n).ok <==> Plan(planner, n).total <= |buf|
    ensures Write(client, buf, n).ok ==>
              Write(client, buf, n).history == Plan(planner, n).history && Write(client, buf, n).pos == Plan(planner, n).pos
    ensures |Write(client, buf, n).buf| == |buf|
  {
    if n > 0 {
      hide Sized, Wrote;
      FitsExactly(planner, client, buf, n - 1);
      TotalGrows(planner, n - 1, n);
      var w, s := Write(client, buf, n - 1), Plan(planner, n - 1);
      if w.ok {
        assert ShapeOf(client(w.history, w.buf)) == planner(w.history);
        StepFits(w, s, client(w.history, w.buf));
      } else {
        FailureSticks(w, client(w.history, w.buf));
      }
    }
  }

  lemma {:induction false} TotalCoversPos(planner: Planner, n: nat)
    ensures Plan(planner, n).pos <= Plan(planner, n).total
  {
    if n > 0 {
      TotalCoversPos(planner, n - 1);
    }
  }

  /** A buffer of exactly the counted size never fails a check, at any point of the run, and gives
      the offsets that were planned. */
  lemma TwoPassNeverOverflows(planner: Planner, client: Client, buf: seq<Byte>, n: nat, m: nat)
    requires SameShape(planner, client) && |buf| == Plan(planner, n).total && m <= n
    ensures Write(client, buf, m).ok
    ensures Write(client, buf, m).history == Plan(planner, m).history
    ensures Write(client, buf, n).pos <= |buf|
  {
    TotalGrows(planner, m, n);
    FitsExactly(planner, client, buf, m);
    FitsExactly(planner, client, buf, n);
    TotalCoversPos(planner, n);
  }

  // Every patch of the first n operations ends at or before the limit.
  ghost predicate PatchesWithin(planner: Planner, n: nat, limit: nat) {
    forall i | 0 <= i < n ::
      var shape := planner(Plan(planner, i).history);
      shape.Overwrite? ==> shape.at + shape.size <= limit
  }

  lemma {:induction false} TotalIsTheFurthestEnd(planner: Planner, n: nat, limit: nat)
    requires Plan(planner, n).pos <= limit
    ensures Plan(planner, n).total <= limit <==> PatchesWithin(planner, n, limit)
  {
    if n > 0 {
      var s := Plan(planner, n - 1);
      assert s.pos <= Plan(planner, n).pos;
      TotalIsTheFurthestEnd(planner, n - 1, limit);
      var shape := planner(s.history);
      if PatchesWithin(planner, n, limit) {
        assert shape.Overwrite? ==> shape.at + shape.size <= limit;
      }
    }
  }

  /** The counted size is the size the buffer pass reports as written if and only if no patch ends
      beyond the last block. */
  lemma SizeIsWrittenSizeIff(planner: Planner, client: Client, buf: seq<Byte>, n: nat)
    requires SameShape(planner, client) && |buf| == Plan(planner, n).total
    ensures Write(client, buf, n).pos == Plan(planner, n).total <==>
            PatchesWithin(planner, n, Write(client, buf, n).pos)
  {
    FitsExactly(planner, client, buf, n);
    TotalCoversPos(planner, n);
    TotalIsTheFurthestEnd(planner, n, Plan(planner, n).pos);
  }

  // ---------------------------------------------------------------------------
  // What was written is there

  // The operation the client performs at step i, and the range of the buffer it covers.
  function OpAt(client: Client, buf: seq<Byte>, i: nat): Op {
    var w := Write(client, buf, i);
    client(w.history, w.buf)
  }

  function From(client: Client, buf: seq<Byte>, i: nat): nat {
    var op := OpAt(client, buf, i);
    if op.Append? then Start(Write(client, buf, i).pos, op.alignment) else op.at
  }

  predicate Covers(client: Client, buf: seq<Byte>, i: nat, x: nat) {
    From(client, buf, i) <= x < From(client, buf, i) + |OpAt(client, buf, i).bytes|
  }

  lemma {:induction false} OkIsKept(client: Client, buf: seq<Byte>, m: nat, n: nat)
    requires m <= n && Write(client, buf, n).ok
    ensures Write(client, buf, m).ok
    ensures |Write(client, buf, n).buf| == |buf|
    ensures Write(client, buf, m).pos <= Write(client, buf, n).pos
    decreases n
  {
    if m < n {
      OkIsKept(client, buf, m, n - 1);
    } else if n > 0 {
      OkIsKept(client, buf, n - 1, n - 1);
    }
  }

  lemma StepWrites(client: Client, buf: seq<Byte>, n: nat, x: nat)
    requires Write(client, buf, n + 1).ok && x < |buf|
    ensures |Write(client, buf, n).buf| == |buf| == |Write(client, buf, n + 1).buf|
    ensures Covers(client, buf, n, x) ==>
              Write(client, buf, n + 1).buf[x] == OpAt(client, buf, n).bytes[x - From(client, buf, n)]
    ensures !Covers(client, buf, n, x) ==> Write(client, buf, n + 1).buf[x] == Write(client, buf, n).buf[x]
    ensures Covers(client, buf, n, x) ==> From(client, buf, n) + |OpAt(client, buf, n).bytes| <= |buf|
  {
    OkIsKept(client, buf, n, n + 1);
    OkIsKept(client, buf, n, n);
  }

  /** At the end each byte is the one the last operation to cover it wrote; a byte none covered is
      the buffer's own. */
  lemma {:induction false} LastWriteWins(client: Client, buf: seq<Byte>, n: nat, i: nat, x: nat)
    requires Write(client, buf, n).ok && i < n && x < |buf|
    requires Covers(client, buf, i, x)
    requires forall j | i < j < n :: !Covers(client, buf, j, x)
    ensures |Write(client, buf, n).buf| == |buf|
    ensures Write(client, buf, n).buf[x] == OpAt(client, buf, i).bytes[x - From(client, buf, i)]
    decreases n
  {
    hide Write, OpAt, From;
    StepWrites(client, buf, n - 1, x);
    if i < n - 1 {
      OkIsKept(client, buf, n - 1, n);
      LastWriteWins(client, buf, n - 1, i, x);
    }
  }

  lemma {:induction false} UncoveredIsUntouched(client: Client, buf: seq<Byte>, n: nat, x: nat)
    requires Write(client, buf, n).ok && x < |buf|
    requires forall j | 0 <= j < n :: !Covers(client, buf, j, x)
    ensures |Write(client, buf, n).buf| == |buf| && Write(client, buf, n).buf[x] == buf[x]
  {
    if n > 0 {
      hide Covers;
      OkIsKept(client, buf, n - 1, n);
      UncoveredIsUntouched(client, buf, n - 1, x);
      assert !Covers(client, buf, n - 1, x);
      StepWrites(client, buf, n - 1, x);
    }
  }

  /** A pass that failed stopped at the first operation that does not fit: the buffer is as the operations
      before it left it, but the position has moved past a block that was not written. */
  lemma {:induction false} FailureStopsThere(client: Client, buf: seq<Byte>, n: nat) returns (i: nat)
    requires !Write(client, buf, n).ok
    ensures i < n && Write(client, buf, i).ok
    ensures From(client, buf, i) + |OpAt(client, buf, i).bytes| > |buf|
    ensures Write(client, buf, n).buf == Write(client, buf, i).buf
    ensures Write(client, buf, n).history == Write(client, buf, i).history
    ensures Write(client, buf, n).pos == if OpAt(client, buf, i).Append? then From(client, buf, i) + |OpAt(client, buf, i).bytes|
                                         else Write(client, buf, i).pos
  {
    if Write(client, buf, n - 1).ok {
      i := n - 1;
      OkIsKept(client, buf, i, i);
    } else {
      i := FailureStopsThere(client, buf, n - 1);
    }
  }

  lemma ProductSign(d: int, a: nat)
    ensures d >= 1 ==> d * a >= a
    ensures d <= -1 ==> d * a + a <= 0
  {}

  // A number between two multiples that differ by less than one step is the multiple itself.
  lemma MultipleHasNoRemainder(q: nat, a: nat)
    requires a > 0
    ensures (q * a) % a == 0
  {
    var k, r := (q * a) / a, (q * a) % a;
    assert q * a == k * a + r;
    var d := q - k;
    assert d * a == r;
    ProductSign(d, a);
  }

  lemma StartIsAligned(pos: nat, alignment: nat)
    ensures Start(pos, alignment) >= pos && (alignment <= 1 ==> Start(pos, alignment) == pos)
    ensures alignment > 1 ==> Start(pos, alignment) % alignment == 0 && Start(pos, alignment) < pos + alignment
  {
    if alignment > 1 && pos % alignment != 0 {
      var q := pos / alignment;
      assert pos == q * alignment + pos % alignment;
      assert Start(pos, alignment) == (q + 1) * alignment;
      MultipleHasNoRemainder(q + 1, alignment);
    }
  }

  lemma ZeroIsAligned(alignment: nat)
    ensures Start(0, alignment) == 0
  {}

  /** An appended block is aligned and inside the buffer, and ends at the position the next operation
      starts from. */
  lemma BlockEndsAtPos(client: Client, buf: seq<Byte>, i: nat)
    requires Write(client, buf, i + 1).ok && OpAt(client, buf, i).Append?
    ensures From(client, buf, i) + |OpAt(client, buf, i).bytes| == Write(client, buf, i + 1).pos <= |buf|
    ensures OpAt(client, buf, i).alignment > 1 ==> From(client, buf, i) % OpAt(client, buf, i).alignment == 0
  {
    OkIsKept(client, buf, i, i + 1);
    OkIsKept(client, buf, i, i);
    StartIsAligned(Write(client, buf, i).pos, OpAt(client, buf, i).alignment);
  }

  /** No two appended blocks overlap. */
  lemma LaterBlockStartsAfter(client: Client, buf: seq<Byte>, n: nat, i: nat, j: nat)
    requires Write(client, buf, n).ok && i < j < n
    requires OpAt(client, buf, i).Append? && OpAt(client, buf, j).Append?
    ensures From(client, buf, i) + |OpAt(client, buf, i).bytes| <= From(client, buf, j)
  {
    hide Write, OpAt, Start;
    OkIsKept(client, buf, j, n);
    OkIsKept(client, buf, i + 1, j);
    BlockEndsAtPos(client, buf, i);
    StartIsAligned(Write(client, buf, j).pos, OpAt(client, buf, j).alignment);
  }

  // The operations from i to before j, which only patch, leave the position where it is.
  lemma {:induction false} PatchesKeepPos(client: Client, buf: seq<Byte>, i: nat, j: nat)
    requires i <= j && Write(client, buf, j).ok
    requires forall k | i <= k < j :: OpAt(client, buf, k).Patch?
    ensures Write(client, buf, j).pos == Write(client, buf, i).pos
    decreases j
  {
    if i < j {
      OkIsKept(client, buf, j - 1, j);
      assert OpAt(client, buf, j - 1).Patch?;
      PatchesKeepPos(client, buf, i, j - 1);
    }
  }

  /** Blocks are packed: between a block and the next one there is only the padding the next one needs, and
      the first block starts at zero. */
  lemma NextBlockFollows(client: Client, buf: seq<Byte>, i: nat, j: nat)
    requires i <= j && Write(client, buf, j).ok && OpAt(client, buf, j).Append?
    requires i == 0 || OpAt(client, buf, i - 1).Append?
    requires forall k | i <= k < j :: OpAt(client, buf, k).Patch?
    ensures var end, a := if i == 0 then 0 else From(client, buf, i - 1) + |OpAt(client, buf, i - 1).bytes|,
                          OpAt(client, buf, j).alignment;
            && end <= From(client, buf, j)
            && (a <= 1 ==> From(client, buf, j) == end) && (a > 1 ==> From(client, buf, j) < end + a)
            && (i == 0 ==> From(client, buf, j) == 0)
  {
    hide Start, OpAt;
    OkIsKept(client, buf, i, j);
    PatchesKeepPos(client, buf, i, j);
    StartIsAligned(Write(client, buf, j).pos, OpAt(client, buf, j).alignment);
    if i > 0 {
      BlockEndsAtPos(client, buf, i - 1);
    } else {
      ZeroIsAligned(OpAt(client, buf, j).alignment);
    }
  }

  ghost predicate Unpatched(client: Client, buf: seq<Byte>, i: nat, n: nat, x: nat) {
    forall j | i < j < n && OpAt(client, buf, j).Patch? :: !Covers(client, buf, j, x)
  }

  lemma LaterStepMissesBlock(client: Client, buf: seq<Byte>, n: nat, i: nat, j: nat, x: nat)
    requires Write(client, buf, n).ok && i < j < n && OpAt(client, buf, i).Append?
    requires x < From(client, buf, i) + |OpAt(client, buf, i).bytes|
    requires OpAt(client, buf, j).Patch? ==> !Covers(client, buf, j, x)
    ensures !Covers(client, buf, j, x)
  {
    if OpAt(client, buf, j).Append? {
      LaterBlockStartsAfter(client, buf, n, i, j);
    }
  }

  /** At the end an appended block still holds the bytes appended to it, wherever no later patch
      covers them. */
  lemma BlockIsIntact(client: Client, buf: seq<Byte>, n: nat, i: nat, k: nat)
    requires Write(client, buf, n).ok && i < n && OpAt(client, buf, i).Append?
    requires k < |OpAt(client, buf, i).bytes| && Unpatched(client, buf, i, n, From(client, buf, i) + k)
    ensures From(client, buf, i) + k < |Write(client, buf, n).buf| == |buf|
    ensures Write(client, buf, n).buf[From(client, buf, i) + k] == OpAt(client, buf, i).bytes[k]
  {
    hide Write, OpAt, From;
    var x := From(client, buf, i) + k;
    OkIsKept(client, buf, i + 1, n);
    BlockEndsAtPos(client, buf, i);
    forall j | i < j < n
      ensures !Covers(client, buf, j, x)
    {
      LaterStepMissesBlock(client, buf, n, i, j, x);
    }
    LastWriteWins(client, buf, n, i, x);
  }

  // ---------------------------------------------------------------------------
  // The two targets

  class CistaSizeCalculator {
    var pos: nat
    var totalSize: nat
    ghost var history: History

    ghost function State(): Sizing
      reads this
    {
      Sizing(pos, totalSize, history)
    }

    constructor ()
      ensures State() == Sizing(0, 0, [])
    {
      pos, totalSize, history := 0, 0, [];
    }

    method Write(numBytes: nat, alignment: nat) returns (start: nat)
      modifies this
      ensures State() == Sized(old(State()), Block(numBytes, alignment))
      ensures history == old(history) + [Some(start)]
    {
      if alignment > 1 {
        var misalignment := pos % alignment;
        if misalignment != 0 {
          pos := pos + (alignment - misalignment);
        }
      }
      start := pos;
      pos := pos + numBytes;
      totalSize := Max(totalSize, pos);
      history := history + [Some(start)];
    }

    method WritePatch(at: nat, size: nat)
      modifies this
      ensures State() == Sized(old(State()), Overwrite(at, size))
    {
      totalSize := Max(totalSize, at + size);
      history := history + [None];
    }
  }

  class FixedBufferWriter {
    const base: array<Byte>
    var pos: nat
    ghost var ok: bool
    ghost var history: History

    ghost function State(): Writing
      reads this, base
    {
      Writing(base[..], pos, ok, history)
    }

    constructor (base: array<Byte>)
      ensures State() == Writing(base[..], 0, true, []) && this.base == base
    {
      this.base, pos, ok, history := base, 0, true, [];
    }

    method Copy(start: nat, bytes: seq<Byte>)
      requires start + |bytes| <= base.Length
      modifies base
      ensures base[..] == Splice(old(base[..]), start, bytes)
    {
      forall k | 0 <= k < |bytes| {
        base[start + k] := bytes[k];
      }
    }

    // None when the overflow check fails; by then the position has already moved.
    method Write(bytes: seq<Byte>, alignment: nat) returns (start: Option<nat>)
      requires ok
      modifies this, base
      ensures State() == Wrote(old(State()), Append(bytes, alignment))
      ensures ok == start.Some? && (ok ==> history == old(history) + [start])
    {
      if alignment > 1 {
        var misalignment := pos % alignment;
        if misalignment != 0 {
          pos := pos + (alignment - misalignment);
        }
      }
      var at := pos;
      pos := pos + |bytes|;
      if pos <= base.Length {
        Copy(at, bytes);
        start := Some(at);
        history := history + [start];
      } else {
        start := None;
        ok := false;
      }
    }

    method WritePatch(at: nat, bytes: seq<Byte>) returns (written: bool)
      requires ok
      modifies this, base
      ensures State() == Wrote(old(State()), Patch(at, bytes)) && ok == written
    {
      written := at + |bytes| <= base.Length;
      if written {
        Copy(at, bytes);
        history := history + [None];
      } else {
        ok := false;
      }
    }
  }

  // The first n operations of the serializer, counted.
  method GetSerializedSize(planner: Planner, n: nat) returns (size: nat)
    ensures size == Plan(planner, n).total
  {
    var calculator := new CistaSizeCalculator();
    var history: History := [];
    var i := 0;
    while i < n
      invariant 0 <= i <= n
      invariant calculator.State() == Plan(planner, i) && history == calculator.history
    {
      match planner(history) {
        case Block(size, alignment) =>
          var start := calculator.Write(size, alignment);
          history := history + [Some(start)];
        case Overwrite(at, size) =>
          calculator.WritePatch(at, size);
          history := history + [None];
      }
      i := i + 1;
    }
    size := calculator.totalSize;
  }

  // One operation on the buffer that passes its check.
  method Perform(writer: FixedBufferWriter, op: Op, history: History) returns (history': History)
    requires writer.ok && Wrote(writer.State(), op).ok && history == writer.history
    modifies writer, writer.base
    ensures writer.State() == Wrote(old(writer.State()), op) && history' == writer.history
  {
    match op
    case Append(bytes, alignment) =>
      var start := writer.Write(bytes, alignment);
      history' := history + [start];
    case Patch(at, bytes) =>
      var written := writer.WritePatch(at, bytes);
      history' := history + [None];
  }

  /** Both passes: the buffer pass runs to its end and leaves what the client wrote. */
  method Serialize(planner: Planner, client: Client, n: nat) returns (buf: array<Byte>)
    requires SameShape(planner, client)
    ensures fresh(buf) && buf.Length == Plan(planner, n).total
    ensures exists initial :: |initial| == buf.Length && Write(client, initial, n).ok
              && Write(client, initial, n).buf == buf[..] && Write(client, initial, n).history == Plan(planner, n).history
  {
    var size := GetSerializedSize(planner, n);
    buf := new Byte[size];
    var writer := new FixedBufferWriter(buf);
    ghost var initial := buf[..];
    var history: History := [];
    var i := 0;
    while i < n
      invariant 0 <= i <= n
      invariant writer.State() == Write(client, initial, i) && history == writer.history
    {
      TwoPassNeverOverflows(planner, client, initial, n, i);
      TwoPassNeverOverflows(planner, client, initial, n, i + 1);
      history := Perform(writer, client(history, buf[..]), history);
      i := i + 1;
    }
    TwoPassNeverOverflows(planner, client, initial, n, n);
  }
}
