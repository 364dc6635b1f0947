/**
 RPC arguments: the caller packs a typed argument list into tagged parameters, and the callee reads
 them back by its own parameter types with a running index.  Payloads, the request header and the
 response builder travel beside the parameters and use no index.
 */
module RpcArguments {
  import opened Options

  datatype Prim = Bool | Int8 | Int16 | Int32 | Int64 | UInt8 | UInt16 | UInt32 | UInt64 | Float32 | Float64

  datatype ParamType = Primitive(prim: Prim) | Vector(element: Prim) | Text | Void | Tensor | TensorVec | Unknown

  // Primitive values and tensor descriptions are opaque here.
  type Bits = int

  type TensorMeta = nat

  // The value variant; the primitive and vector alternatives hold a variant of their own.
  datatype Value =
    | PrimitiveValue(prim: Prim, bits: Bits)
    | VectorValue(element: Prim, items: seq<Bits>)
    | TextValue(text: string)
    | NullValue
    | TensorValue(tensor: TensorMeta)
    | TensorVecValue(tensors: seq<TensorMeta>)

  datatype ParamMeta = ParamMeta(tag: ParamType, value: Value, name: string)

  // The four C++ types that are packed as a string.
  datatype TextForm = DataString | StdString | StringView | CString

  // The two payload types.
  datatype Kind = Buffer | BufferVec

  // The object a call reads its payload from; its content is gone once it was moved out.
  datatype Context = Context(kind: Kind, content: Option<nat>)

  // A caller's argument.
  datatype Arg =
    | PrimArg(prim: Prim, bits: Bits)
    | StrongArg(prim: Prim, bits: Bits)
    | TextArg(form: TextForm, text: string)
    | TensorArg(tensor: TensorMeta)
    | VectorArg(std: bool, element: Prim, items: seq<Bits>)
    | TensorVecArg(std: bool, tensors: seq<TensorMeta>)
    | PayloadArg(kind: Kind, payload: nat)
    | HeaderArg

  // A callee's parameter.  A payload is taken by value or by reference.
  datatype Formal =
    | PrimFormal(prim: Prim)
    | StrongFormal(prim: Prim)
    | TextFormal
    | TensorFormal
    | VectorFormal(element: Prim)
    | TensorVecFormal(std: bool)
    | PayloadFormal(kind: Kind, byValue: bool)
    | HeaderFormal
    | BuilderFormal

  // What the callee receives.  ContextActual is a reference to the context, which the callee reads once
  // everything is extracted.  MisreadActual is the context read as an object of the other type.
  datatype Actual =
    | PrimActual(prim: Prim, bits: Bits)
    | StrongActual(prim: Prim, bits: Bits)
    | TextActual(text: string)
    | TensorActual(tensor: TensorMeta)
    | VectorActual(element: Prim, items: seq<Bits>)
    | TensorVecActual(std: bool, tensors: seq<TensorMeta>)
    | PayloadActual(content: Option<nat>)
    | ContextActual
    | MisreadActual
    | HeaderActual
    | BuilderActual

  datatype Error = OutOfRange | InvalidAccess | WrongAlternative | MissingPayload

  datatype Result<+T> = Ok(value: T) | Err(error: Error)

  // ---------------------------------------------------------------------------
  // Types and packing

  // The tag of an argument type; Unknown for what is not serialized.
  function ArgType(a: Arg): ParamType {
    match a
    case PrimArg(p, _) => Primitive(p)
    case StrongArg(p, _) => Primitive(p)
    case TextArg(_, _) => Text
    case TensorArg(_) => Tensor
    case VectorArg(_, e, _) => Vector(e)
    case TensorVecArg(_, _) => TensorVec
    case PayloadArg(_, _) => Unknown
    case HeaderArg => Unknown
  }

  function FormalType(f: Formal): ParamType {
    match f
    case PrimFormal(p) => Primitive(p)
    case StrongFormal(p) => Primitive(p)
    case TextFormal => Text
    case TensorFormal => Tensor
    case VectorFormal(e) => Vector(e)
    case TensorVecFormal(_) => TensorVec
    case PayloadFormal(_, _) => Unknown
    case HeaderFormal => Unknown
    case BuilderFormal => Unknown
  }

  function ArgValue(a: Arg): Value {
    match a
    case PrimArg(p, bits) => PrimitiveValue(p, bits)
    case StrongArg(p, bits) => PrimitiveValue(p, bits)
    case TextArg(_, text) => TextValue(text)
    case TensorArg(t) => TensorValue(t)
    case VectorArg(_, e, items) => VectorValue(e, items)
    case TensorVecArg(_, ts) => TensorVecValue(ts)
    case PayloadArg(_, _) => NullValue
    case HeaderArg => NullValue
  }

  function Packed(a: Arg): seq<ParamMeta> {
    if ArgType(a).Unknown? then [] else [ParamMeta(ArgType(a), ArgValue(a), "")]
  }

  function PackedAll(args: seq<Arg>): seq<ParamMeta> {
    if args == [] then [] else PackedAll(args[..|args| - 1]) + Packed(args[|args| - 1])
  }

  // The tags a function's parameter types are registered with.
  function ParamTypes(formals: seq<Formal>): seq<ParamType> {
    if formals == [] then []
    else (if FormalType(formals[0]).Unknown? then [] else [FormalType(formals[0])]) + ParamTypes(formals[1..])
  }

  function Tags(params: seq<ParamMeta>): seq<ParamType> {
    seq(|params|, i requires 0 <= i < |params| => params[i].tag)
  }

  // The value is of the alternative its tag names.
  predicate Agrees(m: ParamMeta) {
    match m.tag
    case Primitive(p) => m.value.PrimitiveValue? && m.value.prim == p
    case Vector(e) => m.value.VectorValue? && m.value.element == e
    case Text => m.value.TextValue?
    case Tensor => m.value.TensorValue?
    case TensorVec => m.value.TensorVecValue?
    case _ => true
  }

  // ---------------------------------------------------------------------------
  // Reading

  function GetPrimitive(params: seq<ParamMeta>, i: nat, p: Prim): Result<Bits> {
    if i >= |params| then Err(OutOfRange)
    else if params[i].tag != Primitive(p) then Err(InvalidAccess)
    else if params[i].value.PrimitiveValue? && params[i].value.prim == p then Ok(params[i].value.bits)
    else Err(WrongAlternative)
  }

  function GetText(params: seq<ParamMeta>, i: nat): Result<string> {
    if i >= |params| || params[i].tag != Text then Err(InvalidAccess)
    else if params[i].value.TextValue? then Ok(params[i].value.text)
    else Err(WrongAlternative)
  }

  function GetVector(params: seq<ParamMeta>, i: nat, e: Prim): Result<seq<Bits>> {
    if i >= |params| then Err(OutOfRange)
    else if params[i].tag != Vector(e) then Err(InvalidAccess)
    else if params[i].value.VectorValue? && params[i].value.element == e then Ok(params[i].value.items)
    else Err(WrongAlternative)
  }

  function GetTensor(params: seq<ParamMeta>, i: nat): Result<TensorMeta> {
    if i >= |params| || params[i].tag != Tensor then Err(InvalidAccess)
    else if params[i].value.TensorValue? then Ok(params[i].value.tensor)
    else Err(WrongAlternative)
  }

  function GetTensorVec(params: seq<ParamMeta>, i: nat): Result<seq<TensorMeta>> {
    if i >= |params| || params[i].tag != TensorVec then Err(InvalidAccess)
    else if params[i].value.TensorVecValue? then Ok(params[i].value.tensors)
    else Err(WrongAlternative)
  }

  // What travels beside the parameters gives the formal.
  function Beside(f: Formal, ctx: Context): Actual
    requires FormalType(f).Unknown?
  {
    match f
    case PayloadFormal(kind, byValue) =>
      if kind != ctx.kind then MisreadActual else if byValue then PayloadActual(ctx.content) else ContextActual
    case HeaderFormal => HeaderActual
    case BuilderFormal => BuilderActual
  }

  // Taking a payload by value moves it out of the context.
  function Leaves(f: Formal, ctx: Context): Context {
    if f == PayloadFormal(ctx.kind, true) then ctx.(content := None) else ctx
  }

  // What the parameter at i gives the formal; beside the parameters there is one context, whose type
  // nobody checks.
  function Access(f: Formal, params: seq<ParamMeta>, i: nat, ctx: Context): Result<Actual> {
    match f
    case PrimFormal(p) =>
      var v := GetPrimitive(params, i, p);
      if v.Ok? then Ok(PrimActual(p, v.value)) else Err(v.error)
    case StrongFormal(p) =>
      var v := GetPrimitive(params, i, p);
      if v.Ok? then Ok(StrongActual(p, v.value)) else Err(v.error)
    case TextFormal =>
      var v := GetText(params, i);
      if v.Ok? then Ok(TextActual(v.value)) else Err(v.error)
    case TensorFormal =>
      var v := GetTensor(params, i);
      if v.Ok? then Ok(TensorActual(v.value)) else Err(v.error)
    case VectorFormal(e) =>
      var v := GetVector(params, i, e);
      if v.Ok? then Ok(VectorActual(e, v.value)) else Err(v.error)
    case TensorVecFormal(std) =>
      var v := GetTensorVec(params, i);
      if v.Ok? then Ok(TensorVecActual(std, v.value)) else Err(v.error)
    case PayloadFormal(_, _) => Ok(Beside(f, ctx))
    case HeaderFormal => Ok(HeaderActual)
    case BuilderFormal => Ok(BuilderActual)
  }

  function Consumes(f: Formal): nat {
    if FormalType(f).Unknown? then 0 else 1
  }

  // The first `n` formals read left to right from index 0, and the index they leave.
  function IndexAfter(formals: seq<Formal>, n: nat): nat
    requires n <= |formals|
  {
    if n == 0 then 0 else IndexAfter(formals, n - 1) + Consumes(formals[n - 1])
  }

  // The context after the first n formals.
  function ContextAfter(formals: seq<Formal>, ctx: Context, n: nat): Context
    requires n <= |formals|
  {
    if n == 0 then ctx else Leaves(formals[n - 1], ContextAfter(formals, ctx, n - 1))
  }

  // All formals are read, the first failure ends the reading.
  function Extracted(formals: seq<Formal>, params: seq<ParamMeta>, ctx: Context, n: nat): Result<seq<Actual>>
    requires n <= |formals|
  {
    if n == 0 then Ok([])
    else
      var before := Extracted(formals, params, ctx, n - 1);
      if before.Err? then before
      else
        var a := Access(formals[n - 1], params, IndexAfter(formals, n - 1), ContextAfter(formals, ctx, n - 1));
        if a.Err? then Err(a.error) else Ok(before.value + [a.value])
  }

  function Extract(formals: seq<Formal>, params: seq<ParamMeta>, ctx: Context): Result<seq<Actual>> {
    Extracted(formals, params, ctx, |formals|)
  }

  // The function reads a payload.
  predicate NeedsPayload(formals: seq<Formal>) {
    exists j :: 0 <= j < |formals| && formals[j].PayloadFormal?
  }

  // What the callee finds in its parameters: a reference shows what extraction left in the context.
  function Seen(actuals: seq<Actual>, after: Context): seq<Actual> {
    seq(|actuals|, j requires 0 <= j < |actuals| =>
      if actuals[j].ContextActual? then PayloadActual(after.content) else actuals[j])
  }

  const NO_CONTEXT := Context(Buffer, None)

  // A function that reads a payload is refused without one before anything is extracted; one that
  // reads none never looks at it.
  function Call(formals: seq<Formal>, params: seq<ParamMeta>, ctx: Option<Context>): Result<seq<Actual>> {
    if NeedsPayload(formals) && ctx.None? then Err(MissingPayload)
    else
      var c := if ctx.Some? then ctx.value else NO_CONTEXT;
      var r := Extract(formals, params, c);
      if r.Err? then r else Ok(Seen(r.value, ContextAfter(formals, c, |formals|)))
  }

  // The payload among the caller's arguments, of which there is at most one.
  function PayloadCount(args: seq<Arg>): nat {
    if args == [] then 0 else (if args[0].PayloadArg? then 1 else 0) + PayloadCount(args[1..])
  }

  function PayloadOf(args: seq<Arg>): Option<Context> {
    if args == [] then None
    else if args[0].PayloadArg? then Some(Context(args[0].kind, Some(args[0].payload)))
    else PayloadOf(args[1..])
  }

  // ---------------------------------------------------------------------------
  // When extraction succeeds

  lemma AccessSucceedsIff(f: Formal, params: seq<ParamMeta>, i: nat, ctx: Context)
    ensures Access(f, params, i, ctx).Ok? <==>
            FormalType(f).Unknown? || (i < |params| && params[i].tag == FormalType(f) && Agrees(params[i]))
    ensures Access(f, params, i, ctx).Err? ==>
              Access(f, params, i, ctx).error ==
                if i >= |params|
                then (if f.PrimFormal? || f.StrongFormal? || f.VectorFormal? then OutOfRange else InvalidAccess)
                else if params[i].tag != FormalType(f) then InvalidAccess else WrongAlternative
  {}

  lemma {:induction false} TypesSplit(formals: seq<Formal>, n: nat)
    requires n < |formals|
    ensures ParamTypes(formals[..n + 1])
         == ParamTypes(formals[..n]) + if FormalType(formals[n]).Unknown? then [] else [FormalType(formals[n])]
    decreases |formals|
  {
    if n == 0 {
      assert formals[..1][1..] == [];
    } else {
      TypesSplit(formals[1..], n - 1);
      assert formals[..n + 1][1..] == formals[1..][..n];
      assert formals[..n][1..] == formals[1..][..n - 1];
    }
  }

  lemma {:induction false} IndexCountsTypes(formals: seq<Formal>, n: nat)
    requires n <= |formals|
    ensures |ParamTypes(formals[..n])| == IndexAfter(formals, n)
  {
    if n > 0 {
      IndexCountsTypes(formals, n - 1);
      TypesSplit(formals, n - 1);
    }
  }

  // The parameter list starts with these tags, each with a value of its alternative.
  predicate Begins(params: seq<ParamMeta>, types: seq<ParamType>) {
    |types| <= |params| && forall i | 0 <= i < |types| :: params[i].tag == types[i] && Agrees(params[i])
  }

  lemma BeginsOneMore(params: seq<ParamMeta>, types: seq<ParamType>, t: ParamType)
    ensures Begins(params, types + [t]) <==>
            Begins(params, types) && |types| < |params| && params[|types|].tag == t && Agrees(params[|types|])
  {
    if Begins(params, types + [t]) {
      assert (types + [t])[|types|] == t;
      forall i | 0 <= i < |types|
        ensures params[i].tag == types[i] && Agrees(params[i])
      {
        assert (types + [t])[i] == types[i];
      }
    }
  }

  lemma {:induction false} PrefixSucceedsIff(formals: seq<Formal>, params: seq<ParamMeta>, ctx: Context, n: nat)
    requires n <= |formals|
    ensures Extracted(formals, params, ctx, n).Ok? <==> Begins(params, ParamTypes(formals[..n]))
  {
    if n > 0 {
      PrefixSucceedsIff(formals, params, ctx, n - 1);
      IndexCountsTypes(formals, n - 1);
      TypesSplit(formals, n - 1);
      var f, i := formals[n - 1], IndexAfter(formals, n - 1);
      AccessSucceedsIff(f, params, i, ContextAfter(formals, ctx, n - 1));
      if FormalType(f).Unknown? {
        assert ParamTypes(formals[..n - 1]) + [] == ParamTypes(formals[..n - 1]);
      } else {
        BeginsOneMore(params, ParamTypes(formals[..n - 1]), FormalType(f));
      }
    }
  }

  /** Extraction succeeds if and only if the list begins with the function's registered tags, each
      with a value that agrees with its tag.  Parameters beyond those are ignored. */
  lemma ExtractSucceedsIff(formals: seq<Formal>, params: seq<ParamMeta>, ctx: Context)
    ensures Extract(formals, params, ctx).Ok? <==> Begins(params, ParamTypes(formals))
  {
    assert formals[..|formals|] == formals;
    PrefixSucceedsIff(formals, params, ctx, |formals|);
  }

  /** What Validate accepts against the registered tags can be extracted, if values agree with tags. */
  lemma ValidatedCanBeExtracted(formals: seq<Formal>, params: seq<ParamMeta>, ctx: Context)
    requires Tags(params) == ParamTypes(formals)
    requires forall i | 0 <= i < |params| :: Agrees(params[i])
    ensures Extract(formals, params, ctx).Ok?
  {
    ExtractSucceedsIff(formals, params, ctx);
    forall i | 0 <= i < |params|
      ensures params[i].tag == ParamTypes(formals)[i]
    {
      assert Tags(params)[i] == params[i].tag;
    }
  }

  /** When it succeeds every formal got what its own parameter holds. */
  lemma {:induction false} EachFormalGetsItsParameter(
    formals: seq<Formal>, params: seq<ParamMeta>, ctx: Context, n: nat, j: nat)
    requires j < n <= |formals| && Extracted(formals, params, ctx, n).Ok?
    ensures |Extracted(formals, params, ctx, n).value| == n
    ensures Access(formals[j], params, IndexAfter(formals, j), ContextAfter(formals, ctx, j))
         == Ok(Extracted(formals, params, ctx, n).value[j])
    decreases n
  {
    if j < n - 1 {
      EachFormalGetsItsParameter(formals, params, ctx, n - 1, j);
    } else if n > 1 {
      EachFormalGetsItsParameter(formals, params, ctx, n - 1, 0);
    }
  }

  /** When it fails the error is that of the first formal whose own parameter cannot be read. */
  lemma {:induction false} FirstFailureIsReported(
    formals: seq<Formal>, params: seq<ParamMeta>, ctx: Context, n: nat, j: nat)
    requires j < n <= |formals|
    requires Begins(params, ParamTypes(formals[..j]))
    requires Access(formals[j], params, IndexAfter(formals, j), ContextAfter(formals, ctx, j)).Err?
    ensures Extracted(formals, params, ctx, n)
         == Err(Access(formals[j], params, IndexAfter(formals, j), ContextAfter(formals, ctx, j)).error)
    decreases n
  {
    if n == j + 1 {
      PrefixSucceedsIff(formals, params, ctx, j);
    } else {
      FirstFailureIsReported(formals, params, ctx, n - 1, j);
    }
  }

  // ---------------------------------------------------------------------------
  // Round trip

  // The arguments that are serialized.
  function Serialized(args: seq<Arg>): seq<Arg> {
    if args == [] then []
    else Serialized(args[..|args| - 1]) + if ArgType(args[|args| - 1]).Unknown? then [] else [args[|args| - 1]]
  }

  // The value the caller gave, as the formal's type presents it.
  function Presented(f: Formal, a: Arg): Actual
    requires !FormalType(f).Unknown? && FormalType(f) == ArgType(a)
  {
    match f
    case PrimFormal(p) => PrimActual(p, a.bits)
    case StrongFormal(p) => StrongActual(p, a.bits)
    case TextFormal => TextActual(a.text)
    case TensorFormal => TensorActual(a.tensor)
    case VectorFormal(e) => VectorActual(e, a.items)
    case TensorVecFormal(std) => TensorVecActual(std, a.tensors)
  }

  // The serialized arguments have the types of the formals that are read from parameters.
  predicate Matches(formals: seq<Formal>, args: seq<Arg>) {
    var s := Serialized(args);
    |s| == |ParamTypes(formals)| && forall i | 0 <= i < |s| :: ArgType(s[i]) == ParamTypes(formals)[i]
  }

  lemma {:induction false} PackedOneByOne(args: seq<Arg>)
    ensures |PackedAll(args)| == |Serialized(args)|
    ensures forall i | 0 <= i < |Serialized(args)| ::
              && !ArgType(Serialized(args)[i]).Unknown?
              && PackedAll(args)[i] == ParamMeta(ArgType(Serialized(args)[i]), ArgValue(Serialized(args)[i]), "")
  {
    if args != [] {
      PackedOneByOne(args[..|args| - 1]);
    }
  }

  /** Packing always produces values that agree with their tags. */
  lemma PackedAgrees(args: seq<Arg>, i: nat)
    requires i < |PackedAll(args)|
    ensures Agrees(PackedAll(args)[i])
  {
    PackedOneByOne(args);
  }

  /** Validate accepts what was packed if and only if the serialized arguments match the function. */
  lemma PackedValidatesIff(formals: seq<Formal>, args: seq<Arg>)
    ensures Tags(PackedAll(args)) == ParamTypes(formals) <==> Matches(formals, args)
  {
    PackedOneByOne(args);
    var tags, s := Tags(PackedAll(args)), Serialized(args);
    assert forall i | 0 <= i < |s| :: tags[i] == ArgType(s[i]);
    if Matches(formals, args) {
      assert tags == ParamTypes(formals);
    }
  }

  lemma AccessPresents(f: Formal, params: seq<ParamMeta>, i: nat, ctx: Context, a: Arg)
    requires i < |params| && params[i] == ParamMeta(ArgType(a), ArgValue(a), "")
    requires !FormalType(f).Unknown? && Access(f, params, i, ctx).Ok?
    ensures FormalType(f) == ArgType(a) && Access(f, params, i, ctx) == Ok(Presented(f, a))
  {
    AccessSucceedsIff(f, params, i, ctx);
  }

  lemma AccessBeside(f: Formal, params: seq<ParamMeta>, i: nat, ctx: Context)
    requires FormalType(f).Unknown?
    ensures Access(f, params, i, ctx) == Ok(Beside(f, ctx))
  {}

  lemma PackedExtracts(formals: seq<Formal>, args: seq<Arg>, ctx: Context)
    requires Tags(PackedAll(args)) == ParamTypes(formals)
    ensures Extract(formals, PackedAll(args), ctx).Ok?
  {
    var params := PackedAll(args);
    forall i | 0 <= i < |params| ensures Agrees(params[i]) {
      PackedAgrees(args, i);
    }
    ValidatedCanBeExtracted(formals, params, ctx);
  }

  // What the callee's j-th parameter should be: the caller's payload, the serialized argument at the
  // parameter's index, or what the call itself provides.
  predicate Delivered(formals: seq<Formal>, args: seq<Arg>, j: nat, got: Actual)
    requires j < |formals|
  {
    var i := IndexAfter(formals, j);
    match formals[j]
    case PayloadFormal(kind, _) =>
      got.PayloadActual? && got.content.Some? && PayloadArg(kind, got.content.value) in args
    case HeaderFormal => got == HeaderActual
    case BuilderFormal => got == BuilderActual
    case f =>
      i < |Serialized(args)| && FormalType(f) == ArgType(Serialized(args)[i]) && got == Presented(f, Serialized(args)[i])
  }

  lemma {:induction false} PayloadIsAnArgument(args: seq<Arg>)
    ensures PayloadOf(args).Some? ==>
              && PayloadOf(args).value.content.Some?
              && PayloadArg(PayloadOf(args).value.kind, PayloadOf(args).value.content.value) in args
    ensures PayloadOf(args).Some? <==> PayloadCount(args) > 0
  {
    if args != [] {
      PayloadIsAnArgument(args[1..]);
    }
  }

  /** With at most one payload among its arguments, the caller's payload is the only one there is. */
  lemma {:induction false} PayloadIsUnique(args: seq<Arg>, i: nat)
    requires PayloadCount(args) <= 1 && i < |args| && args[i].PayloadArg?
    ensures PayloadOf(args) == Some(Context(args[i].kind, Some(args[i].payload)))
  {
    if i > 0 {
      PayloadIsAnArgument(args[1..]);
      PayloadIsUnique(args[1..], i - 1);
    }
  }

  // A payload of this kind is taken by value by the k-th formal.
  predicate Takes(formals: seq<Formal>, k: nat, kind: Kind)
    requires k < |formals|
  {
    formals[k] == PayloadFormal(kind, true)
  }

  lemma {:induction false} ContextIsEmptiedIff(formals: seq<Formal>, ctx: Context, n: nat)
    requires n <= |formals|
    ensures ContextAfter(formals, ctx, n).kind == ctx.kind
    ensures ContextAfter(formals, ctx, n).content
         == if exists k: nat :: k < n && Takes(formals, k, ctx.kind) then None else ctx.content
  {
    if n > 0 {
      ContextIsEmptiedIff(formals, ctx, n - 1);
      assert Leaves(formals[n - 1], ContextAfter(formals, ctx, n - 1)).content.None? || !Takes(formals, n - 1, ctx.kind);
    }
  }

  // The j-th formal gets a payload of this kind: it is of that kind, and nobody takes the payload by
  // value before it reads it.  A reference is read by the callee, after everything is extracted.
  predicate Reads(formals: seq<Formal>, j: nat, kind: Kind)
    requires j < |formals| && formals[j].PayloadFormal?
  {
    && formals[j].kind == kind
    && forall k: nat | k < (if formals[j].byValue then j else |formals|) :: !Takes(formals, k, kind)
  }

  /** A call goes through if and only if a function that reads a payload is given one and the parameters
      begin with its registered tags; a missing payload is reported before anything is extracted. */
  lemma CallSucceedsIff(formals: seq<Formal>, params: seq<ParamMeta>, ctx: Option<Context>)
    ensures Call(formals, params, ctx).Ok? <==>
            && (ctx.Some? || forall j | 0 <= j < |formals| :: !formals[j].PayloadFormal?)
            && Begins(params, ParamTypes(formals))
    ensures ctx.None? && (exists j :: 0 <= j < |formals| && formals[j].PayloadFormal?) ==>
              Call(formals, params, ctx) == Err(MissingPayload)
  {
    ExtractSucceedsIff(formals, params, if ctx.Some? then ctx.value else NO_CONTEXT);
  }

  // The j-th formal gets what it should, as far as a caller can tell before the call.
  predicate WillGet(formals: seq<Formal>, args: seq<Arg>, j: nat)
    requires j < |formals|
  {
    formals[j].PayloadFormal? ==> PayloadOf(args).Some? && Reads(formals, j, PayloadOf(args).value.kind)
  }

  lemma SeenIs(formals: seq<Formal>, args: seq<Arg>, j: nat)
    requires Tags(PackedAll(args)) == ParamTypes(formals) && j < |formals|
    requires NeedsPayload(formals) ==> PayloadOf(args).Some?
    ensures var c := if PayloadOf(args).Some? then PayloadOf(args).value else NO_CONTEXT;
            var r, a := Call(formals, PackedAll(args), PayloadOf(args)),
                        Access(formals[j], PackedAll(args), IndexAfter(formals, j), ContextAfter(formals, c, j));
            && r.Ok? && |r.value| == |formals| && a.Ok?
            && r.value[j] == if a.value.ContextActual? then PayloadActual(ContextAfter(formals, c, |formals|).content)
                             else a.value
  {
    var c := if PayloadOf(args).Some? then PayloadOf(args).value else NO_CONTEXT;
    PackedExtracts(formals, args, c);
    EachFormalGetsItsParameter(formals, PackedAll(args), c, |formals|, j);
  }

  lemma PayloadDeliveredIff(formals: seq<Formal>, args: seq<Arg>, j: nat)
    requires Tags(PackedAll(args)) == ParamTypes(formals) && j < |formals| && formals[j].PayloadFormal?
    requires PayloadOf(args).Some? && PayloadCount(args) <= 1
    ensures Call(formals, PackedAll(args), PayloadOf(args)).Ok?
    ensures |Call(formals, PackedAll(args), PayloadOf(args)).value| == |formals|
    ensures Delivered(formals, args, j, Call(formals, PackedAll(args), PayloadOf(args)).value[j]) <==>
            Reads(formals, j, PayloadOf(args).value.kind)
  {
    var c := PayloadOf(args).value;
    SeenIs(formals, args, j);
    PayloadIsAnArgument(args);
    AccessBeside(formals[j], PackedAll(args), IndexAfter(formals, j), ContextAfter(formals, c, j));
    ContextIsEmptiedIff(formals, c, j);
    ContextIsEmptiedIff(formals, c, |formals|);
  }

  lemma OtherDelivered(formals: seq<Formal>, args: seq<Arg>, j: nat)
    requires Tags(PackedAll(args)) == ParamTypes(formals) && j < |formals| && !formals[j].PayloadFormal?
    requires NeedsPayload(formals) ==> PayloadOf(args).Some?
    ensures Call(formals, PackedAll(args), PayloadOf(args)).Ok?
    ensures |Call(formals, PackedAll(args), PayloadOf(args)).value| == |formals|
    ensures Delivered(formals, args, j, Call(formals, PackedAll(args), PayloadOf(args)).value[j])
  {
    var c := if PayloadOf(args).Some? then PayloadOf(args).value else NO_CONTEXT;
    var params, i, before := PackedAll(args), IndexAfter(formals, j), ContextAfter(formals, c, j);
    SeenIs(formals, args, j);
    if FormalType(formals[j]).Unknown? {
      AccessBeside(formals[j], params, i, before);
    } else {
      AccessSucceedsIff(formals[j], params, i, before);
      PackedOneByOne(args);
      AccessPresents(formals[j], params, i, before, Serialized(args)[i]);
    }
  }

  /** Whatever Validate accepts of a packed argument list and is called with the payload it needs: the
      callee's j-th parameter is the caller's own value, its payload or the serialized argument at the
      parameter's index, if and only if it is no payload, or one of the caller's kind that nobody took
      by value before it is read. */
  lemma RoundTrip(formals: seq<Formal>, args: seq<Arg>, j: nat)
    requires Tags(PackedAll(args)) == ParamTypes(formals) && j < |formals| && PayloadCount(args) <= 1
    requires NeedsPayload(formals) ==> PayloadOf(args).Some?
    ensures Call(formals, PackedAll(args), PayloadOf(args)).Ok?
    ensures |Call(formals, PackedAll(args), PayloadOf(args)).value| == |formals|
    ensures Delivered(formals, args, j, Call(formals, PackedAll(args), PayloadOf(args)).value[j]) <==>
            WillGet(formals, args, j)
  {
    hide Call, Delivered, Reads;
    if formals[j].PayloadFormal? {
      assert NeedsPayload(formals);
      PayloadDeliveredIff(formals, args, j);
    } else {
      OtherDelivered(formals, args, j);
    }
  }

  // The argument is one a caller gives for this parameter.
  predicate Suits(f: Formal, a: Arg) {
    match f
    case PrimFormal(p) => (a.PrimArg? || a.StrongArg?) && a.prim == p
    case StrongFormal(p) => (a.PrimArg? || a.StrongArg?) && a.prim == p
    case TextFormal => a.TextArg?
    case TensorFormal => a.TensorArg?
    case VectorFormal(e) => a.VectorArg? && a.element == e
    case TensorVecFormal(_) => a.TensorVecArg?
    case PayloadFormal(kind, _) => a.PayloadArg? && a.kind == kind
    case HeaderFormal => a.HeaderArg?
    case BuilderFormal => false
  }

  // The arguments are those of the parameters, in order; the callee's own side provides the builders, and
  // the header when the caller gives none.
  predicate Corresponds(formals: seq<Formal>, args: seq<Arg>) {
    if formals == [] then args == []
    else if formals[0].BuilderFormal? || (formals[0].HeaderFormal? && (args == [] || !args[0].HeaderArg?))
    then Corresponds(formals[1..], args)
    else args != [] && Suits(formals[0], args[0]) && Corresponds(formals[1..], args[1..])
  }

  lemma {:induction false} PackedFromFront(args: seq<Arg>)
    requires args != []
    ensures PackedAll(args) == Packed(args[0]) + PackedAll(args[1..])
  {
    if |args| > 1 {
      var front := args[..|args| - 1];
      PackedFromFront(front);
      assert front[1..] == args[1..][..|args| - 2];
      assert args[1..][|args| - 2] == args[|args| - 1];
      assert PackedAll(args) == (Packed(args[0]) + PackedAll(front[1..])) + Packed(args[|args| - 1]);
    } else {
      assert args[1..] == [] && args[..0] == [];
    }
  }

  lemma SuitableTag(f: Formal, a: Arg)
    requires Suits(f, a)
    ensures Tags(Packed(a)) == if FormalType(f).Unknown? then [] else [FormalType(f)]
  {}

  lemma NothingPacked()
    ensures Tags(PackedAll([])) == []
  {}

  lemma TagsOfConcat(p: seq<ParamMeta>, q: seq<ParamMeta>)
    ensures Tags(p + q) == Tags(p) + Tags(q)
  {}

  /** A call whose arguments suit the parameters one by one is accepted by Validate. */
  lemma {:induction false} SuitableCallValidates(formals: seq<Formal>, args: seq<Arg>)
    requires Corresponds(formals, args)
    ensures Tags(PackedAll(args)) == ParamTypes(formals)
    decreases |formals|
  {
    hide Tags, Packed, PackedAll, Suits;
    if formals == [] {
      NothingPacked();
    } else if formals[0].BuilderFormal? || (formals[0].HeaderFormal? && (args == [] || !args[0].HeaderArg?)) {
      SuitableCallValidates(formals[1..], args);
    } else {
      SuitableCallValidates(formals[1..], args[1..]);
      PackedFromFront(args);
      SuitableTag(formals[0], args[0]);
      TagsOfConcat(Packed(args[0]), PackedAll(args[1..]));
    }
  }

  // The call reaches the callee and each of its parameters is what it should be.
  predicate AllDelivered(formals: seq<Formal>, args: seq<Arg>) {
    var r := Call(formals, PackedAll(args), PayloadOf(args));
    r.Ok? && |r.value| == |formals| && forall j: nat | j < |formals| :: Delivered(formals, args, j, r.value[j])
  }

  lemma CallReaches(formals: seq<Formal>, args: seq<Arg>)
    requires Tags(PackedAll(args)) == ParamTypes(formals)
    requires NeedsPayload(formals) ==> PayloadOf(args).Some?
    ensures Call(formals, PackedAll(args), PayloadOf(args)).Ok?
    ensures |Call(formals, PackedAll(args), PayloadOf(args)).value| == |formals|
  {
    if formals == [] {
      PackedExtracts(formals, args, if PayloadOf(args).Some? then PayloadOf(args).value else NO_CONTEXT);
    } else {
      SeenIs(formals, args, 0);
    }
  }

  /** What Validate accepts reaches the callee whole if and only if every payload parameter is of the
      kind the caller gave and reads it before anyone took it. */
  lemma ValidatedCallDeliversIff(formals: seq<Formal>, args: seq<Arg>)
    requires Tags(PackedAll(args)) == ParamTypes(formals) && PayloadCount(args) <= 1
    ensures AllDelivered(formals, args) <==> forall j: nat | j < |formals| :: WillGet(formals, args, j)
  {
    hide Delivered, Reads;
    if NeedsPayload(formals) && PayloadOf(args).None? {
      var j: nat :| j < |formals| && formals[j].PayloadFormal?;
      assert !WillGet(formals, args, j);
    } else {
      forall j: nat | j < |formals|
        ensures AllDelivered(formals, args) ==> WillGet(formals, args, j)
      {
        RoundTrip(formals, args, j);
      }
      if forall j: nat | j < |formals| :: WillGet(formals, args, j) {
        CallReaches(formals, args);
        forall j: nat | j < |formals|
          ensures Delivered(formals, args, j, Call(formals, PackedAll(args), PayloadOf(args)).value[j])
        {
          RoundTrip(formals, args, j);
        }
      }
    }
  }

  lemma {:induction false} SuitablePayload(formals: seq<Formal>, args: seq<Arg>, j: nat)
    requires Corresponds(formals, args) && PayloadCount(args) <= 1
    requires j < |formals| && formals[j].PayloadFormal?
    ensures PayloadOf(args).Some? && PayloadOf(args).value.kind == formals[j].kind && PayloadCount(args) == 1
    ensures forall k | 0 <= k < |formals| && k != j :: !formals[k].PayloadFormal?
    decreases |formals|
  {
    var rest := if formals[0].BuilderFormal? || (formals[0].HeaderFormal? && (args == [] || !args[0].HeaderArg?))
      then args else args[1..];
    if j > 0 {
      SuitablePayload(formals[1..], rest, j - 1);
      forall k | 0 < k < |formals| && k != j ensures !formals[k].PayloadFormal? {
        assert formals[k] == formals[1..][k - 1];
      }
    } else {
      forall k | 0 < k < |formals| ensures !formals[k].PayloadFormal? {
        if formals[1..][k - 1].PayloadFormal? {
          SuitablePayload(formals[1..], rest, k - 1);
          assert false;
        }
      }
    }
  }

  /** The promise to callers: a call whose arguments suit the parameters one by one, with at most one
      payload, is accepted and delivered whole. */
  lemma SuitableCallIsDelivered(formals: seq<Formal>, args: seq<Arg>)
    requires Corresponds(formals, args) && PayloadCount(args) <= 1
    ensures Tags(PackedAll(args)) == ParamTypes(formals) && AllDelivered(formals, args)
  {
    hide AllDelivered, Corresponds;
    SuitableCallValidates(formals, args);
    forall j: nat | j < |formals| ensures WillGet(formals, args, j) {
      if formals[j].PayloadFormal? {
        SuitablePayload(formals, args, j);
      }
    }
    ValidatedCallDeliversIff(formals, args);
  }

  /** Validate says nothing about payloads: a vector of buffers given to a function of one buffer is
      accepted and read as what it is not. */
  lemma WrongKindIsMisread(payload: nat)
    ensures var formals, args := [PayloadFormal(Buffer, true)], [PayloadArg(BufferVec, payload)];
            && Tags(PackedAll(args)) == ParamTypes(formals)
            && Call(formals, PackedAll(args), PayloadOf(args)) == Ok([MisreadActual])
  {
    var formals, args := [PayloadFormal(Buffer, true)], [PayloadArg(BufferVec, payload)];
    assert PackedAll(args) == [];
    assert formals[1..] == [] && ParamTypes(formals) == [];
    SeenIs(formals, args, 0);
    assert Call(formals, [], PayloadOf(args)).value == [MisreadActual];
  }

  /** Of two parameters that take the payload by value the second one gets an emptied buffer. */
  lemma SecondTakerGetsNothing(payload: nat)
    ensures var formals, args := [PayloadFormal(Buffer, true), PayloadFormal(Buffer, true)], [PayloadArg(Buffer, payload)];
            && Tags(PackedAll(args)) == ParamTypes(formals)
            && Call(formals, PackedAll(args), PayloadOf(args)) == Ok([PayloadActual(Some(payload)), PayloadActual(None)])
  {
    var formals, args := [PayloadFormal(Buffer, true), PayloadFormal(Buffer, true)], [PayloadArg(Buffer, payload)];
    assert PackedAll(args) == [];
    assert formals[1..][1..] == [] && ParamTypes(formals[1..]) == [] && ParamTypes(formals) == [];
    var ctx := Context(Buffer, Some(payload));
    SeenIs(formals, args, 0);
    SeenIs(formals, args, 1);
    assert ContextAfter(formals, ctx, 0) == ctx && ContextAfter(formals, ctx, 1) == Context(Buffer, None);
    assert Call(formals, [], PayloadOf(args)).value == [PayloadActual(Some(payload)), PayloadActual(None)];
  }

  /** A reference sees an emptied buffer even if it comes before the parameter that takes it. */
  lemma EarlierReferenceSeesNothing(payload: nat)
    ensures var formals, args := [PayloadFormal(Buffer, false), PayloadFormal(Buffer, true)], [PayloadArg(Buffer, payload)];
            && Tags(PackedAll(args)) == ParamTypes(formals)
            && Call(formals, PackedAll(args), PayloadOf(args)) == Ok([PayloadActual(None), PayloadActual(Some(payload))])
  {
    var formals, args := [PayloadFormal(Buffer, false), PayloadFormal(Buffer, true)], [PayloadArg(Buffer, payload)];
    assert PackedAll(args) == [];
    assert formals[1..][1..] == [] && ParamTypes(formals[1..]) == [] && ParamTypes(formals) == [];
    var ctx := Context(Buffer, Some(payload));
    SeenIs(formals, args, 0);
    SeenIs(formals, args, 1);
    assert ContextAfter(formals, ctx, 0) == ctx && ContextAfter(formals, ctx, 1) == ctx;
    assert ContextAfter(formals, ctx, 2) == Context(Buffer, None);
    assert Call(formals, [], PayloadOf(args)).value == [PayloadActual(None), PayloadActual(Some(payload))];
  }

  // ---------------------------------------------------------------------------
  // The request header and the checks

  lemma {:induction false} FailureStays(formals: seq<Formal>, params: seq<ParamMeta>, ctx: Context, m: nat, n: nat)
    requires m <= n <= |formals| && Extracted(formals, params, ctx, m).Err?
    ensures Extracted(formals, params, ctx, n) == Extracted(formals, params, ctx, m)
  {
    if m < n {
      FailureStays(formals, params, ctx, m, n - 1);
    }
  }

  // The first payload formal is looked for in order.
  predicate HasPayload(formals: seq<Formal>)
    ensures HasPayload(formals) == NeedsPayload(formals)
  {
    formals != [] && (formals[0].PayloadFormal? || HasPayload(formals[1..]))
  }

  // The object a call's context pointer leads to.
  class PayloadContext {
    const kind: Kind
    var content: Option<nat>

    function State(): Context
      reads this
    {
      Context(kind, content)
    }

    constructor (ctx: Context)
      ensures State() == ctx
    {
      kind, content := ctx.kind, ctx.content;
    }

    method MoveOut() returns (was: Option<nat>)
      modifies this
      ensures was == old(content) && content == None
    {
      was, content := content, None;
    }
  }

  class RpcRequestHeader {
    var params: seq<ParamMeta>

    constructor ()
      ensures params == []
    {
      params := [];
    }

    method AddParam(meta: ParamMeta)
      modifies this
      ensures params == old(params) + [meta]
    {
      params := params + [meta];
    }

    method PackArg(a: Arg)
      modifies this
      ensures params == old(params) + Packed(a)
    {
      if a.PayloadArg? || a.HeaderArg? {
        return;
      }
      AddParam(ParamMeta(ArgType(a), ArgValue(a), ""));
    }

    method PackArgs(args: seq<Arg>)
      modifies this
      ensures params == old(params) + PackedAll(args)
    {
      var i := 0;
      while i < |args|
        invariant 0 <= i <= |args| && params == old(params) + PackedAll(args[..i])
      {
        assert args[..i + 1][..i] == args[..i];
        PackArg(args[i]);
        i := i + 1;
      }
      assert args[..|args|] == args;
    }

    // Reads one argument and moves the index past it; a payload taken by value leaves the context.
    method ExtractArg(f: Formal, context: PayloadContext, paramIdx: nat) returns (r: Result<Actual>, next: nat)
      modifies context
      ensures r == Access(f, params, paramIdx, old(context.State())) && next == paramIdx + Consumes(f)
      ensures context.State() == Leaves(f, old(context.State()))
    {
      next := paramIdx;
      match f
      case HeaderFormal => r := Ok(HeaderActual);
      case BuilderFormal => r := Ok(BuilderActual);
      case PayloadFormal(kind, byValue) =>
        if kind != context.kind {
          r := Ok(MisreadActual);
        } else if byValue {
          var content := context.MoveOut();
          r := Ok(PayloadActual(content));
        } else {
          r := Ok(ContextActual);
        }
      case _ =>
        r := Access(f, params, paramIdx, context.State());
        next := paramIdx + 1;
    }

    method ExtractArgs(formals: seq<Formal>, context: PayloadContext) returns (r: Result<seq<Actual>>)
      modifies context
      ensures r == Extract(formals, params, old(context.State()))
      ensures r.Ok? ==> context.State() == ContextAfter(formals, old(context.State()), |formals|)
    {
      ghost var ctx := context.State();
      r := Ok([]);
      var paramIdx, j := 0, 0;
      while j < |formals| && r.Ok?
        invariant 0 <= j <= |formals| && paramIdx == IndexAfter(formals, j)
        invariant context.State() == ContextAfter(formals, ctx, j)
        invariant r == Extracted(formals, params, ctx, j)
      {
        var a;
        a, paramIdx := ExtractArg(formals[j], context, paramIdx);
        r := if a.Ok? then Ok(r.value + [a.value]) else Err(a.error);
        j := j + 1;
      }
      if r.Err? {
        FailureStays(formals, params, ctx, j, |formals|);
      }
    }

    // The wrapper around a registered function: the context is checked to be there, not what it is.
    method Invoke(formals: seq<Formal>, context: PayloadContext?) returns (r: Result<seq<Actual>>)
      modifies context
      ensures r == Call(formals, params, old(if context == null then None else Some(context.State())))
    {
      if context == null && HasPayload(formals) {
        return Err(MissingPayload);
      }
      var c := context;
      if c == null {
        c := new PayloadContext(NO_CONTEXT);
      }
      r := ExtractArgs(formals, c);
      if r.Ok? {
        r := Ok(Seen(r.value, c.State()));
      }
    }
  }

  /** The header carries the packed arguments, and the payload among them travels beside it. */
  method PrepareRequest(args: seq<Arg>) returns (header: RpcRequestHeader, payload: Option<Context>)
    requires PayloadCount(args) <= 1
    ensures fresh(header) && header.params == PackedAll(args)
    ensures forall i | 0 <= i < |args| && args[i].PayloadArg? ::
              payload == Some(Context(args[i].kind, Some(args[i].payload)))
    ensures payload == PayloadOf(args)
  {
    header := new RpcRequestHeader();
    header.PackArgs(args);
    payload := PayloadOf(args);
    forall i | 0 <= i < |args| && args[i].PayloadArg?
      ensures payload == Some(Context(args[i].kind, Some(args[i].payload)))
    {
      PayloadIsUnique(args, i);
    }
  }

  datatype Mismatch = CountMismatch(expected: nat, got: nat) | TypeMismatch(index: nat)

  /** None exactly when the tags are the expected ones; otherwise a wrong count, or else the first
      index where they differ. */
  method Validate(params: seq<ParamMeta>, expected: seq<ParamType>) returns (r: Option<Mismatch>)
    ensures r == None <==> Tags(params) == expected
    ensures |params| != |expected| ==> r == Some(CountMismatch(|expected|, |params|))
    ensures r.Some? && |params| == |expected| ==>
              && r.value.TypeMismatch? && r.value.index < |params|
              && params[r.value.index].tag != expected[r.value.index]
              && Tags(params)[..r.value.index] == expected[..r.value.index]
  {
    if |params| != |expected| {
      return Some(CountMismatch(|expected|, |params|));
    }
    var i := 0;
    while i < |params|
      invariant 0 <= i <= |params|
      invariant forall k | 0 <= k < i :: params[k].tag == expected[k]
    {
      if params[i].tag != expected[i] {
        assert Tags(params)[i] != expected[i];
        return Some(TypeMismatch(i));
      }
      i := i + 1;
    }
    r := None;
  }
}
