/**
 * The data of the twik language: syntax trees as the parser hands them to
 * the evaluator, runtime values, and the errors an evaluation can end in.
 */
module Values {

  /** Go's int64. */
  type Int64 = x: int | -0x8000_0000_0000_0000 <= x < 0x8000_0000_0000_0000

  const MinInt64: int := -0x8000_0000_0000_0000
  const MaxInt64: int := 0x7fff_ffff_ffff_ffff
  const TwoTo64: int := 0x1_0000_0000_0000_0000

  /** The int64 that Go's two's-complement arithmetic leaves for the exact result `x`. */
  function Wrap(x: int): (r: Int64)
  {
    (x - MinInt64) % TwoTo64 + MinInt64
  }

  lemma WrapFacts(x: int)
    ensures MinInt64 <= x <= MaxInt64 ==> Wrap(x) == x
    ensures (x - Wrap(x)) % TwoTo64 == 0
  {
  }

  /** Adding a multiple of 2^64 does not change the wrapped result. */
  lemma {:induction false} WrapAbsorbs(x: int, k: int)
    ensures Wrap(x + k * TwoTo64) == Wrap(x)
  {
    var y := x - MinInt64;
    var q, r := y / TwoTo64, y % TwoTo64;
    assert y == q * TwoTo64 + r;
    assert y + k * TwoTo64 == (q + k) * TwoTo64 + r;
    ModUnique(y + k * TwoTo64, q + k, r);
  }

  /** The remainder modulo 2^64 is the only one in range. */
  lemma {:induction false} ModUnique(x: int, a: int, r: int)
    requires 0 <= r < TwoTo64 && x == a * TwoTo64 + r
    ensures x % TwoTo64 == r
  {
  }

  lemma WrapOfWrap(x: int, y: int)
    ensures Wrap(Wrap(x) + y) == Wrap(x + y)
  {
    var k := (x - MinInt64) / TwoTo64;
    assert Wrap(x) == x - k * TwoTo64;
    WrapAbsorbs(x + y, -k);
  }

  lemma WrapOfWrapTimes(x: int, y: int)
    ensures Wrap(Wrap(x) * y) == Wrap(x * y)
  {
    var k := (x - MinInt64) / TwoTo64;
    assert Wrap(x) == x - k * TwoTo64;
    assert Wrap(x) * y == x * y + (-k * y) * TwoTo64;
    WrapAbsorbs(x * y, -k * y);
  }

  /** A syntax tree node (the `ast` package); `pos` stands for the source position. */
  datatype Node =
    | Symbol(pos: nat, name: string)
    | Int(pos: nat, value: Int64)
    | Str(pos: nat, text: string)
    | List(pos: nat, nodes: seq<Node>)
    | Root(pos: nat, nodes: seq<Node>)

  /** The entries of the builtin table, named after the Go functions that implement them. */
  datatype Op =
    | ErrorFn | EqFn | NeFn | PlusFn | MinusFn | MulFn | DivFn
    | GtFn | GteFn | LtFn | LteFn
    | OrFn | AndFn | IfFn | WhenFn | UnlessFn | VarFn | SetFn | DoFn | FuncFn | ForFn | RangeFn
    | SplitFn | NthFn | LengthFn
  {
    /** Special forms receive the calling scope and the raw argument nodes. */
    predicate IsSpecial()
    {
      match this
      case OrFn | AndFn | IfFn | WhenFn | UnlessFn | VarFn | SetFn | DoFn | FuncFn | ForFn | RangeFn => true
      case _ => false
    }
  }

  /**
   * A callable value. A closure made by `func` keeps the index of the cell
   * that holds the scope it captured; the cell is shared with every copy of
   * the closure, because the Go closure captures that variable by reference.
   */
  datatype Function =
    | Builtin(op: Op)
    | RunCommand
    | Closure(name: string, params: seq<string>, body: seq<Node>, cell: nat)

  /**
   * A runtime value (an `interface{}` in Go). `VInt64` is Go's int64, the type
   * of literals and arithmetic; `VInt` is Go's plain `int`, which `range`
   * stores into its index variable.
   */
  datatype Value =
    | VNil
    | VBool(b: bool)
    | VInt64(i: Int64)
    | VInt(n: int)
    | VStr(s: string)
    | VList(items: seq<Value>)
    | VFunc(f: Function)

  /** Only the boolean `false` is falsy. */
  predicate IsFalse(v: Value)
  {
    v == VBool(false)
  }

  /** The dynamic Go type of a value, which decides how `==` treats it. */
  datatype Kind = NilKind | BoolKind | Int64Kind | IntKind | StringKind | SliceKind | PlainFuncKind | SpecialFuncKind

  function KindOf(v: Value): Kind
  {
    match v
    case VNil => NilKind
    case VBool(_) => BoolKind
    case VInt64(_) => Int64Kind
    case VInt(_) => IntKind
    case VStr(_) => StringKind
    case VList(_) => SliceKind
    case VFunc(f) => if f.Builtin? && f.op.IsSpecial() then SpecialFuncKind else PlainFuncKind
  }

  predicate Comparable(k: Kind)
  {
    k != SliceKind && k != PlainFuncKind && k != SpecialFuncKind
  }

  datatype Option<T> = None | Some(value: T)

  /**
   * Go's `==` on two `interface{}` values: values of different dynamic types
   * are unequal; two values of one uncomparable type (slices, functions)
   * make the comparison panic, which is `None` here.
   */
  function GoEqual(a: Value, b: Value): (r: Option<bool>)
    ensures r.None? <==> KindOf(a) == KindOf(b) && !Comparable(KindOf(a))
    ensures r == Some(true) <==> a == b && Comparable(KindOf(a))
  {
    if KindOf(a) != KindOf(b) then Some(false)
    else if !Comparable(KindOf(a)) then None
    else Some(a == b)
  }

  lemma GoEqualSymmetric(a: Value, b: Value)
    ensures GoEqual(a, b) == GoEqual(b, a)
  {
  }

  /** A value that `encoding/json` can marshal: no function anywhere inside it. */
  predicate IsData(v: Value)
  {
    match v
    case VFunc(_) => false
    case VList(items) => forall i | 0 <= i < |items| :: IsData(items[i])
    case _ => true
  }

  /** What went wrong, one case per kind of Go error message. */
  datatype Fault =
    | UndefinedSymbol(name: string)
    | AlreadyDefined(name: string)
    | CannotSetUndefined(name: string)
    | NotAFunction(head: Value)
    | Message(text: string)
    | BadOperand(verb: string, operand: Value)
    | Arity(callee: string, params: nat)
    | UserError(text: string)
    | Unencodable(value: Value)
    | StoreWriteFailed(key: string)

  /**
   * An evaluation error: a plain Go error, an `*Error` that carries a source
   * position, a Go runtime panic, or an evaluation cut off by the fuel bound.
   */
  datatype Error =
    | Failure(fault: Fault)
    | Located(pos: nat, fault: Fault)
    | Panic(reason: string)
    | OutOfFuel

  /** `errorAt`: give an error a position unless it already has one. */
  function ErrorAt(pos: nat, e: Error): (r: Error)
  {
    if e.Failure? then Located(pos, e.fault) else e
  }

  lemma ErrorAtWrapsOnce(p: nat, q: nat, e: Error)
    ensures ErrorAt(q, ErrorAt(p, e)) == ErrorAt(p, e)
    ensures e.Failure? ==> ErrorAt(p, e) == Located(p, e.fault)
    ensures !e.Failure? ==> ErrorAt(p, e) == e
  {
  }

  datatype Result<T> = Ok(value: T) | Err(error: Error)

  /** The state an operation leaves behind and the error it returns (`None` for Go's nil error). */
  datatype Written<S> = Written(state: S, err: Option<Error>)
}
