/**
 * The plain functions of the builtin table: they receive their arguments
 * already evaluated. Each is given as a specification function (used by the
 * evaluator); the arithmetic and comparison builtins, which the library
 * writes as accumulator loops, are also given as methods with those loops,
 * proved to compute their specification.
 */
module Builtins {
  import opened Values

  predicate AllInt64(args: seq<Value>)
  {
    forall i | 0 <= i < |args| :: args[i].VInt64?
  }

  /** The position of the first argument that is not an int64: the one the loops stop at. */
  function FirstNonInt64(args: seq<Value>): (k: nat)
    requires !AllInt64(args)
    ensures k < |args| && !args[k].VInt64? && AllInt64(args[..k])
  {
    if !args[0].VInt64? then 0
    else
      var k := 1 + FirstNonInt64(args[1..]);
      assert forall i | 1 <= i < k :: args[..k][i] == args[1..][..k - 1][i - 1];
      k
  }

  lemma FirstNonInt64At(args: seq<Value>, i: nat)
    requires i < |args| && AllInt64(args[..i]) && !args[i].VInt64?
    ensures FirstNonInt64(args) == i
  {
  }

  /** The exact sum of int64 arguments. */
  function Sum(args: seq<Value>): int
    requires AllInt64(args)
  {
    if args == [] then 0 else Sum(args[..|args| - 1]) + args[|args| - 1].i
  }

  /** The exact product of int64 arguments. */
  function Product(args: seq<Value>): int
    requires AllInt64(args)
  {
    if args == [] then 1 else Product(args[..|args| - 1]) * args[|args| - 1].i
  }

  /** `+`: the wrapped sum, 0 for no arguments; the first non-int64 operand is an error. */
  function SumOf(args: seq<Value>): Result<Value>
  {
    if !AllInt64(args) then Err(Failure(BadOperand("sum", args[FirstNonInt64(args)])))
    else Ok(VInt64(Wrap(Sum(args))))
  }

  /** `-`: at least one operand; one operand is negated, more are subtracted from the first. */
  function DifferenceOf(args: seq<Value>): Result<Value>
  {
    if |args| == 0 then Err(Failure(Message("function \"-\" takes one or more arguments")))
    else if !AllInt64(args) then Err(Failure(BadOperand("subtract", args[FirstNonInt64(args)])))
    else if |args| == 1 then Ok(VInt64(Wrap(-(args[0].i as int))))
    else Ok(VInt64(Wrap(args[0].i - Sum(args[1..]))))
  }

  /** `*`: the wrapped product, 1 for no arguments. */
  function ProductOf(args: seq<Value>): Result<Value>
  {
    if !AllInt64(args) then Err(Failure(BadOperand("multiply", args[FirstNonInt64(args)])))
    else Ok(VInt64(Wrap(Product(args))))
  }

  function Abs(x: int): nat
  {
    if x < 0 then -x else x
  }

  /** Go's `/` on integers: the quotient truncated toward zero. */
  function TruncDiv(a: int, b: int): int
    requires b != 0
  {
    var q := Abs(a) / Abs(b);
    if (a < 0) == (b < 0) then q else -q
  }

  /**
   * Truncated division is the division of the Go specification: the
   * remainder is smaller than the divisor and has the sign of the dividend.
   */
  lemma {:induction false} TruncDivIsGoDivision(a: int, b: int)
    requires b != 0
    ensures var r := a - TruncDiv(a, b) * b;
      Abs(r) < Abs(b) && (r == 0 || (r < 0) == (a < 0))
    ensures Abs(TruncDiv(a, b) * b) <= Abs(a)
  {
    var q, m := Abs(a) / Abs(b), Abs(a) % Abs(b);
    var qb := q * Abs(b);
    assert Abs(a) == qb + m && 0 <= m < Abs(b);
    assert 0 <= qb by {
      assert q >= 0;
    }
    var p := TruncDiv(a, b) * b;
    if (a < 0) == (b < 0) {
      assert p == q * b;
      assert p == if a < 0 then -qb else qb;
    } else {
      assert p == (-q) * b;
      assert p == if a < 0 then -qb else qb;
    }
  }

  /** The rest of `/`'s loop: divide `acc` by each remaining operand in turn. */
  function DivideFrom(acc: Int64, rest: seq<Value>): (r: Result<Value>)
    ensures r.Ok? ==> r.value.VInt64?
    decreases |rest|
  {
    if rest == [] then Ok(VInt64(acc))
    else if !rest[0].VInt64? then Err(Failure(BadOperand("divide with", rest[0])))
    else if rest[0].i == 0 then Err(Panic("integer divide by zero"))
    else DivideFrom(Wrap(TruncDiv(acc, rest[0].i)), rest[1..])
  }

  /** `/`: at least two operands, divided left to right. */
  function QuotientOf(args: seq<Value>): Result<Value>
  {
    if |args| < 2 then Err(Failure(Message("function \"/\" takes two or more arguments")))
    else if !args[0].VInt64? then Err(Failure(BadOperand("divide with", args[0])))
    else DivideFrom(args[0].i, args[1..])
  }

  lemma QuotientOfTwo(a: Int64, b: Int64)
    ensures QuotientOf([VInt64(a), VInt64(b)])
         == if b == 0 then Err(Panic("integer divide by zero")) else Ok(VInt64(Wrap(TruncDiv(a, b))))
  {
    var args := [VInt64(a), VInt64(b)];
    assert args[1..] == [VInt64(b)];
    assert [VInt64(b)][1..] == [];
    if b != 0 {
      assert DivideFrom(a, [VInt64(b)]) == DivideFrom(Wrap(TruncDiv(a, b)), []);
    }
  }

  /** `+`, as the library writes it: an accumulator loop over the operands. */
  method Add(args: seq<Value>) returns (r: Result<Value>)
    ensures r == SumOf(args)
  {
    var resi: Int64 := 0;
    var i := 0;
    while i < |args|
      invariant 0 <= i <= |args|
      invariant AllInt64(args[..i])
      invariant resi == Wrap(Sum(args[..i]))
    {
      if !args[i].VInt64? {
        FirstNonInt64At(args, i);
        return Err(Failure(BadOperand("sum", args[i])));
      }
      assert args[..i + 1][..i] == args[..i];
      WrapOfWrap(Sum(args[..i]), args[i].i);
      resi := Wrap(resi + args[i].i);
      i := i + 1;
    }
    assert args[..i] == args;
    return Ok(VInt64(resi));
  }

  /** `-`: the first operand starts the accumulator unless it is the only one. */
  method Subtract(args: seq<Value>) returns (r: Result<Value>)
    ensures r == DifferenceOf(args)
  {
    if |args| == 0 {
      return Err(Failure(Message("function \"-\" takes one or more arguments")));
    }
    var resi: Int64 := 0;
    var i := 0;
    while i < |args|
      invariant 0 <= i <= |args|
      invariant AllInt64(args[..i])
      invariant i == 0 ==> resi == 0
      invariant i > 0 && |args| == 1 ==> resi == Wrap(-(args[0].i as int))
      invariant i > 0 && |args| > 1 ==> resi == Wrap(args[0].i - Sum(args[1..i]))
    {
      if !args[i].VInt64? {
        FirstNonInt64At(args, i);
        return Err(Failure(BadOperand("subtract", args[i])));
      }
      if i == 0 && |args| > 1 {
        assert args[1..1] == [];
        resi := args[i].i;
      } else {
        if i > 0 {
          assert args[1..i + 1][..i - 1] == args[1..i];
          WrapOfWrap(args[0].i - Sum(args[1..i]), -(args[i].i as int));
        }
        resi := Wrap(resi - args[i].i);
      }
      i := i + 1;
    }
    assert args[..i] == args;
    assert args[1..i] == args[1..];
    return Ok(VInt64(resi));
  }

  /** `*`: an accumulator loop starting from 1. */
  method Multiply(args: seq<Value>) returns (r: Result<Value>)
    ensures r == ProductOf(args)
  {
    var resi: Int64 := 1;
    var i := 0;
    while i < |args|
      invariant 0 <= i <= |args|
      invariant AllInt64(args[..i])
      invariant resi == Wrap(Product(args[..i]))
    {
      if !args[i].VInt64? {
        FirstNonInt64At(args, i);
        return Err(Failure(BadOperand("multiply", args[i])));
      }
      assert args[..i + 1][..i] == args[..i];
      WrapOfWrapTimes(Product(args[..i]), args[i].i);
      resi := Wrap(resi * args[i].i);
      i := i + 1;
    }
    assert args[..i] == args;
    return Ok(VInt64(resi));
  }

  /** `/`: the loop divides the first operand by each later one, in order. */
  method Divide(args: seq<Value>) returns (r: Result<Value>)
    ensures r == QuotientOf(args)
  {
    if |args| < 2 {
      return Err(Failure(Message("function \"/\" takes two or more arguments")));
    }
    if !args[0].VInt64? {
      return Err(Failure(BadOperand("divide with", args[0])));
    }
    var resi: Int64 := args[0].i;
    var i := 1;
    while i < |args|
      invariant 1 <= i <= |args|
      invariant QuotientOf(args) == DivideFrom(resi, args[i..])
    {
      assert args[i..][1..] == args[i + 1..];
      if !args[i].VInt64? {
        return Err(Failure(BadOperand("divide with", args[i])));
      }
      if args[i].i == 0 {
        return Err(Panic("integer divide by zero"));
      }
      resi := Wrap(TruncDiv(resi, args[i].i));
      i := i + 1;
    }
    return Ok(VInt64(resi));
  }

  predicate IsComparison(op: Op)
  {
    op == GtFn || op == GteFn || op == LtFn || op == LteFn
  }

  /** The name a comparison has in the builtin table. */
  function ComparisonName(op: Op): string
    requires IsComparison(op)
  {
    match op
    case GtFn => ">"
    case GteFn => ">="
    case LtFn => "<"
    case _ => "<="
  }

  /** What each comparison says about the difference of its operands. */
  predicate SignHolds(op: Op, d: int)
    requires IsComparison(op)
  {
    match op
    case GtFn => d > 0
    case GteFn => d >= 0
    case LtFn => d < 0
    case _ => d <= 0
  }

  /** `>`, `>=`, `<`, `<=`: exactly two int64 operands, compared through their difference. */
  function Comparison(op: Op, args: seq<Value>): (r: Result<Value>)
    requires IsComparison(op)
    ensures r.Ok? <==> |args| == 2 && args[0].VInt64? && args[1].VInt64?
    ensures r.Ok? ==> var a, b := args[0].i, args[1].i;
      r.value == VBool(match op case GtFn => a > b case GteFn => a >= b case LtFn => a < b case _ => a <= b)
  {
    if |args| != 2 then Err(Failure(Message("function \"" + ComparisonName(op) + "\" takes two arguments")))
    else if !args[0].VInt64? then Err(Failure(BadOperand("compare", args[0])))
    else if !args[1].VInt64? then Err(Failure(BadOperand("compare", args[1])))
    else Ok(VBool(SignHolds(op, args[0].i - args[1].i)))
  }

  /** `cmpFn`'s loop: add the first operand, subtract the second, then test the sign. */
  method Compare(op: Op, args: seq<Value>) returns (r: Result<Value>)
    requires IsComparison(op)
    ensures r == Comparison(op, args)
  {
    if |args| != 2 {
      return Err(Failure(Message("function \"" + ComparisonName(op) + "\" takes two arguments")));
    }
    var diff := 0;
    var factor := 1;
    var i := 0;
    while i < |args|
      invariant 0 <= i <= 2
      invariant AllInt64(args[..i])
      invariant factor == if i == 0 then 1 else -1
      invariant diff == (if i >= 1 then args[0].i else 0) - (if i >= 2 then args[1].i else 0)
    {
      if !args[i].VInt64? {
        return Err(Failure(BadOperand("compare", args[i])));
      }
      diff := diff + args[i].i * factor;
      factor := -1;
      i := i + 1;
    }
    return Ok(VBool(SignHolds(op, diff)));
  }

  /** `==`: Go equality of exactly two values; comparing two slices or two functions panics. */
  function Equal(args: seq<Value>): (r: Result<Value>)
    ensures |args| != 2 ==> r == Err(Failure(Message("== takes two values")))
    ensures r.Ok? ==> r.value.VBool? && (r.value.b <==> args[0] == args[1])
  {
    if |args| != 2 then Err(Failure(Message("== takes two values")))
    else match GoEqual(args[0], args[1])
      case None => Err(Panic("comparing uncomparable type"))
      case Some(b) => Ok(VBool(b))
  }

  /** `!=`: the negation of `==`, with the same arity check and the same panics. */
  function NotEqual(args: seq<Value>): (r: Result<Value>)
    ensures |args| != 2 ==> r == Err(Failure(Message("!= takes two values")))
    ensures r.Ok? ==> r.value.VBool? && (r.value.b <==> args[0] != args[1])
  {
    if |args| != 2 then Err(Failure(Message("!= takes two values")))
    else match GoEqual(args[0], args[1])
      case None => Err(Panic("comparing uncomparable type"))
      case Some(b) => Ok(VBool(!b))
  }

  lemma EqualAndNotEqualAgree(args: seq<Value>)
    requires |args| == 2
    ensures Equal(args).Ok? <==> NotEqual(args).Ok?
    ensures Equal(args).Ok? ==> NotEqual(args).value.b == !Equal(args).value.b
  {
  }

  /** `error`: always fails, with the caller's message when given exactly one string. */
  function RaiseError(args: seq<Value>): (r: Result<Value>)
    ensures r.Err? && r.error.Failure?
    ensures r.error.fault.UserError? <==> |args| == 1 && args[0].VStr?
    ensures r.error.fault.UserError? ==> r.error.fault.text == args[0].s
  {
    if |args| == 1 && args[0].VStr? then Err(Failure(UserError(args[0].s)))
    else Err(Failure(Message("error function takes a single string argument")))
  }

  /** `nth`: the element at an int64 index of a list. */
  function Nth(args: seq<Value>): (r: Result<Value>)
    ensures r.Ok? <==> |args| == 2 && args[0].VList? && args[1].VInt64? && 0 <= args[1].i < |args[0].items|
    ensures r.Ok? ==> r.value == args[0].items[args[1].i]
    ensures |args| == 2 && args[0].VList? && args[1].VInt64? && args[1].i >= |args[0].items|
      ==> r == Err(Failure(Message("index out of bounds")))
  {
    if |args| == 2 && args[0].VList? && args[1].VInt64? then
      var list, n := args[0].items, args[1].i;
      if n >= |list| then Err(Failure(Message("index out of bounds")))
      else if n < 0 then Err(Panic("index out of range"))
      else Ok(list[n])
    else Err(Failure(Message("nth function takes a list and integer argument")))
  }

  /** `length`: the element count of one list argument. */
  function Length(args: seq<Value>): (r: Result<Value>)
    ensures r.Ok? <==> |args| == 1 && args[0].VList?
    ensures r.Ok? && |args[0].items| <= MaxInt64 ==> r.value == VInt64(|args[0].items|)
  {
    if |args| == 1 && args[0].VList? then
      WrapFacts(|args[0].items|);
      Ok(VInt64(Wrap(|args[0].items|)))
    else Err(Failure(Message("length function takes a list as argument")))
  }

  /** The pieces joined back with the separator between them. */
  function Join(parts: seq<string>, sep: string): string
  {
    if parts == [] then ""
    else if |parts| == 1 then parts[0]
    else parts[0] + sep + Join(parts[1..], sep)
  }

  /** Go's `strings.Split` with an empty separator: one piece per character. */
  function Explode(s: string): (r: seq<string>)
    ensures |r| == |s| && forall k | 0 <= k < |s| :: r[k] == [s[k]]
  {
    if s == "" then [] else [[s[0]]] + Explode(s[1..])
  }

  /** `sep` occurs in `t` starting at position `j`. */
  predicate OccursAt(t: string, sep: string, j: int)
  {
    0 <= j && j + |sep| <= |t| && t[j..j + |sep|] == sep
  }

  /** `sep` occurs nowhere in `t`. */
  predicate Free(t: string, sep: string)
  {
    forall j | 0 <= j <= |t| :: !OccursAt(t, sep, j)
  }

  /**
   * Go's `strings.Split` with a non-empty separator: the text is cut at
   * each occurrence of the separator, found left to right, so no piece
   * contains the separator and the separator after each piece is the first
   * one that starts at or after that piece.
   */
  function SplitOn(s: string, sep: string): (r: seq<string>)
    requires sep != ""
    ensures |r| >= 1
    ensures forall k | 0 <= k < |r| :: Free(r[k], sep)
    ensures forall k, j | 0 <= k < |r| - 1 && 0 <= j < |r[k]| :: !OccursAt(r[k] + sep, sep, j)
    ensures |r| == 1 ==> r[0] == s
    ensures |r| > 1 ==> |r[0]| + |sep| <= |s| && s[..|r[0]| + |sep|] == r[0] + sep
    decreases |s|
  {
    if |s| < |sep| then
      [s]
    else if s[..|sep|] == sep then
      var tail := SplitOn(s[|sep|..], sep);
      [""] + tail
    else
      var rest := SplitOn(s[1..], sep);
      GlueFirst(s, sep, rest);
      [[s[0]] + rest[0]] + rest[1..]
  }

  /** Gluing the first character onto the first piece keeps the pieces of a split free of the separator. */
  lemma GlueFirst(s: string, sep: string, rest: seq<string>)
    requires sep != "" && |s| >= |sep| && s[..|sep|] != sep && |rest| >= 1
    requires forall k | 0 <= k < |rest| :: Free(rest[k], sep)
    requires forall k, j | 0 <= k < |rest| - 1 && 0 <= j < |rest[k]| :: !OccursAt(rest[k] + sep, sep, j)
    requires |rest| == 1 ==> rest[0] == s[1..]
    requires |rest| > 1 ==> |rest[0]| + |sep| <= |s| - 1 && s[1..][..|rest[0]| + |sep|] == rest[0] + sep
    ensures var r := [[s[0]] + rest[0]] + rest[1..];
      (forall k | 0 <= k < |r| :: Free(r[k], sep))
      && (forall k, j | 0 <= k < |r| - 1 && 0 <= j < |r[k]| :: !OccursAt(r[k] + sep, sep, j))
      && (|r| == 1 ==> r[0] == s)
      && (|r| > 1 ==> |r[0]| + |sep| <= |s| && s[..|r[0]| + |sep|] == r[0] + sep)
  {
    var r := [[s[0]] + rest[0]] + rest[1..];
    var p := [s[0]] + rest[0];
    assert s == [s[0]] + s[1..];
    forall k | 1 <= k < |r| ensures r[k] == rest[k] {
    }
    // An occurrence inside `p` (followed by the separator, when more pieces come) is either at 0,
    // which would be the start of `s`, or one inside the first piece of the rest.
    var t := if |rest| > 1 then p + sep else p;
    assert |rest| > 1 ==> t == s[..|p| + |sep|];
    assert |rest| == 1 ==> t == s;
    forall j | 0 <= j < |p| ensures !OccursAt(t, sep, j) {
      if j > 0 && OccursAt(t, sep, j) {
        var u := if |rest| > 1 then rest[0] + sep else rest[0];
        assert t == [s[0]] + u;
        assert u[j - 1..j - 1 + |sep|] == t[j..j + |sep|];
        assert OccursAt(u, sep, j - 1);
      }
    }
    forall j | 0 <= j <= |p| ensures !OccursAt(p, sep, j) {
      if OccursAt(p, sep, j) {
        assert j < |p|;
        assert p == t[..|p|];
        assert t[j..j + |sep|] == p[j..j + |sep|];
        assert OccursAt(t, sep, j);
      }
    }
  }

  function SplitString(s: string, sep: string): seq<string>
  {
    if sep == "" then Explode(s) else SplitOn(s, sep)
  }

  lemma {:induction false} ExplodeJoins(s: string)
    ensures Join(Explode(s), "") == s
    decreases |s|
  {
    if s != "" {
      ExplodeJoins(s[1..]);
      if |s| > 1 {
        assert Explode(s)[1..] == Explode(s[1..]);
      }
    }
  }

  /** Joining after gluing a character onto the first piece is gluing it onto the join. */
  lemma JoinConsFirst(c: char, parts: seq<string>, sep: string)
    requires parts != []
    ensures Join([[c] + parts[0]] + parts[1..], sep) == [c] + Join(parts, sep)
  {
    var glued := [[c] + parts[0]] + parts[1..];
    assert glued[0] == [c] + parts[0];
    assert glued[1..] == parts[1..];
  }

  lemma {:induction false} SplitOnJoins(s: string, sep: string)
    requires sep != ""
    ensures Join(SplitOn(s, sep), sep) == s
    decreases |s|
  {
    if |s| < |sep| {
    } else if s[..|sep|] == sep {
      var tail := SplitOn(s[|sep|..], sep);
      SplitOnJoins(s[|sep|..], sep);
      assert SplitOn(s, sep) == [""] + tail;
      assert ([""] + tail)[1..] == tail;
      assert Join([""] + tail, sep) == "" + sep + Join(tail, sep);
      assert s == s[..|sep|] + s[|sep|..];
    } else {
      var rest := SplitOn(s[1..], sep);
      SplitOnJoins(s[1..], sep);
      assert SplitOn(s, sep) == [[s[0]] + rest[0]] + rest[1..];
      JoinConsFirst(s[0], rest, sep);
      assert s == [s[0]] + s[1..];
    }
  }

  /** Joining the pieces of a split with its separator gives back the text. */
  lemma SplitJoins(s: string, sep: string)
    ensures Join(SplitString(s, sep), sep) == s
  {
    if sep == "" { ExplodeJoins(s); } else { SplitOnJoins(s, sep); }
  }

  /** The texts of a list of strings. */
  function Texts(items: seq<Value>): (r: seq<string>)
    requires forall i | 0 <= i < |items| :: items[i].VStr?
    ensures |r| == |items| && forall i | 0 <= i < |items| :: r[i] == items[i].s
  {
    seq(|items|, i requires 0 <= i < |items| => items[i].s)
  }

  /**
   * `split`: two string arguments (more are ignored) give the list of
   * pieces of `strings.Split`: joined with the separator they give back the
   * text; an empty separator gives one piece per character; otherwise no
   * piece contains the separator and each cut is at the first occurrence.
   */
  function Split(args: seq<Value>): (r: Result<Value>)
    ensures r.Ok? <==> |args| >= 2 && args[0].VStr? && args[1].VStr?
    ensures !r.Ok? ==> r == Err(Failure(Message("split function takes two string arguments")))
    ensures r.Ok? ==> r.value.VList? && forall i | 0 <= i < |r.value.items| :: r.value.items[i].VStr?
    ensures r.Ok? ==> Join(Texts(r.value.items), args[1].s) == args[0].s
    ensures r.Ok? && args[1].s == "" ==>
      |r.value.items| == |args[0].s| && forall i | 0 <= i < |r.value.items| :: r.value.items[i].s == [args[0].s[i]]
    ensures r.Ok? && args[1].s != "" ==> var items, sep := r.value.items, args[1].s;
      |items| >= 1
      && (forall i | 0 <= i < |items| :: Free(items[i].s, sep))
      && (forall i, j | 0 <= i < |items| - 1 && 0 <= j < |items[i].s| :: !OccursAt(items[i].s + sep, sep, j))
  {
    if |args| >= 2 && args[0].VStr? && args[1].VStr? then
      var parts := SplitString(args[0].s, args[1].s);
      var items := seq(|parts|, i requires 0 <= i < |parts| => VStr(parts[i]));
      assert Texts(items) == parts;
      SplitJoins(args[0].s, args[1].s);
      Ok(VList(items))
    else Err(Failure(Message("split function takes two string arguments")))
  }

  /** Calls a plain builtin on its evaluated arguments. */
  function Apply(op: Op, args: seq<Value>): (r: Result<Value>)
    requires !op.IsSpecial()
    ensures r.Ok? && op != NthFn ==> IsData(r.value)
  {
    match op
    case ErrorFn => RaiseError(args)
    case EqFn => Equal(args)
    case NeFn => NotEqual(args)
    case PlusFn => SumOf(args)
    case MinusFn => DifferenceOf(args)
    case MulFn => ProductOf(args)
    case DivFn => QuotientOf(args)
    case GtFn => Comparison(op, args)
    case GteFn => Comparison(op, args)
    case LtFn => Comparison(op, args)
    case LteFn => Comparison(op, args)
    case SplitFn => Split(args)
    case NthFn => Nth(args)
    case LengthFn => Length(args)
  }
}
