/**
 * What the evaluator promises: how literals, programs and calls evaluate,
 * short-circuiting, which branch a conditional evaluates, what `var`, `do`,
 * `func`, `for` and `range` bind and return.
 */
module EvalLaws {
  import opened Values
  import opened Variables
  import opened Scope
  import opened Eval

  /** Literals evaluate to themselves and change nothing; the empty list evaluates to the empty list. */
  lemma LiteralsEvaluateToThemselves(fuel: nat, w: World, s: FrameId, p: nat, i: Int64, t: string)
    requires WorldOk(w) && s < |w.env.frames| && fuel >= 1
    ensures Eval.Eval(fuel, w, s, Int(p, i)) == Out(Ok(VInt64(i)), w)
    ensures Eval.Eval(fuel, w, s, Str(p, t)) == Out(Ok(VStr(t)), w)
    ensures Eval.Eval(fuel, w, s, List(p, [])) == Out(Ok(VList([])), w)
  {
  }

  /** A symbol evaluates to its binding; a failed lookup is reported at the symbol's position. */
  lemma SymbolsAreLookedUp(fuel: nat, w: World, s: FrameId, p: nat, name: string)
    requires WorldOk(w) && s < |w.env.frames| && fuel >= 1
    ensures Eval.Eval(fuel, w, s, Symbol(p, name)).w == w
    ensures GetVar(w.env, s, name).Ok? ==> Eval.Eval(fuel, w, s, Symbol(p, name)).res == GetVar(w.env, s, name)
    ensures GetVar(w.env, s, name) == Err(Failure(UndefinedSymbol(name)))
      ==> Eval.Eval(fuel, w, s, Symbol(p, name)).res == Err(Located(p, UndefinedSymbol(name)))
  {
  }

  /**
   * A program's forms run in order: the forms after a prefix run in the world
   * the prefix leaves, and an error in the prefix ends the program there.
   */
  lemma {:induction false} RootSeqAppend(fuel: nat, w: World, s: FrameId, pre: seq<Node>, rest: seq<Node>, last: Value)
    requires WorldOk(w) && s < |w.env.frames| && ValueIn(last, |w.cells|)
    ensures RootSeq(fuel, w, s, pre, last).res.Ok? ==> fuel > |pre|
    ensures var o := RootSeq(fuel, w, s, pre, last);
      RootSeq(fuel, w, s, pre + rest, last) == if o.res.Err? then o else RootSeq(fuel - |pre|, o.w, s, rest, o.res.value)
    decreases pre
  {
    if fuel == 0 {
      assert RootSeq(fuel, w, s, pre + rest, last) == RootSeq(fuel, w, s, pre, last) == Out(Err(OutOfFuel), w);
    } else if pre == [] {
      assert pre + rest == rest;
    } else {
      RootSeqAppendStep(fuel, w, s, pre, rest, last);
    }
  }

  lemma {:induction false} RootSeqAppendStep(fuel: nat, w: World, s: FrameId, pre: seq<Node>, rest: seq<Node>, last: Value)
    requires WorldOk(w) && s < |w.env.frames| && ValueIn(last, |w.cells|) && fuel > 0 && pre != []
    ensures RootSeq(fuel, w, s, pre, last).res.Ok? ==> fuel > |pre|
    ensures var o := RootSeq(fuel, w, s, pre, last);
      RootSeq(fuel, w, s, pre + rest, last) == if o.res.Err? then o else RootSeq(fuel - |pre|, o.w, s, rest, o.res.value)
    decreases pre, 0
  {
    var all := pre + rest;
    assert all[0] == pre[0];
    assert all[1..] == pre[1..] + rest;
    RootSeqStep(fuel, w, s, pre, last);
    RootSeqStep(fuel, w, s, all, last);
    var o1 := Eval.Eval(fuel - 1, w, s, pre[0]);
    if o1.res.Ok? {
      var o := RootSeq(fuel - 1, o1.w, s, pre[1..], o1.res.value);
      RootSeqAppend(fuel - 1, o1.w, s, pre[1..], rest, o1.res.value);
      var whole := RootSeq(fuel - 1, o1.w, s, pre[1..] + rest, o1.res.value);
      assert RootSeq(fuel, w, s, all, last) == whole;
      if o.res.Ok? {
        assert fuel - 1 - |pre[1..]| == fuel - |pre|;
        assert whole == RootSeq(fuel - |pre|, o.w, s, rest, o.res.value);
      }
    }
  }

  /** One step of a program: the first form, then the rest in the world it leaves. */
  lemma RootSeqStep(fuel: nat, w: World, s: FrameId, nodes: seq<Node>, last: Value)
    requires WorldOk(w) && s < |w.env.frames| && ValueIn(last, |w.cells|) && fuel > 0 && nodes != []
    ensures var o1 := Eval.Eval(fuel - 1, w, s, nodes[0]);
      RootSeq(fuel, w, s, nodes, last)
        == if o1.res.Err? then Out(Err(ErrorAt(nodes[0].pos, o1.res.error)), o1.w)
           else RootSeq(fuel - 1, o1.w, s, nodes[1..], o1.res.value)
  {
  }

  /** An error in a top-level form is reported at that form unless it already carries a position. */
  lemma RootLocatesErrors(fuel: nat, w: World, s: FrameId, n: Node, rest: seq<Node>, last: Value)
    requires WorldOk(w) && s < |w.env.frames| && ValueIn(last, |w.cells|) && fuel >= 1
    requires Eval.Eval(fuel - 1, w, s, n).res.Err?
    ensures RootSeq(fuel, w, s, [n] + rest, last).res == Err(ErrorAt(n.pos, Eval.Eval(fuel - 1, w, s, n).res.error))
  {
    assert ([n] + rest)[0] == n;
  }

  /**
   * A plain function's arguments are evaluated left to right: the later ones
   * in the world the earlier ones leave, after the values so far; an error
   * stops the evaluation of the rest.
   */
  lemma {:induction false} EvalArgsAppend(fuel: nat, w: World, s: FrameId, pre: seq<Node>, rest: seq<Node>, acc: seq<Value>)
    requires WorldOk(w) && s < |w.env.frames| && ValuesIn(acc, |w.cells|)
    ensures EvalArgs(fuel, w, s, pre, acc).res.Ok? ==> fuel > |pre| && EvalArgs(fuel, w, s, pre, acc).res.value[..|acc|] == acc
    ensures var o := EvalArgs(fuel, w, s, pre, acc);
      EvalArgs(fuel, w, s, pre + rest, acc) == if o.res.Err? then o else EvalArgs(fuel - |pre|, o.w, s, rest, o.res.value)
    decreases pre
  {
    if fuel == 0 {
      assert EvalArgs(fuel, w, s, pre + rest, acc) == EvalArgs(fuel, w, s, pre, acc) == OutArgs(Err(OutOfFuel), w);
    } else if pre == [] {
      assert pre + rest == rest;
      assert acc[..|acc|] == acc;
    } else {
      EvalArgsAppendStep(fuel, w, s, pre, rest, acc);
    }
  }

  lemma {:induction false} EvalArgsAppendStep(fuel: nat, w: World, s: FrameId, pre: seq<Node>, rest: seq<Node>, acc: seq<Value>)
    requires WorldOk(w) && s < |w.env.frames| && ValuesIn(acc, |w.cells|) && fuel > 0 && pre != []
    ensures EvalArgs(fuel, w, s, pre, acc).res.Ok? ==> fuel > |pre| && EvalArgs(fuel, w, s, pre, acc).res.value[..|acc|] == acc
    ensures var o := EvalArgs(fuel, w, s, pre, acc);
      EvalArgs(fuel, w, s, pre + rest, acc) == if o.res.Err? then o else EvalArgs(fuel - |pre|, o.w, s, rest, o.res.value)
    decreases pre, 0
  {
    var all := pre + rest;
    assert all[0] == pre[0];
    assert all[1..] == pre[1..] + rest;
    EvalArgsStep(fuel, w, s, pre, acc);
    EvalArgsStep(fuel, w, s, all, acc);
    var o1 := Eval.Eval(fuel - 1, w, s, pre[0]);
    if o1.res.Ok? {
      var acc' := acc + [o1.res.value];
      var o := EvalArgs(fuel - 1, o1.w, s, pre[1..], acc');
      EvalArgsAppend(fuel - 1, o1.w, s, pre[1..], rest, acc');
      var whole := EvalArgs(fuel - 1, o1.w, s, pre[1..] + rest, acc');
      assert EvalArgs(fuel, w, s, all, acc) == whole;
      if o.res.Ok? {
        assert fuel - 1 - |pre[1..]| == fuel - |pre|;
        assert whole == EvalArgs(fuel - |pre|, o.w, s, rest, o.res.value);
        assert o.res.value[..|acc'|] == acc';
        assert o.res.value[..|acc|] == acc'[..|acc|];
      }
    }
  }

  /** One step of argument evaluation: the first argument, then the rest after its value. */
  lemma EvalArgsStep(fuel: nat, w: World, s: FrameId, nodes: seq<Node>, acc: seq<Value>)
    requires WorldOk(w) && s < |w.env.frames| && ValuesIn(acc, |w.cells|) && fuel > 0 && nodes != []
    ensures var o1 := Eval.Eval(fuel - 1, w, s, nodes[0]);
      EvalArgs(fuel, w, s, nodes, acc)
        == if o1.res.Err? then OutArgs(Err(o1.res.error), o1.w)
           else EvalArgs(fuel - 1, o1.w, s, nodes[1..], acc + [o1.res.value])
  {
  }

  /**
   * A call evaluates its head first. An error there, or an error of the
   * call, is reported at the head's position; a head that evaluates to
   * something other than a function is an error there, in the world the
   * head's evaluation left.
   */
  lemma NonFunctionHead(fuel: nat, w: World, s: FrameId, p: nat, h: Node, rest: seq<Node>)
    requires WorldOk(w) && s < |w.env.frames| && fuel >= 2
    ensures var hv := Eval.Eval(fuel - 1, w, s, h);
      var o := Eval.Eval(fuel, w, s, List(p, [h] + rest));
      (hv.res.Err? ==> o == Out(Err(ErrorAt(h.pos, hv.res.error)), hv.w))
      && (hv.res.Ok? && !hv.res.value.VFunc? ==> o == Out(Err(Located(h.pos, NotAFunction(hv.res.value))), hv.w))
    ensures var hv := Eval.Eval(fuel - 1, w, s, h);
      hv.res.Ok? ==> var c := Call(fuel - 1, hv.w, s, hv.res.value, rest);
        Eval.Eval(fuel, w, s, List(p, [h] + rest)) == if c.res.Err? then Out(Err(ErrorAt(h.pos, c.res.error)), c.w) else c
  {
    assert ([h] + rest)[0] == h && ([h] + rest)[1..] == rest;
  }

  /**
   * A special form receives its argument nodes unevaluated; any other
   * function gets its arguments evaluated left to right first, and an error
   * among them ends the call.
   */
  lemma CallDispatches(fuel: nat, w: World, s: FrameId, fnv: Value, args: seq<Node>)
    requires WorldOk(w) && s < |w.env.frames| && ValueIn(fnv, |w.cells|) && fuel >= 1 && fnv.VFunc?
    ensures fnv.f.Builtin? && fnv.f.op.IsSpecial() ==> Call(fuel, w, s, fnv, args) == Special(fuel - 1, w, s, fnv.f.op, args)
    ensures !(fnv.f.Builtin? && fnv.f.op.IsSpecial()) ==>
      var a := EvalArgs(fuel - 1, w, s, args, []);
      (a.res.Err? ==> Call(fuel, w, s, fnv, args) == Out(Err(a.res.error), a.w))
      && (a.res.Ok? ==> (assert fnv.f.Closure? ==> fnv.f.cell in Cells(fnv);
                         Call(fuel, w, s, fnv, args) == Apply(fuel - 1, a.w, fnv.f, a.res.value)))
  {
  }

  /** `and` never evaluates an argument after the first `false`. */
  lemma {:induction false} AndStopsAtFalse(fuel: nat, w: World, s: FrameId, pre: seq<Node>, rest: seq<Node>, last: Value)
    requires WorldOk(w) && s < |w.env.frames| && ValueIn(last, |w.cells|)
    requires pre != [] && AndSeq(fuel, w, s, pre, last).res == Ok(VBool(false))
    ensures AndSeq(fuel, w, s, pre + rest, last) == AndSeq(fuel, w, s, pre, last)
    decreases pre
  {
    assert (pre + rest)[0] == pre[0];
    assert (pre + rest)[1..] == pre[1..] + rest;
    var o1 := Eval.Eval(fuel - 1, w, s, pre[0]);
    if o1.res.Ok? && !IsFalse(o1.res.value) {
      AndStopsAtFalse(fuel - 1, o1.w, s, pre[1..], rest, o1.res.value);
    }
  }

  /** `or` never evaluates an argument after the first one that is not `false`, and returns that value. */
  lemma {:induction false} OrStopsAtTrue(fuel: nat, w: World, s: FrameId, pre: seq<Node>, rest: seq<Node>, last: Value)
    requires WorldOk(w) && s < |w.env.frames| && ValueIn(last, |w.cells|)
    requires pre != [] && OrSeq(fuel, w, s, pre, last).res.Ok? && !IsFalse(OrSeq(fuel, w, s, pre, last).res.value)
    ensures OrSeq(fuel, w, s, pre + rest, last) == OrSeq(fuel, w, s, pre, last)
    decreases pre
  {
    assert (pre + rest)[0] == pre[0];
    assert (pre + rest)[1..] == pre[1..] + rest;
    var o1 := Eval.Eval(fuel - 1, w, s, pre[0]);
    if o1.res.Ok? && IsFalse(o1.res.value) {
      OrStopsAtTrue(fuel - 1, o1.w, s, pre[1..], rest, o1.res.value);
    }
  }

  /** `and` of nothing is `true`; `or` of nothing is `false`. */
  lemma EmptyAndOr(fuel: nat, w: World, s: FrameId)
    requires WorldOk(w) && s < |w.env.frames| && fuel >= 2
    ensures Special(fuel, w, s, AndFn, []) == Out(Ok(VBool(true)), w)
    ensures Special(fuel, w, s, OrFn, []) == Out(Ok(VBool(false)), w)
  {
  }

  /** `if` evaluates only the branch the test selects, and only `false` selects the else branch. */
  lemma IfEvaluatesOneBranch(fuel: nat, w: World, s: FrameId, c: Node, t: Node, e: Node, other: Node)
    requires WorldOk(w) && s < |w.env.frames| && fuel >= 1
    ensures var cond := Eval.Eval(fuel - 1, w, s, c);
      cond.res.Ok? ==>
        IfForm(fuel, w, s, [c, t, e]) == Eval.Eval(fuel - 1, cond.w, s, if IsFalse(cond.res.value) then e else t)
        && (IsFalse(cond.res.value) ==> IfForm(fuel, w, s, [c, other, e]) == IfForm(fuel, w, s, [c, t, e]))
        && (!IsFalse(cond.res.value) ==> IfForm(fuel, w, s, [c, t, other]) == IfForm(fuel, w, s, [c, t, e]))
  {
  }

  /** Zero and the empty string are true. */
  lemma ZeroAndEmptyAreTrue(fuel: nat, w: World, s: FrameId, p: nat, t: Node, e: Node)
    requires WorldOk(w) && s < |w.env.frames| && fuel >= 2
    ensures IfForm(fuel, w, s, [Int(p, 0), t, e]) == Eval.Eval(fuel - 1, w, s, t)
    ensures IfForm(fuel, w, s, [Str(p, ""), t, e]) == Eval.Eval(fuel - 1, w, s, t)
  {
  }

  /** `when` and `unless` return `false` when they skip their body, which is then never evaluated. */
  lemma SkippedBodyIsFalse(fuel: nat, w: World, s: FrameId, c: Node, body: Node)
    requires WorldOk(w) && s < |w.env.frames| && fuel >= 1
    ensures var cond := Eval.Eval(fuel - 1, w, s, c);
      cond.res.Ok? && IsFalse(cond.res.value) ==>
        WhenForm(fuel, w, s, [c, body]) == Out(Ok(VBool(false)), cond.w)
        && UnlessForm(fuel, w, s, [c, body]) == Eval.Eval(fuel - 1, cond.w, s, body)
    ensures var cond := Eval.Eval(fuel - 1, w, s, c);
      cond.res.Ok? && !IsFalse(cond.res.value) ==>
        UnlessForm(fuel, w, s, [c, body]) == Out(Ok(VBool(false)), cond.w)
        && WhenForm(fuel, w, s, [c, body]) == Eval.Eval(fuel - 1, cond.w, s, body)
  {
  }

  /** The conditionals check their argument counts before evaluating anything. */
  lemma ConditionalArity(fuel: nat, w: World, s: FrameId, args: seq<Node>)
    requires WorldOk(w) && s < |w.env.frames| && fuel >= 1
    ensures |args| != 3 ==> IfForm(fuel, w, s, args) == Out(Err(Failure(Message("function \"if\" takes three arguments"))), w)
    ensures |args| != 2 ==> WhenForm(fuel, w, s, args) == Out(Err(Failure(Message("function \"when\" takes two arguments"))), w)
    ensures |args| != 2 ==> UnlessForm(fuel, w, s, args) == Out(Err(Failure(Message("function \"unless\" takes two arguments"))), w)
  {
  }

  /**
   * `var x` binds `x` to nil in the calling scope and `var x e` to the value of
   * `e`. When the scope already binds `x` (after `e` ran), `var` fails with
   * the world `e` left; an error of `e` is returned as it is.
   */
  lemma VarDeclares(fuel: nat, w: World, s: FrameId, p: nat, x: string, init: Node)
    requires WorldOk(w) && s < |w.env.frames| && fuel >= 1
    ensures var o := VarForm(fuel, w, s, [Symbol(p, x)]);
      (x !in w.env.frames[s].vars ==> o.res == Ok(VNil) && GetVar(o.w.env, s, x) == Ok(VNil))
      && (x in w.env.frames[s].vars ==> o == Out(Err(Failure(AlreadyDefined(x))), w))
    ensures var v := Eval.Eval(fuel - 1, w, s, init);
      var o := VarForm(fuel, w, s, [Symbol(p, x), init]);
      (v.res.Ok? && x !in v.w.env.frames[s].vars ==> o.res == Ok(VNil) && GetVar(o.w.env, s, x) == v.res)
      && (v.res.Ok? && x in v.w.env.frames[s].vars ==> o == Out(Err(Failure(AlreadyDefined(x))), v.w))
      && (v.res.Err? ==> o == Out(Err(v.res.error), v.w))
  {
    CreateThenGet(w.env, s, x, VNil);
    var v := Eval.Eval(fuel - 1, w, s, init);
    if v.res.Ok? {
      CreateThenGet(v.w.env, s, x, v.res.value);
    }
  }

  /** `var` and `set` check their argument counts and that the first argument is a symbol. */
  lemma BindingFormsCheckArguments(fuel: nat, w: World, s: FrameId, args: seq<Node>)
    requires WorldOk(w) && s < |w.env.frames| && fuel >= 1
    ensures (|args| == 0 || |args| > 2) ==> VarForm(fuel, w, s, args) == Out(Err(Failure(Message("var takes one or two arguments"))), w)
    ensures 1 <= |args| <= 2 && !args[0].Symbol? ==> VarForm(fuel, w, s, args) == Out(Err(Failure(Message("var takes a symbol as first argument"))), w)
    ensures |args| != 2 ==> SetForm(fuel, w, s, args) == Out(Err(Failure(Message("function \"set\" takes two arguments"))), w)
    ensures |args| == 2 && !args[0].Symbol? ==> SetForm(fuel, w, s, args) == Out(Err(Failure(Message("function \"set\" takes a symbol as first argument"))), w)
  {
  }

  /** `set x e` assigns the value of `e` where `x` is defined, exactly as the scope's `Set` does. */
  lemma SetAssigns(fuel: nat, w: World, s: FrameId, p: nat, x: string, e: Node)
    requires WorldOk(w) && s < |w.env.frames| && fuel >= 1
    ensures var v := Eval.Eval(fuel - 1, w, s, e);
      var o := SetForm(fuel, w, s, [Symbol(p, x), e]);
      v.res.Ok? ==>
        var r := SetVar(v.w.env, s, x, v.res.value);
        o.w.env == r.state && o.res == (if r.err.Some? then Err(r.err.value) else Ok(VNil))
  {
  }

  /** `do` runs in a new branch: no scope that existed before gains or loses a symbol, so its declarations vanish with it. */
  lemma DoHidesDeclarations(fuel: nat, w: World, s: FrameId, args: seq<Node>)
    requires WorldOk(w) && s < |w.env.frames|
    ensures var o := Special(fuel, w, s, DoFn, args);
      forall id | 0 <= id < |w.env.frames| :: o.w.env.frames[id].vars.Keys == w.env.frames[id].vars.Keys
  {
  }

  /** A named `func` binds the closure in the calling scope, and fails if that scope already binds the name. */
  lemma FuncBindsItsName(w: World, s: FrameId, p: nat, name: string, q: nat, params: seq<Node>, body: seq<Node>)
    requires WorldOk(w) && s < |w.env.frames| && name != "" && AllSymbols(params) && body != []
    ensures var o := FuncForm(w, s, [Symbol(p, name), List(q, params)] + body);
      var fnv := VFunc(Closure(name, Names(params), body, |w.cells|));
      (name in w.env.frames[s].vars ==> o == Out(Err(Failure(AlreadyDefined(name))), w))
      && (name !in w.env.frames[s].vars ==>
            o.res == Ok(fnv) && GetVar(o.w.env, s, name) == Ok(fnv) && o.w.cells == w.cells + [s])
  {
    var args := [Symbol(p, name), List(q, params)] + body;
    assert args[0] == Symbol(p, name) && args[1] == List(q, params) && args[2..] == body;
    var fnv := VFunc(Closure(name, Names(params), body, |w.cells|));
    CreateThenGet(w.env, s, name, fnv);
  }

  /** An anonymous `func` binds nothing: it only makes the closure, over the calling scope. */
  lemma AnonymousFunc(w: World, s: FrameId, q: nat, params: seq<Node>, body: seq<Node>)
    requires WorldOk(w) && s < |w.env.frames| && AllSymbols(params) && body != []
    ensures var o := FuncForm(w, s, [List(q, params)] + body);
      o == Out(Ok(VFunc(Closure("", Names(params), body, |w.cells|))), World(w.env, w.cells + [s]))
  {
    var args := [List(q, params)] + body;
    assert args[0] == List(q, params) && args[1..] == body;
  }

  /** A closure called with the wrong number of arguments fails before doing anything. */
  lemma ClosureChecksArity(fuel: nat, w: World, f: Function, args: seq<Value>)
    requires WorldOk(w) && ValuesIn(args, |w.cells|) && f.Closure? && f.cell < |w.cells|
    requires |args| != |f.params| && fuel >= 2
    ensures Apply(fuel, w, f, args) == Out(Err(Failure(Arity(f.name, |f.params|))), w)
  {
  }

  predicate Distinct(names: seq<string>)
  {
    forall i, j | 0 <= i < j < |names| :: names[i] != names[j]
  }

  /** The bindings of parameters to arguments. */
  function ParamMap(params: seq<string>, args: seq<Value>): map<string, Value>
    requires |params| == |args|
  {
    if params == [] then map[] else ParamMap(params[1..], args[1..])[params[0] := args[0]]
  }

  lemma {:induction false} ParamMapKeys(params: seq<string>, args: seq<Value>)
    requires |params| == |args|
    ensures forall n | n in ParamMap(params, args) :: n in params
  {
    if params != [] {
      ParamMapKeys(params[1..], args[1..]);
    }
  }

  /** Binding distinct parameters in a scope that has none of them adds exactly the parameter map. */
  lemma {:induction false} BindParamsBinds(w: World, b: FrameId, params: seq<string>, args: seq<Value>)
    requires WorldOk(w) && b < |w.env.frames| && |params| == |args| && ValuesIn(args, |w.cells|)
    requires Distinct(params) && forall i | 0 <= i < |params| :: params[i] !in w.env.frames[b].vars
    ensures BindParams(w, b, params, args)
         == Written(World(w.env.(frames := w.env.frames[b := w.env.frames[b].(vars := w.env.frames[b].vars + ParamMap(params, args))]), w.cells), None)
    decreases |params|
  {
    var f := w.env.frames[b];
    if params == [] {
      assert f.vars + map[] == f.vars;
      assert w.env.frames[b := f] == w.env.frames;
    } else {
      assert params[0] !in f.vars;
      CreateIn(w, b, params[0], args[0]);
      var w1 := World(w.env.(frames := w.env.frames[b := f.(vars := f.vars[params[0] := args[0]])]), w.cells);
      assert CreateVar(w.env, b, params[0], args[0]) == Written(w1.env, None);
      forall i | 0 <= i < |params[1..]| ensures params[1..][i] !in w1.env.frames[b].vars {
        assert params[1..][i] == params[i + 1];
      }
      assert Distinct(params[1..]) by {
        forall i, j | 0 <= i < j < |params[1..]| ensures params[1..][i] != params[1..][j] {
          assert params[1..][i] == params[i + 1] && params[1..][j] == params[j + 1];
        }
      }
      BindParamsBinds(w1, b, params[1..], args[1..]);
      var rest := ParamMap(params[1..], args[1..]);
      ParamMapKeys(params[1..], args[1..]);
      assert params[0] !in rest;
      var joined := f.vars + ParamMap(params, args);
      assert f.vars[params[0] := args[0]] + rest == joined;
      assert w1.env.frames[b := w1.env.frames[b].(vars := joined)] == w.env.frames[b := f.(vars := joined)];
    }
  }

  /**
   * A call with the right number of distinct parameters binds them, in a new
   * branch of the scope the closure's cell holds, to the arguments; the cell
   * moves to that branch and the body runs there.
   */
  lemma ClosureBindsParams(fuel: nat, w: World, f: Function, args: seq<Value>)
    requires WorldOk(w) && ValuesIn(args, |w.cells|) && f.Closure? && f.cell < |w.cells|
    requires |args| == |f.params| && Distinct(f.params) && fuel >= 1
    ensures var b := |w.env.frames|;
      var w' := World(w.env.(frames := w.env.frames + [Frame(Parent(w.cells[f.cell]), ParamMap(f.params, args))]),
                      w.cells[f.cell := b]);
      WorldOk(w') && ApplyClosure(fuel, w, f, args) == ClosureBody(fuel - 1, w', f.cell, f.body, VNil)
  {
    CallBranchIn(w, f.cell);
    var (e1, b) := NewBranch(w.env, w.cells[f.cell]);
    var w1 := World(e1, w.cells[f.cell := b]);
    BindParamsBinds(w1, b, f.params, args);
    assert map[] + ParamMap(f.params, args) == ParamMap(f.params, args);
    assert e1.frames[b := e1.frames[b].(vars := ParamMap(f.params, args))]
        == w.env.frames + [Frame(Parent(w.cells[f.cell]), ParamMap(f.params, args))];
  }

  /** Two parameters with the same name make the call panic. */
  lemma RepeatedParamPanics(fuel: nat, w: World, name: string, x: string, body: seq<Node>, c: nat, a: Value, b: Value)
    requires WorldOk(w) && c < |w.cells| && ValuesIn([a, b], |w.cells|) && fuel >= 1
    ensures ApplyClosure(fuel, w, Closure(name, [x, x], body, c), [a, b]).res
         == Err(Panic("must not happen: symbol already defined in current scope: " + x))
  {
    CallBranchIn(w, c);
    var (e1, bid) := NewBranch(w.env, w.cells[c]);
    var w1 := World(e1, w.cells[c := bid]);
    assert ValueIn([a, b][0], |w.cells|) && ValueIn([a, b][1], |w.cells|);
    CreateIn(w1, bid, x, a);
    var c1 := CreateVar(w1.env, bid, x, a);
    assert c1.err.None? && x in c1.state.frames[bid].vars;
    var w2 := World(c1.state, w1.cells);
    assert [x, x][1..] == [x] && [a, b][1..] == [b];
    assert BindParams(w2, bid, [x], [b]).err == Some(Panic("must not happen: symbol already defined in current scope: " + x));
    assert BindParams(w1, bid, [x, x], [a, b]) == BindParams(w2, bid, [x], [b]);
  }

  /**
   * `for` wants four or more arguments. It runs the init in a new branch
   * `b` of the calling scope, then loops in `b` starting from nil; an error
   * of the init ends it.
   */
  lemma ForRunsInBranch(fuel: nat, w: World, s: FrameId, args: seq<Node>) returns (w1: World, b: FrameId)
    requires WorldOk(w) && s < |w.env.frames| && fuel >= 1
    ensures |args| < 4 ==> ForForm(fuel, w, s, args) == Out(Err(Failure(Message("for takes four or more arguments"))), w)
    ensures (w1.env, b) == NewBranch(w.env, s) && w1.cells == w.cells && WorldOk(w1) && b < |w1.env.frames|
    ensures w1.env.frames[b] == Frame(Parent(s), map[])
    ensures |args| >= 4 ==> var i := Eval.Eval(fuel - 1, w1, b, args[0]);
      ForForm(fuel, w, s, args) == if i.res.Err? then Out(Err(i.res.error), i.w) else ForLoop(fuel - 1, i.w, b, args[1], args[2], args[3..], VNil)
  {
    BranchIn(w, s);
    var (e1, b1) := NewBranch(w.env, s);
    w1, b := World(e1, w.cells), b1;
  }

  /** A `for` whose test is false right after the init returns nil. */
  lemma ForFalseTestIsNil(fuel: nat, w: World, s: FrameId, init: Node, test: Node, step: Node, code: seq<Node>)
    returns (w1: World, b: FrameId)
    requires WorldOk(w) && s < |w.env.frames| && fuel >= 2 && code != []
    ensures (w1.env, b) == NewBranch(w.env, s) && w1.cells == w.cells && WorldOk(w1) && b < |w1.env.frames|
    ensures var i := Eval.Eval(fuel - 1, w1, b, init);
      i.res.Ok? && Eval.Eval(fuel - 2, i.w, b, test).res == Ok(VBool(false)) ==>
        ForForm(fuel, w, s, [init, test, step] + code) == Out(Ok(VNil), Eval.Eval(fuel - 2, i.w, b, test).w)
  {
    var args := [init, test, step] + code;
    assert args[0] == init && args[1] == test && args[2] == step && args[3..] == code;
    w1, b := ForRunsInBranch(fuel, w, s, args);
  }

  /**
   * One round of `for`'s loop: a test that is not `false` runs the body,
   * then the step, then loops again with the body's value; an error in any
   * of them ends the loop.
   */
  lemma ForLoopStep(fuel: nat, w: World, b: FrameId, test: Node, step: Node, code: seq<Node>, value: Value)
    requires WorldOk(w) && b < |w.env.frames| && ValueIn(value, |w.cells|) && fuel >= 1
    ensures var t := Eval.Eval(fuel - 1, w, b, test);
      (t.res.Err? ==> ForLoop(fuel, w, b, test, step, code, value) == Out(Err(t.res.error), t.w))
      && (t.res.Ok? && IsFalse(t.res.value) ==> ForLoop(fuel, w, b, test, step, code, value) == Out(Ok(value), t.w))
    ensures var t := Eval.Eval(fuel - 1, w, b, test);
      t.res.Ok? && !IsFalse(t.res.value) ==>
        var c := EvalBody(fuel - 1, t.w, b, code, value);
        (c.res.Err? ==> ForLoop(fuel, w, b, test, step, code, value) == c)
        && (c.res.Ok? ==> var st := Eval.Eval(fuel - 1, c.w, b, step);
              ForLoop(fuel, w, b, test, step, code, value)
                == if st.res.Err? then Out(Err(st.res.error), st.w) else ForLoop(fuel - 1, st.w, b, test, step, code, c.res.value))
  {
  }

  /** A body that is just a symbol bound in the loop's scope yields its value and changes nothing. */
  lemma BodyReadsSymbol(fuel: nat, w: World, b: FrameId, p: nat, name: string, value: Value)
    requires WorldOk(w) && b < |w.env.frames| && ValueIn(value, |w.cells|) && name in w.env.frames[b].vars && fuel >= 2
    ensures EvalBody(fuel, w, b, [Symbol(p, name)], value) == Out(Ok(w.env.frames[b].vars[name]), w)
  {
    var v := w.env.frames[b].vars[name];
    assert Eval.Eval(fuel - 1, w, b, Symbol(p, name)) == Out(Ok(v), w);
    assert [Symbol(p, name)][1..] == [];
    assert EvalBody(fuel - 1, w, b, [], v) == Out(Ok(v), w);
  }

  /** The world with `name` bound to `v` in scope `b`. */
  function Rebind(w: World, b: FrameId, name: string, v: Value): World
    requires b < |w.env.frames|
  {
    var f := w.env.frames[b];
    World(w.env.(frames := w.env.frames[b := f.(vars := f.vars[name := v])]), w.cells)
  }

  /**
   * `range` checks its arguments, evaluates the collection in a new branch
   * `b` of the calling scope and loops over it there.
   */
  lemma RangeRunsInBranch(fuel: nat, w: World, s: FrameId, args: seq<Node>) returns (w1: World, b: FrameId)
    requires WorldOk(w) && s < |w.env.frames| && fuel >= 1
    ensures |args| < 3 ==> RangeForm(fuel, w, s, args) == Out(Err(Failure(Message("range takes three or more arguments"))), w)
    ensures |args| >= 3 && RangeNames(args[0]).0 == "" ==>
      RangeForm(fuel, w, s, args) == Out(Err(Failure(Message("range takes var name or (i elem) var name pair as first argument"))), w)
    ensures (w1.env, b) == NewBranch(w.env, s) && w1.cells == w.cells && WorldOk(w1) && b < |w1.env.frames|
    ensures w1.env.frames[b] == Frame(Parent(s), map[])
    ensures |args| >= 3 && RangeNames(args[0]).0 != "" ==> var coll := Eval.Eval(fuel - 1, w1, b, args[1]);
      RangeForm(fuel, w, s, args)
        == if coll.res.Err? then Out(Err(coll.res.error), coll.w)
           else RangeOver(fuel, coll.w, b, RangeNames(args[0]).0, RangeNames(args[0]).1, coll.res.value, args[2..])
  {
    BranchIn(w, s);
    var (e1, b1) := NewBranch(w.env, s);
    w1, b := World(e1, w.cells), b1;
  }

  /**
   * With no iteration `range` gives the collection itself: an int64 that is
   * not positive, or the empty list. Anything but an int64 or a list is an
   * error.
   */
  lemma RangeWithoutIterations(fuel: nat, w: World, b: FrameId, iname: string, ename: string, coll: Value, code: seq<Node>)
    requires WorldOk(w) && b < |w.env.frames| && ValueIn(coll, |w.cells|) && fuel >= 2
    ensures coll.VInt64? && coll.i <= 0 ==>
      RangeOver(fuel, w, b, iname, ename, coll, code) == Out(Ok(coll), CreateQuietly(w, b, iname, VInt(0)))
    ensures coll == VList([]) ==>
      RangeOver(fuel, w, b, iname, ename, coll, code) == Out(Ok(coll), CreateQuietly(CreateQuietly(w, b, iname, VInt(0)), b, ename, VNil))
    ensures !coll.VInt64? && !coll.VList? ==>
      RangeOver(fuel, w, b, iname, ename, coll, code) == Out(Err(Failure(Message("range takes an integer or a list as second argument"))), w)
  {
  }

  /**
   * One iteration of `range` over an int64, whatever the body: the index is
   * set to `i` in the loop's scope, the body runs there, and the loop goes
   * on with `i`+1 and the body's value; an error of the body ends it.
   */
  lemma RangeIntStep(fuel: nat, w: World, b: FrameId, iname: string, i: nat, n: Int64, code: seq<Node>, value: Value)
    returns (w1: World)
    requires WorldOk(w) && b < |w.env.frames| && ValueIn(value, |w.cells|)
    requires iname in w.env.frames[b].vars && i < n && fuel >= 1
    ensures w1 == Rebind(w, b, iname, VInt64(i)) && WorldOk(w1) && b < |w1.env.frames| && ValueIn(value, |w1.cells|)
    ensures w1.env.frames[b].vars[iname] == VInt64(i)
    ensures var c := EvalBody(fuel - 1, w1, b, code, value);
      RangeInt(fuel, w, b, iname, i, n, code, value)
        == if c.res.Err? then c else RangeInt(fuel - 1, c.w, b, iname, i + 1, n, code, c.res.value)
  {
    var set1 := SetQuietly(w, b, iname, VInt64(i));
    assert set1.err.None? && set1.state == Rebind(w, b, iname, VInt64(i));
    w1 := set1.state;
  }

  /** With the body reading the index, a `range` loop over `i` .. `n`-1 ends with `n`-1. */
  lemma {:induction false} RangeIntEndsWithLast(fuel: nat, w: World, b: FrameId, p: nat, iname: string, i: nat, n: Int64, value: Value)
    requires WorldOk(w) && b < |w.env.frames| && ValueIn(value, |w.cells|)
    requires iname in w.env.frames[b].vars && i < n && fuel >= n - i + 2
    ensures RangeInt(fuel, w, b, iname, i, n, [Symbol(p, iname)], value).res == Ok(VInt64(n - 1))
    decreases n - i
  {
    if i + 1 < n {
      RangeIntEndsLater(fuel, w, b, p, iname, i, n, value);
    } else {
      var w1 := RangeIntStep(fuel, w, b, iname, i, n, [Symbol(p, iname)], value);
      BodyReadsSymbol(fuel - 1, w1, b, p, iname, value);
      assert RangeInt(fuel - 1, w1, b, iname, i + 1, n, [Symbol(p, iname)], VInt64(i)).res == Ok(VInt64(i));
    }
  }

  lemma {:induction false} RangeIntEndsLater(fuel: nat, w: World, b: FrameId, p: nat, iname: string, i: nat, n: Int64, value: Value)
    requires WorldOk(w) && b < |w.env.frames| && ValueIn(value, |w.cells|)
    requires iname in w.env.frames[b].vars && i + 1 < n && fuel >= n - i + 2
    ensures RangeInt(fuel, w, b, iname, i, n, [Symbol(p, iname)], value).res == Ok(VInt64(n - 1))
    decreases n - i, 0
  {
    var w1 := RangeIntStep(fuel, w, b, iname, i, n, [Symbol(p, iname)], value);
    BodyReadsSymbol(fuel - 1, w1, b, p, iname, value);
    RangeIntEndsWithLast(fuel - 1, w1, b, p, iname, i + 1, n, VInt64(i));
  }

  /**
   * `range i n i` over a positive int64 ends with the last index, `n`-1; over
   * zero or a negative number the body never runs and the result is `n`.
   */
  lemma RangeOverInt(fuel: nat, w: World, s: FrameId, p: nat, q: nat, r: nat, x: string, n: Int64)
    requires WorldOk(w) && s < |w.env.frames| && x != "" && fuel >= n + 4 && fuel >= 4
    ensures RangeForm(fuel, w, s, [Symbol(p, x), Int(q, n), Symbol(r, x)]).res
         == if n > 0 then Ok(VInt64(n - 1)) else Ok(VInt64(n))
  {
    var args := [Symbol(p, x), Int(q, n), Symbol(r, x)];
    assert args[2..] == [Symbol(r, x)];
    BranchIn(w, s);
    var (e1, b) := NewBranch(w.env, s);
    var w1 := World(e1, w.cells);
    assert Eval.Eval(fuel - 1, w1, b, Int(q, n)) == Out(Ok(VInt64(n)), w1);
    var w2 := CreateQuietly(w1, b, x, VInt(0));
    assert x in w2.env.frames[b].vars;
    assert RangeForm(fuel, w, s, args) == RangeInt(fuel - 1, w2, b, x, 0, n, [Symbol(r, x)], VInt64(n));
    if n > 0 {
      RangeIntEndsWithLast(fuel - 1, w2, b, r, x, 0, n, VInt64(n));
    }
  }

  /**
   * One iteration of `range` over a list, whatever the body: the index is
   * set to `i` and then the element to item `i` in the loop's scope, the
   * body runs there, and the loop goes on with the next item and the body's
   * value; an error of the body ends it.
   */
  lemma RangeListStep(fuel: nat, w: World, b: FrameId, iname: string, ename: string,
                      items: seq<Value>, i: nat, code: seq<Node>, value: Value)
    returns (w2: World)
    requires WorldOk(w) && b < |w.env.frames| && ValueIn(value, |w.cells|) && ValuesIn(items, |w.cells|)
    requires iname in w.env.frames[b].vars && ename in w.env.frames[b].vars
    requires i < |items| && fuel >= 1
    ensures w2 == Rebind(Rebind(w, b, iname, VInt(i)), b, ename, items[i])
    ensures WorldOk(w2) && b < |w2.env.frames| && ValueIn(value, |w2.cells|) && ValuesIn(items, |w2.cells|)
    ensures w2.env.frames[b].vars[ename] == items[i] && (iname != ename ==> w2.env.frames[b].vars[iname] == VInt(i))
    ensures var c := EvalBody(fuel - 1, w2, b, code, value);
      RangeList(fuel, w, b, iname, ename, items, i, code, value)
        == if c.res.Err? then c else RangeList(fuel - 1, c.w, b, iname, ename, items, i + 1, code, c.res.value)
  {
    var set1 := SetQuietly(w, b, iname, VInt(i));
    assert set1.err.None? && set1.state == Rebind(w, b, iname, VInt(i));
    var set2 := SetQuietly(set1.state, b, ename, items[i]);
    assert set2.err.None? && set2.state == Rebind(set1.state, b, ename, items[i]);
    w2 := set2.state;
  }

  /** With the body reading the element, a `range` loop over a list from position `i` ends with the last item. */
  lemma {:induction false} RangeListEndsWithLast(fuel: nat, w: World, b: FrameId, p: nat, iname: string, ename: string,
                                                 items: seq<Value>, i: nat, value: Value)
    requires WorldOk(w) && b < |w.env.frames| && ValueIn(value, |w.cells|) && ValuesIn(items, |w.cells|)
    requires iname in w.env.frames[b].vars && ename in w.env.frames[b].vars
    requires i < |items| && fuel >= |items| - i + 2
    ensures RangeList(fuel, w, b, iname, ename, items, i, [Symbol(p, ename)], value).res == Ok(items[|items| - 1])
    decreases |items| - i
  {
    if i + 1 < |items| {
      RangeListEndsLater(fuel, w, b, p, iname, ename, items, i, value);
    } else {
      var w2 := RangeListStep(fuel, w, b, iname, ename, items, i, [Symbol(p, ename)], value);
      BodyReadsSymbol(fuel - 1, w2, b, p, ename, value);
      assert RangeList(fuel - 1, w2, b, iname, ename, items, i + 1, [Symbol(p, ename)], items[i]).res == Ok(items[i]);
    }
  }

  lemma {:induction false} RangeListEndsLater(fuel: nat, w: World, b: FrameId, p: nat, iname: string, ename: string,
                                              items: seq<Value>, i: nat, value: Value)
    requires WorldOk(w) && b < |w.env.frames| && ValueIn(value, |w.cells|) && ValuesIn(items, |w.cells|)
    requires iname in w.env.frames[b].vars && ename in w.env.frames[b].vars
    requires i + 1 < |items| && fuel >= |items| - i + 2
    ensures RangeList(fuel, w, b, iname, ename, items, i, [Symbol(p, ename)], value).res == Ok(items[|items| - 1])
    decreases |items| - i, 0
  {
    var w2 := RangeListStep(fuel, w, b, iname, ename, items, i, [Symbol(p, ename)], value);
    BodyReadsSymbol(fuel - 1, w2, b, p, ename, value);
    RangeListEndsWithLast(fuel - 1, w2, b, p, iname, ename, items, i + 1, items[i]);
  }
}
