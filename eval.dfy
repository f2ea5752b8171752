/**
 * The tree-walking evaluator: `Eval` and `call` of the default scope and the
 * special forms of the builtin table, which receive the calling scope and
 * their argument nodes unevaluated.
 *
 * Evaluation is a function of a `World`: the scopes, the variable manager,
 * and one cell per closure made by `func`. The Go closure captures the
 * variable holding its defining scope by reference and reassigns it to a
 * new branch on every call, so every copy of a closure shares that cell, and
 * the body of a call runs in whatever scope the cell holds when each body
 * form starts. Evaluation is bounded by `fuel`: every step spends one unit,
 * and a run that exhausts it ends in `OutOfFuel`.
 */
module Eval {
  import opened Values
  import opened Variables
  import opened Scope
  import Builtins
  import Commands

  datatype World = World(env: Env, cells: seq<FrameId>)

  /** The result of evaluating one node, and the world it leaves. */
  datatype Out = Out(res: Result<Value>, w: World)

  /** The result of evaluating a call's arguments, and the world they leave. */
  datatype OutArgs = OutArgs(res: Result<seq<Value>>, w: World)

  /** The closure cells a value refers to. */
  function Cells(v: Value): set<nat>
  {
    match v
    case VFunc(f) => if f.Closure? then {f.cell} else {}
    case VList(items) => set i, c | 0 <= i < |items| && c in Cells(items[i]) :: c
    case _ => {}
  }

  /** Every closure inside `v` refers to one of the first `n` cells. */
  predicate ValueIn(v: Value, n: nat)
  {
    forall c | c in Cells(v) :: c < n
  }

  predicate ValuesIn(vs: seq<Value>, n: nat)
  {
    forall i | 0 <= i < |vs| :: ValueIn(vs[i], n)
  }

  /**
   * The world's invariant: parents are older frames, every cell holds an
   * existing scope, every closure stored in a scope has its cell, and the
   * variable manager holds only data.
   */
  predicate WorldOk(w: World)
  {
    Linked(w.env.frames) && VarsOk(w.env.vars)
    && (forall c | 0 <= c < |w.cells| :: w.cells[c] < |w.env.frames|)
    && (forall id, n | 0 <= id < |w.env.frames| && n in w.env.frames[id].vars ::
          ValueIn(w.env.frames[id].vars[n], |w.cells|))
  }

  /**
   * How evaluation changes a world: scopes and cells are only added; no
   * existing scope outside `touched` gains or loses a symbol; and a cell
   * either keeps its scope or moves to a scope made since.
   */
  predicate Grows(w: World, w2: World, touched: set<FrameId>)
  {
    |w.env.frames| <= |w2.env.frames| && |w.cells| <= |w2.cells|
    && (forall id | 0 <= id < |w.env.frames| && id !in touched ::
          w2.env.frames[id].vars.Keys == w.env.frames[id].vars.Keys)
    && (forall c | 0 <= c < |w.cells| :: w2.cells[c] == w.cells[c] || w2.cells[c] >= |w.env.frames|)
  }

  predicate Sound(w: World, touched: set<FrameId>, o: Out)
  {
    WorldOk(o.w) && Grows(w, o.w, touched) && (o.res.Ok? ==> ValueIn(o.res.value, |o.w.cells|))
  }

  predicate SoundArgs(w: World, touched: set<FrameId>, o: OutArgs)
  {
    WorldOk(o.w) && Grows(w, o.w, touched) && (o.res.Ok? ==> ValuesIn(o.res.value, |o.w.cells|))
  }

  lemma GrowsTrans(w0: World, w1: World, w2: World, t1: set<FrameId>, t2: set<FrameId>, t: set<FrameId>)
    requires Grows(w0, w1, t1) && Grows(w1, w2, t2)
    requires t1 <= t && forall id | id in t2 && id < |w0.env.frames| :: id in t
    ensures Grows(w0, w2, t)
  {
  }

  lemma {:induction false} DataHasNoCells(v: Value)
    requires IsData(v)
    ensures Cells(v) == {}
  {
    match v
    case VList(items) =>
      forall i | 0 <= i < |items| ensures Cells(items[i]) == {} {
        DataHasNoCells(items[i]);
      }
    case _ =>
  }

  /** What `Get` finds in a sound world has its cells. */
  lemma {:induction false} GetIn(w: World, s: FrameId, name: string)
    requires WorldOk(w) && s < |w.env.frames|
    ensures GetVar(w.env, s, name).Ok? ==> ValueIn(GetVar(w.env, s, name).value, |w.cells|)
    decreases s
  {
    var f := w.env.frames[s];
    if name !in f.vars {
      match f.parent
      case Parent(p) => GetIn(w, p, name);
      case Global =>
        if Lookup(w.env.vars, name).Ok? {
          LookupIsData(w.env.vars, name);
          DataHasNoCells(Lookup(w.env.vars, name).value);
        }
      case NoParent =>
    }
  }

  /** `Create` keeps the world sound and touches only its own scope; a failed one changes nothing. */
  lemma CreateIn(w: World, s: FrameId, name: string, v: Value)
    requires WorldOk(w) && s < |w.env.frames| && ValueIn(v, |w.cells|)
    ensures var w' := World(CreateVar(w.env, s, name, v).state, w.cells);
      WorldOk(w') && Grows(w, w', {s}) && |w'.env.frames| == |w.env.frames|
      && (CreateVar(w.env, s, name, v).err.Some? ==> w' == w)
  {
    var w' := World(CreateVar(w.env, s, name, v).state, w.cells);
    forall id, n | 0 <= id < |w'.env.frames| && n in w'.env.frames[id].vars
      ensures ValueIn(w'.env.frames[id].vars[n], |w'.cells|)
    {
      if id != s || n != name {
        assert w'.env.frames[id].vars[n] == w.env.frames[id].vars[n];
      }
    }
  }

  /** `Set` keeps the world sound and adds or removes no symbol anywhere. */
  lemma SetIn(w: World, s: FrameId, name: string, v: Value)
    requires WorldOk(w) && s < |w.env.frames| && ValueIn(v, |w.cells|)
    ensures var w' := World(SetVar(w.env, s, name, v).state, w.cells);
      WorldOk(w') && Grows(w, w', {}) && |w'.env.frames| == |w.env.frames|
  {
    var e' := SetVar(w.env, s, name, v).state;
    AssignKeepsVarsOk(w.env.vars, name, v);
    var w' := World(e', w.cells);
    assert Linked(e'.frames) by {
      forall id | 0 <= id < |e'.frames| && e'.frames[id].parent.Parent?
        ensures e'.frames[id].parent.id < id
      {
        assert e'.frames[id].parent == w.env.frames[id].parent;
      }
    }
    forall id, n | 0 <= id < |e'.frames| && n in e'.frames[id].vars
      ensures ValueIn(e'.frames[id].vars[n], |w.cells|)
    {
      assert n in w.env.frames[id].vars;
    }
  }

  /** `Branch` keeps the world sound, adds the new scope at the end, and touches no existing scope. */
  lemma BranchIn(w: World, s: FrameId)
    requires WorldOk(w) && s < |w.env.frames|
    ensures var (e1, b) := NewBranch(w.env, s);
      var w' := World(e1, w.cells);
      WorldOk(w') && Grows(w, w', {}) && b == |w.env.frames| && b < |e1.frames|
      && e1.frames[..b] == w.env.frames && e1.frames[b] == Frame(Parent(s), map[])
  {
    var (e1, b) := NewBranch(w.env, s);
    var w' := World(e1, w.cells);
    forall id, n | 0 <= id < |e1.frames| && n in e1.frames[id].vars
      ensures ValueIn(e1.frames[id].vars[n], |w.cells|)
    {
      assert id < b;
      assert e1.frames[id] == w.env.frames[id];
    }
  }

  /** A call's new scope, with the closure's cell moved to it. */
  lemma CallBranchIn(w: World, c: nat)
    requires WorldOk(w) && c < |w.cells|
    ensures var (e1, b) := NewBranch(w.env, w.cells[c]);
      var w' := World(e1, w.cells[c := b]);
      WorldOk(w') && Grows(w, w', {}) && b == |w.env.frames| && b < |e1.frames|
      && e1.frames[b] == Frame(Parent(w.cells[c]), map[])
  {
    BranchIn(w, w.cells[c]);
  }

  /** `func`'s new cell keeps the world sound. */
  lemma NewCellIn(w: World, s: FrameId)
    requires WorldOk(w) && s < |w.env.frames|
    ensures var w' := World(w.env, w.cells + [s]);
      WorldOk(w') && Grows(w, w', {})
  {
  }

  lemma ListIn(items: seq<Value>, n: nat)
    requires ValueIn(VList(items), n)
    ensures ValuesIn(items, n)
  {
    forall i | 0 <= i < |items| ensures ValueIn(items[i], n) {
      forall c | c in Cells(items[i]) ensures c < n {
        assert c in Cells(VList(items));
      }
    }
  }

  /** A plain builtin returns no closure it was not given. */
  lemma BuiltinIn(op: Op, args: seq<Value>, n: nat)
    requires !op.IsSpecial() && ValuesIn(args, n)
    ensures Builtins.Apply(op, args).Ok? ==> ValueIn(Builtins.Apply(op, args).value, n)
  {
    var r := Builtins.Apply(op, args);
    if r.Ok? {
      if op == NthFn {
        ListIn(args[0].items, n);
      } else {
        DataHasNoCells(r.value);
      }
    }
  }

  /** Evaluates a node in scope `s`. */
  function Eval(fuel: nat, w: World, s: FrameId, node: Node): (o: Out)
    requires WorldOk(w) && s < |w.env.frames|
    ensures Sound(w, {s}, o)
    decreases fuel
  {
    if fuel == 0 then Out(Err(OutOfFuel), w)
    else match node
      case Symbol(pos, name) =>
        GetIn(w, s, name);
        var r := GetVar(w.env, s, name);
        Out(if r.Ok? then r else Err(ErrorAt(pos, r.error)), w)
      case Int(_, i) => Out(Ok(VInt64(i)), w)
      case Str(_, t) => Out(Ok(VStr(t)), w)
      case List(_, nodes) =>
        if nodes == [] then Out(Ok(VList([])), w)
        else
          var h := Eval(fuel - 1, w, s, nodes[0]);
          if h.res.Err? then Out(Err(ErrorAt(nodes[0].pos, h.res.error)), h.w)
          else
            var o := Call(fuel - 1, h.w, s, h.res.value, nodes[1..]);
            GrowsTrans(w, h.w, o.w, {s}, {s}, {s});
            if o.res.Err? then Out(Err(ErrorAt(nodes[0].pos, o.res.error)), o.w) else o
      case Root(_, nodes) => RootSeq(fuel - 1, w, s, nodes, VNil)
  }

  /** A program's top-level forms in order: the last value, or the first error, located at its form. */
  function RootSeq(fuel: nat, w: World, s: FrameId, nodes: seq<Node>, last: Value): (o: Out)
    requires WorldOk(w) && s < |w.env.frames| && ValueIn(last, |w.cells|)
    ensures Sound(w, {s}, o)
    decreases fuel, 1
  {
    if fuel == 0 then Out(Err(OutOfFuel), w)
    else if nodes == [] then Out(Ok(last), w)
    else RootSeqNext(fuel, w, s, nodes)
  }

  /** The first of a program's remaining forms, then the rest. */
  function RootSeqNext(fuel: nat, w: World, s: FrameId, nodes: seq<Node>): (o: Out)
    requires WorldOk(w) && s < |w.env.frames| && fuel > 0 && nodes != []
    ensures Sound(w, {s}, o)
    decreases fuel, 0
  {
    var o := Eval(fuel - 1, w, s, nodes[0]);
    if o.res.Err? then Out(Err(ErrorAt(nodes[0].pos, o.res.error)), o.w)
    else
      var r := RootSeq(fuel - 1, o.w, s, nodes[1..], o.res.value);
      GrowsTrans(w, o.w, r.w, {s}, {s}, {s});
      r
  }

  /**
   * `call`: a special form gets the argument nodes as they are; any other
   * function gets them evaluated left to right; anything else is not callable.
   */
  function Call(fuel: nat, w: World, s: FrameId, fnv: Value, args: seq<Node>): (o: Out)
    requires WorldOk(w) && s < |w.env.frames| && ValueIn(fnv, |w.cells|)
    ensures Sound(w, {s}, o)
    decreases fuel
  {
    if fuel == 0 then Out(Err(OutOfFuel), w)
    else if fnv.VFunc? && fnv.f.Builtin? && fnv.f.op.IsSpecial() then Special(fuel - 1, w, s, fnv.f.op, args)
    else if fnv.VFunc? then
      var a := EvalArgs(fuel - 1, w, s, args, []);
      if a.res.Err? then Out(Err(a.res.error), a.w)
      else
        assert fnv.f.Closure? ==> fnv.f.cell in Cells(fnv);
        var o := Apply(fuel - 1, a.w, fnv.f, a.res.value);
        GrowsTrans(w, a.w, o.w, {s}, {}, {s});
        o
    else Out(Err(Failure(NotAFunction(fnv))), w)
  }

  /** `call`'s argument loop: the values so far, then the rest evaluated in order; the first error ends it. */
  function EvalArgs(fuel: nat, w: World, s: FrameId, nodes: seq<Node>, acc: seq<Value>): (o: OutArgs)
    requires WorldOk(w) && s < |w.env.frames| && ValuesIn(acc, |w.cells|)
    ensures SoundArgs(w, {s}, o)
    ensures o.res.Ok? ==> |o.res.value| == |acc| + |nodes|
    decreases fuel, 1
  {
    if fuel == 0 then OutArgs(Err(OutOfFuel), w)
    else if nodes == [] then OutArgs(Ok(acc), w)
    else EvalArgsNext(fuel, w, s, nodes, acc)
  }

  /** The first of the remaining arguments, then the rest after its value. */
  function EvalArgsNext(fuel: nat, w: World, s: FrameId, nodes: seq<Node>, acc: seq<Value>): (o: OutArgs)
    requires WorldOk(w) && s < |w.env.frames| && ValuesIn(acc, |w.cells|) && fuel > 0 && nodes != []
    ensures SoundArgs(w, {s}, o)
    ensures o.res.Ok? ==> |o.res.value| == |acc| + |nodes|
    decreases fuel, 0
  {
    var o := Eval(fuel - 1, w, s, nodes[0]);
    if o.res.Err? then OutArgs(Err(o.res.error), o.w)
    else
      var r := EvalArgs(fuel - 1, o.w, s, nodes[1..], acc + [o.res.value]);
      GrowsTrans(w, o.w, r.w, {s}, {s}, {s});
      r
  }

  /** Calls a function that takes evaluated arguments: a plain builtin, `run`, or a closure. */
  function Apply(fuel: nat, w: World, f: Function, args: seq<Value>): (o: Out)
    requires WorldOk(w) && ValuesIn(args, |w.cells|)
    requires f.Builtin? ==> !f.op.IsSpecial()
    requires f.Closure? ==> f.cell < |w.cells|
    ensures Sound(w, {}, o)
    decreases fuel
  {
    if fuel == 0 then Out(Err(OutOfFuel), w)
    else match f
    case Builtin(op) =>
      BuiltinIn(op, args, |w.cells|);
      Out(Builtins.Apply(op, args), w)
    case RunCommand => Out(Commands.Run(args), w)
    case Closure(_, _, _, _) => ApplyClosure(fuel - 1, w, f, args)
  }

  /**
   * The function `func` makes: check the argument count, branch the captured
   * scope (and keep the branch as the captured scope), bind the parameters
   * there, and run the body.
   */
  function ApplyClosure(fuel: nat, w: World, f: Function, args: seq<Value>): (o: Out)
    requires WorldOk(w) && ValuesIn(args, |w.cells|)
    requires f.Closure? && f.cell < |w.cells|
    ensures Sound(w, {}, o)
    decreases fuel
  {
    if fuel == 0 then Out(Err(OutOfFuel), w)
    else if |args| != |f.params| then Out(Err(Failure(Arity(f.name, |f.params|))), w)
    else
      CallBranchIn(w, f.cell);
      var (e1, b) := NewBranch(w.env, w.cells[f.cell]);
      var w1 := World(e1, w.cells[f.cell := b]);
      var bound := BindParams(w1, b, f.params, args);
      if bound.err.Some? then Out(Err(bound.err.value), bound.state)
      else
        var o := ClosureBody(fuel - 1, bound.state, f.cell, f.body, VNil);
        GrowsTrans(w, w1, bound.state, {}, {b}, {});
        GrowsTrans(w, bound.state, o.w, {}, {b}, {});
        o
  }

  /** Binds each parameter to its argument in the new scope; a repeated parameter name panics. */
  function BindParams(w: World, b: FrameId, params: seq<string>, args: seq<Value>): (r: Written<World>)
    requires WorldOk(w) && b < |w.env.frames| && |params| == |args| && ValuesIn(args, |w.cells|)
    ensures WorldOk(r.state) && Grows(w, r.state, {b})
    ensures r.state.cells == w.cells && |r.state.env.frames| == |w.env.frames|
    decreases |params|
  {
    if params == [] then Written(w, None)
    else
      CreateIn(w, b, params[0], args[0]);
      var c := CreateVar(w.env, b, params[0], args[0]);
      if c.err.Some? then Written(w, Some(Panic("must not happen: symbol already defined in current scope: " + params[0])))
      else
        var w1 := World(c.state, w.cells);
        var r := BindParams(w1, b, params[1..], args[1..]);
        GrowsTrans(w, w1, r.state, {b}, {b}, {b});
        r
  }

  /** A closure's body: each form runs in the scope the closure's cell holds when the form starts. */
  function ClosureBody(fuel: nat, w: World, c: nat, nodes: seq<Node>, last: Value): (o: Out)
    requires WorldOk(w) && c < |w.cells| && ValueIn(last, |w.cells|)
    ensures Sound(w, {w.cells[c]}, o)
    decreases fuel
  {
    if fuel == 0 then Out(Err(OutOfFuel), w)
    else if nodes == [] then Out(Ok(last), w)
    else
      var o := Eval(fuel - 1, w, w.cells[c], nodes[0]);
      if o.res.Err? then Out(Err(o.res.error), o.w)
      else
        var r := ClosureBody(fuel - 1, o.w, c, nodes[1..], o.res.value);
        GrowsTrans(w, o.w, r.w, {w.cells[c]}, {o.w.cells[c]}, {w.cells[c]});
        r
  }

  /** A sequence of forms in one scope: the last value, or the first error as it is. */
  function EvalBody(fuel: nat, w: World, s: FrameId, nodes: seq<Node>, last: Value): (o: Out)
    requires WorldOk(w) && s < |w.env.frames| && ValueIn(last, |w.cells|)
    ensures Sound(w, {s}, o)
    decreases fuel
  {
    if fuel == 0 then Out(Err(OutOfFuel), w)
    else if nodes == [] then Out(Ok(last), w)
    else
      var o := Eval(fuel - 1, w, s, nodes[0]);
      if o.res.Err? then Out(Err(o.res.error), o.w)
      else
        var r := EvalBody(fuel - 1, o.w, s, nodes[1..], o.res.value);
        GrowsTrans(w, o.w, r.w, {s}, {s}, {s});
        r
  }

  /** The special forms of the builtin table. */
  function Special(fuel: nat, w: World, s: FrameId, op: Op, args: seq<Node>): (o: Out)
    requires WorldOk(w) && s < |w.env.frames| && op.IsSpecial()
    ensures Sound(w, {s}, o)
    decreases fuel
  {
    if fuel == 0 then Out(Err(OutOfFuel), w)
    else match op
      case AndFn => AndSeq(fuel - 1, w, s, args, VBool(true))
      case OrFn => OrSeq(fuel - 1, w, s, args, VBool(false))
      case IfFn => IfForm(fuel - 1, w, s, args)
      case WhenFn => WhenForm(fuel - 1, w, s, args)
      case UnlessFn => UnlessForm(fuel - 1, w, s, args)
      case VarFn => VarForm(fuel - 1, w, s, args)
      case SetFn => SetForm(fuel - 1, w, s, args)
      case DoFn => DoForm(fuel - 1, w, s, args)
      case FuncFn => FuncForm(w, s, args)
      case ForFn => ForForm(fuel - 1, w, s, args)
      case RangeFn => RangeForm(fuel - 1, w, s, args)
  }

  /** `and`: the arguments in order until one is false; `true` when there are none, else the last value. */
  function AndSeq(fuel: nat, w: World, s: FrameId, nodes: seq<Node>, last: Value): (o: Out)
    requires WorldOk(w) && s < |w.env.frames| && ValueIn(last, |w.cells|)
    ensures Sound(w, {s}, o)
    decreases fuel
  {
    if fuel == 0 then Out(Err(OutOfFuel), w)
    else if nodes == [] then Out(Ok(last), w)
    else
      var o := Eval(fuel - 1, w, s, nodes[0]);
      if o.res.Err? then Out(Err(o.res.error), o.w)
      else if IsFalse(o.res.value) then Out(Ok(VBool(false)), o.w)
      else
        var r := AndSeq(fuel - 1, o.w, s, nodes[1..], o.res.value);
        GrowsTrans(w, o.w, r.w, {s}, {s}, {s});
        r
  }

  /** `or`: the arguments in order until one is not false; `false` when there are none or all are. */
  function OrSeq(fuel: nat, w: World, s: FrameId, nodes: seq<Node>, last: Value): (o: Out)
    requires WorldOk(w) && s < |w.env.frames| && ValueIn(last, |w.cells|)
    ensures Sound(w, {s}, o)
    decreases fuel
  {
    if fuel == 0 then Out(Err(OutOfFuel), w)
    else if nodes == [] then Out(Ok(last), w)
    else
      var o := Eval(fuel - 1, w, s, nodes[0]);
      if o.res.Err? then Out(Err(o.res.error), o.w)
      else if !IsFalse(o.res.value) then Out(Ok(o.res.value), o.w)
      else
        var r := OrSeq(fuel - 1, o.w, s, nodes[1..], o.res.value);
        GrowsTrans(w, o.w, r.w, {s}, {s}, {s});
        r
  }

  /** `if`: exactly three arguments; only `false` selects the third. */
  function IfForm(fuel: nat, w: World, s: FrameId, args: seq<Node>): (o: Out)
    requires WorldOk(w) && s < |w.env.frames|
    ensures Sound(w, {s}, o)
    decreases fuel
  {
    if fuel == 0 then Out(Err(OutOfFuel), w)
    else if |args| != 3 then Out(Err(Failure(Message("function \"if\" takes three arguments"))), w)
    else
      var c := Eval(fuel - 1, w, s, args[0]);
      if c.res.Err? then Out(Err(c.res.error), c.w)
      else
        var o := Eval(fuel - 1, c.w, s, if IsFalse(c.res.value) then args[2] else args[1]);
        GrowsTrans(w, c.w, o.w, {s}, {s}, {s});
        o
  }

  /** `when`: exactly two arguments; the body runs unless the test is `false`, which is the result then. */
  function WhenForm(fuel: nat, w: World, s: FrameId, args: seq<Node>): (o: Out)
    requires WorldOk(w) && s < |w.env.frames|
    ensures Sound(w, {s}, o)
    decreases fuel
  {
    if fuel == 0 then Out(Err(OutOfFuel), w)
    else if |args| != 2 then Out(Err(Failure(Message("function \"when\" takes two arguments"))), w)
    else
      var c := Eval(fuel - 1, w, s, args[0]);
      if c.res.Err? then Out(Err(c.res.error), c.w)
      else if IsFalse(c.res.value) then Out(Ok(VBool(false)), c.w)
      else
        var o := Eval(fuel - 1, c.w, s, args[1]);
        GrowsTrans(w, c.w, o.w, {s}, {s}, {s});
        o
  }

  /** `unless`: exactly two arguments; the body runs only when the test is `false`; otherwise `false`. */
  function UnlessForm(fuel: nat, w: World, s: FrameId, args: seq<Node>): (o: Out)
    requires WorldOk(w) && s < |w.env.frames|
    ensures Sound(w, {s}, o)
    decreases fuel
  {
    if fuel == 0 then Out(Err(OutOfFuel), w)
    else if |args| != 2 then Out(Err(Failure(Message("function \"unless\" takes two arguments"))), w)
    else
      var c := Eval(fuel - 1, w, s, args[0]);
      if c.res.Err? then Out(Err(c.res.error), c.w)
      else if !IsFalse(c.res.value) then Out(Ok(VBool(false)), c.w)
      else
        var o := Eval(fuel - 1, c.w, s, args[1]);
        GrowsTrans(w, c.w, o.w, {s}, {s}, {s});
        o
  }

  /** `var`: a symbol and an optional initial value (nil without one), created in the calling scope. */
  function VarForm(fuel: nat, w: World, s: FrameId, args: seq<Node>): (o: Out)
    requires WorldOk(w) && s < |w.env.frames|
    ensures Sound(w, {s}, o)
    decreases fuel
  {
    if fuel == 0 then Out(Err(OutOfFuel), w)
    else if |args| == 0 || |args| > 2 then Out(Err(Failure(Message("var takes one or two arguments"))), w)
    else if !args[0].Symbol? then Out(Err(Failure(Message("var takes a symbol as first argument"))), w)
    else
      var init := if |args| == 1 then Out(Ok(VNil), w) else Eval(fuel - 1, w, s, args[1]);
      if init.res.Err? then init
      else
        CreateIn(init.w, s, args[0].name, init.res.value);
        var c := CreateVar(init.w.env, s, args[0].name, init.res.value);
        var w2 := World(c.state, init.w.cells);
        GrowsTrans(w, init.w, w2, {s}, {s}, {s});
        Out(if c.err.Some? then Err(c.err.value) else Ok(VNil), w2)
  }

  /** `set`: a symbol and a value, assigned where the symbol is defined. */
  function SetForm(fuel: nat, w: World, s: FrameId, args: seq<Node>): (o: Out)
    requires WorldOk(w) && s < |w.env.frames|
    ensures Sound(w, {s}, o)
    decreases fuel
  {
    if fuel == 0 then Out(Err(OutOfFuel), w)
    else if |args| != 2 then Out(Err(Failure(Message("function \"set\" takes two arguments"))), w)
    else if !args[0].Symbol? then Out(Err(Failure(Message("function \"set\" takes a symbol as first argument"))), w)
    else
      var v := Eval(fuel - 1, w, s, args[1]);
      if v.res.Err? then v
      else
        SetIn(v.w, s, args[0].name, v.res.value);
        var c := SetVar(v.w.env, s, args[0].name, v.res.value);
        var w2 := World(c.state, v.w.cells);
        GrowsTrans(w, v.w, w2, {s}, {}, {s});
        Out(if c.err.Some? then Err(c.err.value) else Ok(VNil), w2)
  }

  /** `do`: the forms in a new branch of the calling scope, so no existing scope gains a symbol. */
  function DoForm(fuel: nat, w: World, s: FrameId, args: seq<Node>): (o: Out)
    requires WorldOk(w) && s < |w.env.frames|
    ensures Sound(w, {}, o)
    decreases fuel
  {
    if fuel == 0 then Out(Err(OutOfFuel), w)
    else
      BranchIn(w, s);
      var (e1, b) := NewBranch(w.env, s);
      var w1 := World(e1, w.cells);
      var o := EvalBody(fuel - 1, w1, b, args, VNil);
      GrowsTrans(w, w1, o.w, {}, {b}, {});
      o
  }

  predicate AllSymbols(nodes: seq<Node>)
  {
    forall i | 0 <= i < |nodes| :: nodes[i].Symbol?
  }

  function Names(nodes: seq<Node>): (r: seq<string>)
    requires AllSymbols(nodes)
    ensures |r| == |nodes| && forall i | 0 <= i < |nodes| :: r[i] == nodes[i].name
  {
    seq(|nodes|, i requires 0 <= i < |nodes| => nodes[i].name)
  }

  /**
   * `func`: an optional name, a list of parameter symbols and a non-empty
   * body make a closure over the calling scope, held in a new cell; a named
   * closure is also created in the calling scope.
   */
  function FuncForm(w: World, s: FrameId, args: seq<Node>): (o: Out)
    requires WorldOk(w) && s < |w.env.frames|
    ensures Sound(w, {s}, o)
  {
    if |args| < 2 then Out(Err(Failure(Message("func takes three or more arguments"))), w)
    else
      var name := if args[0].Symbol? then args[0].name else "";
      var i := if args[0].Symbol? then 1 else 0;
      if !args[i].List? then Out(Err(Failure(Message("func takes a list of parameters"))), w)
      else if !AllSymbols(args[i].nodes) then
        Out(Err(Failure(Message("func's list of parameters must be a list of symbols"))), w)
      else if args[i + 1..] == [] then Out(Err(Failure(Message("func takes a body sequence"))), w)
      else
        var fnv := VFunc(Closure(name, Names(args[i].nodes), args[i + 1..], |w.cells|));
        NewCellIn(w, s);
        var w1 := World(w.env, w.cells + [s]);
        if name == "" then Out(Ok(fnv), w1)
        else
          CreateIn(w1, s, name, fnv);
          var c := CreateVar(w1.env, s, name, fnv);
          GrowsTrans(w, w1, World(c.state, w1.cells), {}, {s}, {s});
          if c.err.Some? then Out(Err(c.err.value), w) else Out(Ok(fnv), World(c.state, w1.cells))
  }

  /** `for`: init, test, step and at least one body form, all in a new branch of the calling scope. */
  function ForForm(fuel: nat, w: World, s: FrameId, args: seq<Node>): (o: Out)
    requires WorldOk(w) && s < |w.env.frames|
    ensures Sound(w, {}, o)
    decreases fuel
  {
    if fuel == 0 then Out(Err(OutOfFuel), w)
    else if |args| < 4 then Out(Err(Failure(Message("for takes four or more arguments"))), w)
    else
      BranchIn(w, s);
      var (e1, b) := NewBranch(w.env, s);
      var w1 := World(e1, w.cells);
      var init := Eval(fuel - 1, w1, b, args[0]);
      GrowsTrans(w, w1, init.w, {}, {b}, {});
      if init.res.Err? then Out(Err(init.res.error), init.w)
      else
        var o := ForLoop(fuel - 1, init.w, b, args[1], args[2], args[3..], VNil);
        GrowsTrans(w, init.w, o.w, {}, {b}, {});
        o
  }

  /** `for`'s loop: stop with the last body value when the test is `false`; else run the body and the step. */
  function ForLoop(fuel: nat, w: World, b: FrameId, test: Node, step: Node, code: seq<Node>, value: Value): (o: Out)
    requires WorldOk(w) && b < |w.env.frames| && ValueIn(value, |w.cells|)
    ensures Sound(w, {b}, o)
    decreases fuel
  {
    if fuel == 0 then Out(Err(OutOfFuel), w)
    else
      var t := Eval(fuel - 1, w, b, test);
      if t.res.Err? then Out(Err(t.res.error), t.w)
      else if IsFalse(t.res.value) then Out(Ok(value), t.w)
      else
        var c := EvalBody(fuel - 1, t.w, b, code, value);
        GrowsTrans(w, t.w, c.w, {b}, {b}, {b});
        if c.res.Err? then c
        else
          var st := Eval(fuel - 1, c.w, b, step);
          GrowsTrans(w, c.w, st.w, {b}, {b}, {b});
          if st.res.Err? then Out(Err(st.res.error), st.w)
          else
            var o := ForLoop(fuel - 1, st.w, b, test, step, code, c.res.value);
            GrowsTrans(w, st.w, o.w, {b}, {b}, {b});
            o
  }

  /** `range`'s first argument: an index symbol, or a list of an index and an element symbol. */
  function RangeNames(n: Node): (string, string)
  {
    if n.Symbol? then (n.name, "")
    else if n.List? && |n.nodes| == 2 && n.nodes[0].Symbol? && n.nodes[1].Symbol? then (n.nodes[0].name, n.nodes[1].name)
    else ("", "")
  }

  /** `Create`, with its error ignored as `range` ignores it. */
  function CreateQuietly(w: World, s: FrameId, name: string, v: Value): (w': World)
    requires WorldOk(w) && s < |w.env.frames| && ValueIn(v, |w.cells|)
    ensures WorldOk(w') && Grows(w, w', {s}) && w'.cells == w.cells && |w'.env.frames| == |w.env.frames|
  {
    CreateIn(w, s, name, v);
    World(CreateVar(w.env, s, name, v).state, w.cells)
  }

  /**
   * `range`: an index name (and element name), a collection and at least
   * one body form. Over an int64 `n` the body runs with the index set to
   * 0 .. n-1; over a list with the index and element of each item; with no
   * iteration the result is the collection itself.
   */
  function RangeForm(fuel: nat, w: World, s: FrameId, args: seq<Node>): (o: Out)
    requires WorldOk(w) && s < |w.env.frames|
    ensures Sound(w, {}, o)
    decreases fuel, 1
  {
    if fuel == 0 then Out(Err(OutOfFuel), w)
    else if |args| < 3 then Out(Err(Failure(Message("range takes three or more arguments"))), w)
    else
      var (iname, ename) := RangeNames(args[0]);
      if iname == "" then Out(Err(Failure(Message("range takes var name or (i elem) var name pair as first argument"))), w)
      else
        BranchIn(w, s);
        var (e1, b) := NewBranch(w.env, s);
        var w1 := World(e1, w.cells);
        var coll := Eval(fuel - 1, w1, b, args[1]);
        GrowsTrans(w, w1, coll.w, {}, {b}, {});
        if coll.res.Err? then Out(Err(coll.res.error), coll.w)
        else
          var o := RangeOver(fuel, coll.w, b, iname, ename, coll.res.value, args[2..]);
          GrowsTrans(w, coll.w, o.w, {}, {b}, {});
          o
  }

  /** `range` once the collection is known: loop over an int64 or a list; anything else is an error. */
  function RangeOver(fuel: nat, w: World, b: FrameId, iname: string, ename: string, coll: Value, code: seq<Node>): (o: Out)
    requires WorldOk(w) && b < |w.env.frames| && ValueIn(coll, |w.cells|) && fuel > 0
    ensures Sound(w, {b}, o)
    decreases fuel, 0
  {
    match coll
    case VInt64(n) =>
      var w2 := CreateQuietly(w, b, iname, VInt(0));
      var o := RangeInt(fuel - 1, w2, b, iname, 0, n, code, coll);
      GrowsTrans(w, w2, o.w, {b}, {b}, {b});
      o
    case VList(items) =>
      var w2 := CreateQuietly(w, b, iname, VInt(0));
      var w3 := CreateQuietly(w2, b, ename, VNil);
      ListIn(items, |w3.cells|);
      var o := RangeList(fuel - 1, w3, b, iname, ename, items, 0, code, coll);
      GrowsTrans(w, w2, w3, {b}, {b}, {b});
      GrowsTrans(w, w3, o.w, {b}, {b}, {b});
      o
    case _ => Out(Err(Failure(Message("range takes an integer or a list as second argument"))), w)
  }

  /**
   * `Set` with its error ignored, as `range` ignores it; a panic, which Go
   * cannot ignore, still ends the evaluation.
   */
  function SetQuietly(w: World, s: FrameId, name: string, v: Value): (r: Written<World>)
    requires WorldOk(w) && s < |w.env.frames| && ValueIn(v, |w.cells|)
    ensures WorldOk(r.state) && Grows(w, r.state, {}) && r.state.cells == w.cells
    ensures r.err.Some? ==> r.err.value.Panic?
  {
    SetIn(w, s, name, v);
    var c := SetVar(w.env, s, name, v);
    Written(World(c.state, w.cells), if c.err.Some? && c.err.value.Panic? then c.err else None)
  }

  /** `range`'s loop over the integers `i` .. `n`-1. */
  function RangeInt(fuel: nat, w: World, b: FrameId, iname: string, i: nat, n: Int64, code: seq<Node>, value: Value): (o: Out)
    requires WorldOk(w) && b < |w.env.frames| && ValueIn(value, |w.cells|)
    ensures Sound(w, {b}, o)
    decreases fuel, 1
  {
    if fuel == 0 then Out(Err(OutOfFuel), w)
    else if i >= n then Out(Ok(value), w)
    else RangeIntNext(fuel, w, b, iname, i, n, code, value)
  }

  /** One iteration over the integers: set the index to `i`, run the body, go on with `i`+1. */
  function RangeIntNext(fuel: nat, w: World, b: FrameId, iname: string, i: nat, n: Int64, code: seq<Node>, value: Value): (o: Out)
    requires WorldOk(w) && b < |w.env.frames| && ValueIn(value, |w.cells|) && fuel > 0 && i < n
    ensures Sound(w, {b}, o)
    decreases fuel, 0
  {
    var w1 := SetQuietly(w, b, iname, VInt64(i));
    if w1.err.Some? then Out(Err(w1.err.value), w1.state)
    else
      var c := EvalBody(fuel - 1, w1.state, b, code, value);
      GrowsTrans(w, w1.state, c.w, {}, {b}, {b});
      if c.res.Err? then c
      else
        var o := RangeInt(fuel - 1, c.w, b, iname, i + 1, n, code, c.res.value);
        GrowsTrans(w, c.w, o.w, {b}, {b}, {b});
        o
  }

  /** `range`'s loop over the items of a list from position `i`. */
  function RangeList(fuel: nat, w: World, b: FrameId, iname: string, ename: string, items: seq<Value>, i: nat,
                     code: seq<Node>, value: Value): (o: Out)
    requires WorldOk(w) && b < |w.env.frames| && ValueIn(value, |w.cells|) && ValuesIn(items, |w.cells|)
    ensures Sound(w, {b}, o)
    decreases fuel, 1
  {
    if fuel == 0 then Out(Err(OutOfFuel), w)
    else if i >= |items| then Out(Ok(value), w)
    else RangeListNext(fuel, w, b, iname, ename, items, i, code, value)
  }

  /** One iteration over a list: set the index and the element of item `i`, run the body, go on with the next item. */
  function RangeListNext(fuel: nat, w: World, b: FrameId, iname: string, ename: string, items: seq<Value>, i: nat,
                         code: seq<Node>, value: Value): (o: Out)
    requires WorldOk(w) && b < |w.env.frames| && ValueIn(value, |w.cells|) && ValuesIn(items, |w.cells|)
    requires fuel > 0 && i < |items|
    ensures Sound(w, {b}, o)
    decreases fuel, 0
  {
    var w1 := SetQuietly(w, b, iname, VInt(i));
    if w1.err.Some? then Out(Err(w1.err.value), w1.state)
    else
      var w2 := SetQuietly(w1.state, b, ename, items[i]);
      GrowsTrans(w, w1.state, w2.state, {}, {}, {});
      if w2.err.Some? then Out(Err(w2.err.value), w2.state)
      else
        var c := EvalBody(fuel - 1, w2.state, b, code, value);
        GrowsTrans(w, w2.state, c.w, {}, {b}, {b});
        if c.res.Err? then c
        else
          var o := RangeList(fuel - 1, c.w, b, iname, ename, items, i + 1, code, c.res.value);
          GrowsTrans(w, c.w, o.w, {b}, {b}, {b});
          o
  }

  /** `Eval`'s loop over a program's top-level forms. */
  method EvalRoot(fuel: nat, w: World, s: FrameId, nodes: seq<Node>) returns (o: Out)
    requires WorldOk(w) && s < |w.env.frames|
    ensures o == RootSeq(fuel, w, s, nodes, VNil)
  {
    var f, cur, value, i := fuel, w, VNil, 0;
    while i < |nodes| && f > 0
      invariant 0 <= i <= |nodes|
      invariant WorldOk(cur) && s < |cur.env.frames| && ValueIn(value, |cur.cells|)
      invariant RootSeq(f, cur, s, nodes[i..], value) == RootSeq(fuel, w, s, nodes, VNil)
      decreases |nodes| - i
    {
      var r := Eval(f - 1, cur, s, nodes[i]);
      if r.res.Err? {
        return Out(Err(ErrorAt(nodes[i].pos, r.res.error)), r.w);
      }
      assert nodes[i..][1..] == nodes[i + 1..];
      f, cur, value, i := f - 1, r.w, r.res.value, i + 1;
    }
    if f == 0 {
      return Out(Err(OutOfFuel), cur);
    }
    return Out(Ok(value), cur);
  }

  /** `call`'s loop for a plain function: each argument evaluated into its slot, in order. */
  method CallArgs(fuel: nat, w: World, s: FrameId, nodes: seq<Node>) returns (o: OutArgs)
    requires WorldOk(w) && s < |w.env.frames|
    ensures o == EvalArgs(fuel, w, s, nodes, [])
  {
    var vargs := new Value[|nodes|](_ => VNil);
    var f, cur, i := fuel, w, 0;
    while i < |nodes| && f > 0
      invariant 0 <= i <= |nodes| == vargs.Length
      invariant WorldOk(cur) && s < |cur.env.frames| && ValuesIn(vargs[..i], |cur.cells|)
      invariant EvalArgs(f, cur, s, nodes[i..], vargs[..i]) == EvalArgs(fuel, w, s, nodes, [])
      decreases |nodes| - i
    {
      var r := Eval(f - 1, cur, s, nodes[i]);
      if r.res.Err? {
        return OutArgs(Err(r.res.error), r.w);
      }
      assert nodes[i..][1..] == nodes[i + 1..];
      ghost var done := vargs[..i];
      vargs[i] := r.res.value;
      assert vargs[..i + 1] == done + [r.res.value];
      f, cur, i := f - 1, r.w, i + 1;
    }
    if f == 0 {
      return OutArgs(Err(OutOfFuel), cur);
    }
    assert vargs[..i] == vargs[..];
    return OutArgs(Ok(vargs[..]), cur);
  }

  /** `Eval` as a rule runs it: the top-level loop for a program, the recursive evaluator otherwise. */
  method EvalProgram(fuel: nat, w: World, s: FrameId, node: Node) returns (o: Out)
    requires WorldOk(w) && s < |w.env.frames|
    ensures o == Eval(fuel, w, s, node)
    ensures WorldOk(o.w) && |w.env.frames| <= |o.w.env.frames|
  {
    if fuel > 0 && node.Root? {
      o := EvalRoot(fuel - 1, w, s, node.nodes);
    } else {
      o := Eval(fuel, w, s, node);
    }
  }
}
