/**
 * The interpreter's environments. Every `DefaultScope` object is a frame in
 * an arena and is named by its index there; a frame holds its own variables
 * and a link to its parent, which is another frame, nothing, or the rule
 * engine's global scope (which answers from the variable manager).
 */
module Scope {
  import opened Values
  import opened Variables

  type FrameId = nat

  /** A scope's parent: none, another default scope, or the manager-backed global scope. */
  datatype Link = NoParent | Parent(id: FrameId) | Global

  datatype Frame = Frame(parent: Link, vars: map<string, Value>)

  /** All scopes and the variable manager's state. */
  datatype Env = Env(frames: seq<Frame>, vars: Vars)

  /** A parent is always an older frame, so every chain of parents ends. */
  predicate Linked(frames: seq<Frame>)
  {
    forall id | 0 <= id < |frames| && frames[id].parent.Parent? :: frames[id].parent.id < id
  }

  /** `Get`: the value in the shallowest scope that defines the symbol. */
  function GetVar(e: Env, s: FrameId, name: string): Result<Value>
    requires Linked(e.frames) && s < |e.frames|
    decreases s
  {
    var f := e.frames[s];
    if name in f.vars then Ok(f.vars[name])
    else match f.parent
      case Parent(p) => GetVar(e, p, name)
      case Global => Lookup(e.vars, name)
      case NoParent => Err(Failure(UndefinedSymbol(name)))
  }

  /** `Create`: bind a new symbol in this scope; a symbol already bound here is an error. */
  function CreateVar(e: Env, s: FrameId, name: string, v: Value): Written<Env>
    requires s < |e.frames|
  {
    var f := e.frames[s];
    if name in f.vars then Written(e, Some(Failure(AlreadyDefined(name))))
    else Written(e.(frames := e.frames[s := f.(vars := f.vars[name := v])]), None)
  }

  /**
   * `Set`: overwrite the symbol in the shallowest scope that defines it; past
   * the last default scope the global scope hands it to the variable manager.
   * No scope gains or loses a symbol, and no scope changes its parent.
   */
  function SetVar(e: Env, s: FrameId, name: string, v: Value): (r: Written<Env>)
    requires Linked(e.frames) && s < |e.frames|
    ensures |r.state.frames| == |e.frames|
    ensures forall id | 0 <= id < |e.frames| ::
      r.state.frames[id].parent == e.frames[id].parent && r.state.frames[id].vars.Keys == e.frames[id].vars.Keys
    ensures r.state.vars == e.vars || r.state.vars == Assign(e.vars, name, v).state
    ensures forall id, n | 0 <= id < |e.frames| && n in r.state.frames[id].vars ::
      r.state.frames[id].vars[n] == v || r.state.frames[id].vars[n] == e.frames[id].vars[n]
    decreases s
  {
    var f := e.frames[s];
    if name in f.vars then Written(e.(frames := e.frames[s := f.(vars := f.vars[name := v])]), None)
    else match f.parent
      case Parent(p) => SetVar(e, p, name, v)
      case Global =>
        var w := Assign(e.vars, name, v);
        Written(e.(vars := w.state), w.err)
      case NoParent => Written(e, Some(Failure(CannotSetUndefined(name))))
  }

  /** `Branch`: a new, empty scope whose parent is `s`. */
  function NewBranch(e: Env, s: FrameId): (r: (Env, FrameId))
    requires s < |e.frames|
  {
    (e.(frames := e.frames + [Frame(Parent(s), map[])]), |e.frames|)
  }

  /** `Enclose`: give scope `s` a new parent, which must keep every chain finite. */
  function Reparent(e: Env, s: FrameId, link: Link): (r: Env)
    requires s < |e.frames|
    requires link.Parent? ==> link.id < s
  {
    e.(frames := e.frames[s := e.frames[s].(parent := link)])
  }

  /** The scopes `Get` and `Set` visit from `s`, innermost first. */
  function Chain(e: Env, s: FrameId): (r: seq<FrameId>)
    requires Linked(e.frames) && s < |e.frames|
    ensures |r| >= 1 && r[0] == s
    ensures forall k | 0 <= k < |r| :: r[k] < |e.frames|
    decreases s
  {
    match e.frames[s].parent
    case Parent(p) => [s] + Chain(e, p)
    case _ => [s]
  }

  /** Where the chain from `s` ends: at no parent, or at the global scope. */
  function ChainEnd(e: Env, s: FrameId): (r: Link)
    requires Linked(e.frames) && s < |e.frames|
    ensures !r.Parent?
    decreases s
  {
    match e.frames[s].parent
    case Parent(p) => ChainEnd(e, p)
    case l => l
  }

  /** No scope of the chain before position `k` defines `name`. */
  predicate UndefinedBefore(e: Env, ch: seq<FrameId>, k: nat, name: string)
    requires k <= |ch| && forall j | 0 <= j < |ch| :: ch[j] < |e.frames|
  {
    forall j | 0 <= j < k :: name !in e.frames[ch[j]].vars
  }

  /** `Get` answers from the first scope of the chain that defines the symbol. */
  lemma {:induction false} GetFindsShallowest(e: Env, s: FrameId, name: string, k: nat)
    requires Linked(e.frames) && s < |e.frames|
    requires k < |Chain(e, s)| && name in e.frames[Chain(e, s)[k]].vars
    requires UndefinedBefore(e, Chain(e, s), k, name)
    ensures GetVar(e, s, name) == Ok(e.frames[Chain(e, s)[k]].vars[name])
    decreases s
  {
    var ch := Chain(e, s);
    if k > 0 {
      assert name !in e.frames[ch[0]].vars;
      var p := e.frames[s].parent.id;
      assert ch[1..] == Chain(e, p);
      GetFindsShallowest(e, p, name, k - 1);
    }
  }

  /**
   * A symbol no scope of the chain defines is the global scope's to answer,
   * or undefined when the chain does not end there.
   */
  lemma {:induction false} GetPastChain(e: Env, s: FrameId, name: string)
    requires Linked(e.frames) && s < |e.frames|
    requires UndefinedBefore(e, Chain(e, s), |Chain(e, s)|, name)
    ensures GetVar(e, s, name) == if ChainEnd(e, s) == Global then Lookup(e.vars, name) else Err(Failure(UndefinedSymbol(name)))
    decreases s
  {
    var ch := Chain(e, s);
    assert name !in e.frames[ch[0]].vars;
    if e.frames[s].parent.Parent? {
      var p := e.frames[s].parent.id;
      assert ch[1..] == Chain(e, p);
      GetPastChain(e, p, name);
    }
  }

  /** `Set` overwrites the symbol in the first scope of the chain that defines it, and nowhere else. */
  lemma {:induction false} SetChangesShallowest(e: Env, s: FrameId, name: string, v: Value, k: nat)
    requires Linked(e.frames) && s < |e.frames|
    requires k < |Chain(e, s)| && name in e.frames[Chain(e, s)[k]].vars
    requires UndefinedBefore(e, Chain(e, s), k, name)
    ensures var o := Chain(e, s)[k];
      SetVar(e, s, name, v) == Written(e.(frames := e.frames[o := e.frames[o].(vars := e.frames[o].vars[name := v])]), None)
    decreases s
  {
    var ch := Chain(e, s);
    if k > 0 {
      assert name !in e.frames[ch[0]].vars;
      var p := e.frames[s].parent.id;
      assert ch[1..] == Chain(e, p);
      SetChangesShallowest(e, p, name, v, k - 1);
    }
  }

  /** A symbol no scope of the chain defines goes to the variable manager, or cannot be set. */
  lemma {:induction false} SetPastChain(e: Env, s: FrameId, name: string, v: Value)
    requires Linked(e.frames) && s < |e.frames|
    requires UndefinedBefore(e, Chain(e, s), |Chain(e, s)|, name)
    ensures ChainEnd(e, s) == Global ==>
      SetVar(e, s, name, v) == Written(e.(vars := Assign(e.vars, name, v).state), Assign(e.vars, name, v).err)
    ensures ChainEnd(e, s) == NoParent ==>
      SetVar(e, s, name, v) == Written(e, Some(Failure(CannotSetUndefined(name))))
    decreases s
  {
    var ch := Chain(e, s);
    assert name !in e.frames[ch[0]].vars;
    if e.frames[s].parent.Parent? {
      var p := e.frames[s].parent.id;
      assert ch[1..] == Chain(e, p);
      SetPastChain(e, p, name, v);
    }
  }

  /** `Create` succeeds exactly when the scope does not bind the symbol yet; a `Get` then returns the value. */
  lemma CreateThenGet(e: Env, s: FrameId, name: string, v: Value)
    requires Linked(e.frames) && s < |e.frames|
    ensures CreateVar(e, s, name, v).err.None? <==> name !in e.frames[s].vars
    ensures CreateVar(e, s, name, v).err.Some? ==> CreateVar(e, s, name, v) == Written(e, Some(Failure(AlreadyDefined(name))))
    ensures CreateVar(e, s, name, v).err.None? ==> GetVar(CreateVar(e, s, name, v).state, s, name) == Ok(v)
  {
  }

  /** `Create` touches only the symbol it binds, in the scope it binds it in. */
  lemma CreateLeavesOthers(e: Env, s: FrameId, name: string, v: Value)
    requires s < |e.frames|
    ensures var e' := CreateVar(e, s, name, v).state;
      |e'.frames| == |e.frames| && e'.vars == e.vars
      && (forall id | 0 <= id < |e.frames| && id != s :: e'.frames[id] == e.frames[id])
      && e'.frames[s].parent == e.frames[s].parent
      && (forall n | n in e.frames[s].vars :: n in e'.frames[s].vars && e'.frames[s].vars[n] == e.frames[s].vars[n])
      && e'.frames[s].vars.Keys <= e.frames[s].vars.Keys + {name}
  {
  }

  /** Scopes added after `s` do not change what `Get` finds from `s`. */
  lemma {:induction false} GetIgnoresNewFrames(e: Env, more: seq<Frame>, s: FrameId, name: string)
    requires Linked(e.frames) && Linked(e.frames + more) && s < |e.frames|
    ensures GetVar(e.(frames := e.frames + more), s, name) == GetVar(e, s, name)
    decreases s
  {
    var e' := e.(frames := e.frames + more);
    assert e'.frames[s] == e.frames[s];
    if name !in e.frames[s].vars && e.frames[s].parent.Parent? {
      GetIgnoresNewFrames(e, more, e.frames[s].parent.id, name);
    }
  }

  /**
   * A new branch sees its parent's bindings; a symbol created in the branch
   * shadows the parent's and leaves the parent's scope as it was.
   */
  lemma {:induction false} BranchShadows(e: Env, s: FrameId, name: string, v: Value, other: string)
    requires Linked(e.frames) && s < |e.frames|
    ensures var (e1, c) := NewBranch(e, s);
      Linked(e1.frames) && c < |e1.frames| && c != s
      && GetVar(e1, c, other) == GetVar(e, s, other)
      && var w := CreateVar(e1, c, name, v);
        w.err.None? && GetVar(w.state, c, name) == Ok(v)
        && w.state.frames[s] == e.frames[s]
        && GetVar(w.state, s, other) == GetVar(e, s, other)
  {
    var (e1, c) := NewBranch(e, s);
    assert e1.frames[c] == Frame(Parent(s), map[]);
    GetIgnoresNewFrames(e, [Frame(Parent(s), map[])], s, other);
    var w := CreateVar(e1, c, name, v);
    assert w.state.frames == e.frames + [Frame(Parent(s), map[name := v])];
    GetIgnoresNewFrames(e, [Frame(Parent(s), map[name := v])], s, other);
  }

  /** The builtin table, in the order `NewDefaultScope` installs it. */
  const Globals: seq<(string, Value)> := [
    ("true", VBool(true)), ("false", VBool(false)), ("nil", VNil),
    ("error", VFunc(Builtin(ErrorFn))), ("==", VFunc(Builtin(EqFn))), ("!=", VFunc(Builtin(NeFn))),
    ("+", VFunc(Builtin(PlusFn))), ("-", VFunc(Builtin(MinusFn))), ("*", VFunc(Builtin(MulFn))),
    ("/", VFunc(Builtin(DivFn))), (">", VFunc(Builtin(GtFn))), (">=", VFunc(Builtin(GteFn))),
    ("<", VFunc(Builtin(LtFn))), ("<=", VFunc(Builtin(LteFn))), ("or", VFunc(Builtin(OrFn))),
    ("and", VFunc(Builtin(AndFn))), ("if", VFunc(Builtin(IfFn))), ("when", VFunc(Builtin(WhenFn))),
    ("unless", VFunc(Builtin(UnlessFn))), ("var", VFunc(Builtin(VarFn))), ("set", VFunc(Builtin(SetFn))),
    ("do", VFunc(Builtin(DoFn))), ("func", VFunc(Builtin(FuncFn))), ("for", VFunc(Builtin(ForFn))),
    ("range", VFunc(Builtin(RangeFn))), ("split", VFunc(Builtin(SplitFn))), ("nth", VFunc(Builtin(NthFn))),
    ("length", VFunc(Builtin(LengthFn)))
  ]

  /** The map a table's entries make when written in order, later entries winning. */
  function TableMap(t: seq<(string, Value)>): map<string, Value>
  {
    if t == [] then map[] else TableMap(t[..|t| - 1])[t[|t| - 1].0 := t[|t| - 1].1]
  }

  /** The names a table's map binds are exactly the names of its entries. */
  lemma {:induction false} TableMapKeys(t: seq<(string, Value)>)
    ensures forall i | 0 <= i < |t| :: t[i].0 in TableMap(t)
    ensures forall n | n in TableMap(t) :: exists i | 0 <= i < |t| :: t[i].0 == n
  {
    if t != [] {
      var init := t[..|t| - 1];
      TableMapKeys(init);
      forall i | 0 <= i < |t| - 1 ensures t[i].0 in TableMap(t) {
        assert init[i] == t[i];
      }
      forall n | n in TableMap(t) ensures exists i | 0 <= i < |t| :: t[i].0 == n {
        if n != t[|t| - 1].0 {
          assert TableMap(t) == TableMap(init)[t[|t| - 1].0 := t[|t| - 1].1];
          assert n in TableMap(init);
          var i :| 0 <= i < |init| && init[i].0 == n;
          assert t[i] == init[i];
        }
      }
    }
  }

  /** The default scope binds every name of the builtin table, and `run` is left free. */
  /** A name is bound to the value of its last entry in the table. */
  lemma {:induction false} TableMapLastWins(t: seq<(string, Value)>)
    ensures forall i | 0 <= i < |t| && (forall j | i < j < |t| :: t[j].0 != t[i].0) ::
      t[i].0 in TableMap(t) && TableMap(t)[t[i].0] == t[i].1
  {
    if t != [] {
      var init := t[..|t| - 1];
      TableMapLastWins(init);
      forall i | 0 <= i < |t| && (forall j | i < j < |t| :: t[j].0 != t[i].0)
        ensures t[i].0 in TableMap(t) && TableMap(t)[t[i].0] == t[i].1
      {
        if i < |t| - 1 {
          assert init[i] == t[i];
          forall j | i < j < |init| ensures init[j].0 != init[i].0 {
            assert init[j] == t[j];
          }
        }
      }
    }
  }

  lemma GlobalsInstalled()
    ensures forall i | 0 <= i < |Globals| :: Globals[i].0 in TableMap(Globals)
    ensures "run" !in TableMap(Globals)
  {
    TableMapKeys(Globals);
  }

  /** The default scopes of one rule: frames updated in place, over the shared variable manager. */
  class Scopes {
    var frames: seq<Frame>
    const manager: VariableManager

    function State(): Env
      reads this, manager, manager.store
    {
      Env(frames, manager.State())
    }

    predicate Valid()
      reads this
    {
      Linked(frames)
    }

    constructor (manager: VariableManager)
      ensures this.manager == manager && frames == [] && Valid()
    {
      this.manager := manager;
      frames := [];
    }

    /** `NewDefaultScope`: a parentless scope holding the builtin table. */
    method NewDefaultScope() returns (s: FrameId)
      requires Valid()
      modifies this
      ensures Valid() && s == |old(frames)|
      ensures frames == old(frames) + [Frame(NoParent, TableMap(Globals))]
    {
      var vars: map<string, Value> := map[];
      var i := 0;
      while i < |Globals|
        invariant 0 <= i <= |Globals|
        invariant vars == TableMap(Globals[..i])
      {
        assert Globals[..i + 1][..i] == Globals[..i];
        vars := vars[Globals[i].0 := Globals[i].1];
        i := i + 1;
      }
      assert Globals[..i] == Globals;
      s := |frames|;
      frames := frames + [Frame(NoParent, vars)];
    }

    method Create(s: FrameId, name: string, v: Value) returns (err: Option<Error>)
      requires s < |frames|
      modifies this
      ensures Written(State(), err) == CreateVar(old(State()), s, name, v)
    {
      if name in frames[s].vars {
        return Some(Failure(AlreadyDefined(name)));
      }
      frames := frames[s := frames[s].(vars := frames[s].vars[name := v])];
      return None;
    }

    /** `Set`, recursing up the parents as the Go method does. */
    method Set(s: FrameId, name: string, v: Value) returns (err: Option<Error>)
      requires Valid() && s < |frames|
      modifies this, manager, manager.store
      ensures Valid()
      ensures Written(State(), err) == SetVar(old(State()), s, name, v)
      decreases s
    {
      if name in frames[s].vars {
        frames := frames[s := frames[s].(vars := frames[s].vars[name := v])];
        return None;
      }
      match frames[s].parent
      case Parent(p) =>
        err := Set(p, name, v);
      case Global =>
        err := manager.Set(name, v);
      case NoParent =>
        err := Some(Failure(CannotSetUndefined(name)));
    }

    method Branch(s: FrameId) returns (child: FrameId)
      requires Valid() && s < |frames|
      modifies this
      ensures Valid()
      ensures (State(), child) == NewBranch(old(State()), s)
    {
      child := |frames|;
      frames := frames + [Frame(Parent(s), map[])];
    }

    method Enclose(s: FrameId, link: Link) returns (err: Option<Error>)
      requires Valid() && s < |frames|
      requires link.Parent? ==> link.id < s
      modifies this
      ensures Valid() && err.None?
      ensures State() == Reparent(old(State()), s, link)
    {
      frames := frames[s := frames[s].(parent := link)];
      return None;
    }
  }
}
