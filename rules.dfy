/**
 * A gifttt rule: a parsed twik program and the scope it runs in. The rule's
 * root scope holds the builtin table and `run`, and its parent is the global
 * scope, which hands every symbol the program does not declare to the
 * variable manager, so such symbols are the persistent, store-backed
 * variables shared by all rules.
 */
module Rules {
  import opened Values
  import opened Variables
  import opened Scope
  import opened Eval

  /** The bindings of the root scope of a rule: the builtin table plus `run`. */
  function RootVars(): map<string, Value>
  {
    TableMap(Globals)[RunName := VFunc(RunCommand)]
  }

  const RunName: string := "run"

  /** The frames a new global scope consists of: one root scope enclosed by the global scope. */
  function GlobalFrames(): (r: seq<Frame>)
    ensures |r| == 1 && r[0].parent == Global && Linked(r)
  {
    [Frame(Global, RootVars())]
  }

  /** No value of a table refers to a closure cell. */
  lemma {:induction false} TableMapHasNoCells(t: seq<(string, Value)>)
    requires forall i | 0 <= i < |t| :: Cells(t[i].1) == {}
    ensures forall n | n in TableMap(t) :: Cells(TableMap(t)[n]) == {}
  {
    if t != [] {
      TableMapHasNoCells(t[..|t| - 1]);
    }
  }

  /**
   * The root scope holds every builtin under its name and `run`; a symbol the
   * root scope does not bind is looked up in, and assigned through, the
   * variable manager, and nothing in the root scope refers to a closure.
   */
  lemma GlobalScopeDelegates(vars: Vars, name: string, v: Value)
    ensures forall i | 0 <= i < |Globals| :: Globals[i].0 in RootVars()
    ensures RunName in RootVars() && RootVars()[RunName] == VFunc(RunCommand)
    ensures forall n | n in RootVars() :: Cells(RootVars()[n]) == {}
    ensures var e := Env(GlobalFrames(), vars);
      name !in RootVars() ==>
        GetVar(e, 0, name) == Lookup(vars, name)
        && SetVar(e, 0, name, v) == Written(e.(vars := Assign(vars, name, v).state), Assign(vars, name, v).err)
    ensures var e := Env(GlobalFrames(), vars);
      name in RootVars() ==>
        GetVar(e, 0, name) == Ok(RootVars()[name])
        && SetVar(e, 0, name, v) == Written(Env([Frame(Global, RootVars()[name := v])], vars), None)
  {
    GlobalsInstalled();
    assert forall i | 0 <= i < |Globals| :: Cells(Globals[i].1) == {};
    TableMapHasNoCells(Globals);
    var f := Frame(Global, RootVars());
    assert [f][0 := f.(vars := RootVars()[name := v])] == [Frame(Global, RootVars()[name := v])];
  }

  /**
   * `NewGlobalScope`: a default scope with the builtin table, enclosed by the
   * global scope, with `run` created in it (its error ignored, as in Go).
   */
  method NewGlobalScope(manager: VariableManager) returns (scopes: Scopes, root: FrameId)
    ensures fresh(scopes) && scopes.manager == manager
    ensures scopes.Valid() && scopes.frames == GlobalFrames() && root == 0
  {
    scopes := new Scopes(manager);
    root := scopes.NewDefaultScope();
    var _ := scopes.Enclose(root, Global);
    GlobalsInstalled();
    var _ := scopes.Create(root, RunName, VFunc(RunCommand));
  }

  /** A rule: its name, its program, and the interpreter state it keeps between runs. */
  class Rule {
    const name: string
    const program: Node
    const scopes: Scopes
    const root: FrameId
    /** The cells of the closures the program has made so far. */
    var cells: seq<FrameId>

    function State(): World
      reads this, scopes, scopes.manager, scopes.manager.store
    {
      World(scopes.State(), cells)
    }

    predicate Valid()
      reads this, scopes, scopes.manager, scopes.manager.store
    {
      root < |scopes.frames| && scopes.Valid() && WorldOk(State())
    }

    /**
     * `NewRule` for a program already parsed: a fresh global scope over the
     * variable manager, which holds only data.
     */
    constructor (name: string, program: Node, manager: VariableManager)
      requires VarsOk(manager.State())
      ensures this.name == name && this.program == program && scopes.manager == manager
      ensures Valid() && scopes.frames == GlobalFrames() && root == 0 && cells == []
    {
      this.name := name;
      this.program := program;
      var s, r := NewGlobalScope(manager);
      scopes := s;
      root := r;
      cells := [];
      new;
      GlobalScopeDelegates(manager.State(), "", VNil);
    }

    /**
     * `Run`: evaluate the program in the root scope. The scopes, the closure
     * cells, the manager's cache and the store become what evaluation left,
     * and the error is the evaluation's error.
     */
    method Run(fuel: nat) returns (err: Option<Error>)
      requires Valid()
      modifies this, scopes, scopes.manager, scopes.manager.store
      ensures Valid()
      ensures var o := Eval.Eval(fuel, old(State()), root, program);
        State() == o.w && err == (if o.res.Err? then Some(o.res.error) else None)
      ensures |old(scopes.frames)| <= |scopes.frames|
    {
      var o := EvalProgram(fuel, State(), root, program);
      scopes.frames := o.w.env.frames;
      scopes.manager.cache := o.w.env.vars.cache;
      scopes.manager.store.data := o.w.env.vars.store.data;
      scopes.manager.store.failing := o.w.env.vars.store.failing;
      cells := o.w.cells;
      err := if o.res.Err? then Some(o.res.error) else None;
    }
  }
}
