/**
 * The `run` builtin that the rule engine adds to every rule's scope: it
 * checks its arguments and would execute them as a command line.
 */
module Commands {
  import opened Values

  predicate AllStrings(args: seq<Value>)
  {
    forall i | 0 <= i < |args| :: args[i].VStr?
  }

  /** The command line `run` executes: its arguments, which must be at least one and all strings. */
  function CommandLine(args: seq<Value>): (r: Result<seq<string>>)
    ensures r.Ok? <==> |args| >= 1 && AllStrings(args)
    ensures r.Ok? ==> |r.value| == |args| && forall i | 0 <= i < |args| :: r.value[i] == args[i].s
    ensures |args| == 0 ==> r == Err(Failure(Message("run takes at least one argument")))
    ensures |args| >= 1 && !AllStrings(args) ==> r == Err(Failure(Message("run only takes string arguments")))
  {
    if |args| < 1 then Err(Failure(Message("run takes at least one argument")))
    else if !AllStrings(args) then Err(Failure(Message("run only takes string arguments")))
    else Ok(seq(|args|, i requires 0 <= i < |args| => args[i].s))
  }

  /** `run` as the evaluator sees it: nil once the arguments are accepted (the command's outcome is ignored). */
  function Run(args: seq<Value>): (r: Result<Value>)
    ensures r.Ok? <==> CommandLine(args).Ok?
    ensures r.Ok? ==> r.value == VNil
    ensures r.Err? ==> r.error == CommandLine(args).error
  {
    match CommandLine(args)
    case Ok(_) => Ok(VNil)
    case Err(e) => Err(e)
  }

  /** `runFn`'s loop, which collects the arguments into the command line before anything is executed. */
  method CollectCommand(args: seq<Value>) returns (r: Result<Value>, commands: seq<string>)
    ensures r == Run(args)
    ensures r.Ok? ==> commands == CommandLine(args).value
  {
    commands := [];
    if |args| < 1 {
      return Err(Failure(Message("run takes at least one argument"))), commands;
    }
    var i := 0;
    while i < |args|
      invariant 0 <= i <= |args|
      invariant AllStrings(args[..i])
      invariant |commands| == i && forall k | 0 <= k < i :: commands[k] == args[k].s
    {
      if !args[i].VStr? {
        return Err(Failure(Message("run only takes string arguments"))), commands;
      }
      commands := commands + [args[i].s];
      i := i + 1;
    }
    assert args[..i] == args;
    return Ok(VNil), commands;
  }
}
