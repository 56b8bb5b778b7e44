/** Properties of the executing model: how BREAK, CONTINUE and RETURN steer the bodies that
    contain them, what a function call binds and writes back, what Reset refuses, and how
    an expression is evaluated. */
module ExecutionProperties {
  import opened Wrappers
  import opened Numerics
  import opened Entities
  import opened Operables
  import opened Store
  import opened Syntax
  import opened Execution
  import Lexer
  import LexerProperties
  import ExpressionProperties

  // ------------------------------------------------------------------ loop bodies

  /** A BREAK bound to the loop ends the pass right after it: the statements after it do not
      run and the loop reports that it stopped. */
  lemma BreakEndsPass(fm: FloatModel, prog: Program, fuel: nat, st: State, n: Node, i: nat)
    requires n.IsLoop() && i < |n.body| && n.body[i] == BreakNode(Some(n.loop))
    requires n.loop < |st.loops| && !LoopOf(st, n.loop).isToContinue
    ensures LoopBody(fm, prog, fuel, st, n, i) == Ok(Outcome(BreakLoop(st, Some(n.loop)), true))
  {
  }

  /** A CONTINUE bound to the loop sets the flag, which the pass clears at once: the next
      statement of the same pass runs, on the state as it was. */
  lemma ContinueRunsRest(fm: FloatModel, prog: Program, fuel: nat, st: State, n: Node, i: nat)
    requires n.IsLoop() && i < |n.body| && n.body[i] == ContinueNode(Some(n.loop))
    requires n.loop < |st.loops| && !LoopOf(st, n.loop).isToContinue
    ensures LoopBody(fm, prog, fuel, st, n, i) == LoopBody(fm, prog, fuel, st, n, i + 1)
  {
    var st1 := ContinueLoop(st, Some(n.loop));
    var flags := LoopOf(st1, n.loop);
    assert UpdateLoop(st1, n.loop, flags.(isToContinue := false)) == st by {
      assert st.loops[n.loop := LoopOf(st, n.loop)] == st.loops;
    }
  }

  /** A loop tests only its own flags: a RETURN to a function, executed in its body, does
      not end the pass. */
  lemma ReturnDoesNotStopLoop(fm: FloatModel, prog: Program, fuel: nat, st: State, n: Node, i: nat, g: FunctionId)
    requires n.IsLoop() && i < |n.body| && n.body[i] == ReturnNode(FunctionReturnable(g))
    requires LoopOf(st, n.loop) == LoopFlags(true, false)
    ensures LoopBody(fm, prog, fuel, st, n, i) == LoopBody(fm, prog, fuel, ReturnTo(st, FunctionReturnable(g)), n, i + 1)
  {
  }

  /** Entering a WHILE or FOR sets its in-progress flag, so a BREAK of an earlier run does not
      carry over: the run is the same whatever the flag was. */
  lemma LoopEntryForgetsBreak(fm: FloatModel, prog: Program, fuel: nat, st: State, n: Node, before: bool)
    requires n.IsLoop() && n.loop < |st.loops|
    ensures ExecNode(fm, prog, fuel, UpdateLoop(st, n.loop, LoopOf(st, n.loop).(inProgress := before)), n)
         == ExecNode(fm, prog, fuel, UpdateLoop(st, n.loop, LoopOf(st, n.loop).(inProgress := true)), n)
  {
    var s0 := UpdateLoop(st, n.loop, LoopOf(st, n.loop).(inProgress := before));
    var s1 := UpdateLoop(st, n.loop, LoopOf(st, n.loop).(inProgress := true));
    assert UpdateLoop(s0, n.loop, LoopOf(s0, n.loop).(inProgress := true))
        == UpdateLoop(s1, n.loop, LoopOf(s1, n.loop).(inProgress := true)) by {
      assert s0.loops[n.loop := LoopOf(s0, n.loop).(inProgress := true)]
          == s1.loops[n.loop := LoopOf(s1, n.loop).(inProgress := true)];
    }
  }

  /** A WHILE whose condition holds false does not run its body. */
  lemma WhileFalseSkips(fm: FloatModel, prog: Program, fuel: nat, st: State, n: Node)
    requires n.WhileNode? && !Read(st, n.condition.cell).booleanValue
    ensures WhileFrom(fm, prog, fuel, st, n) == Ok(st)
  {
  }

  /** An IF evaluates its condition once; when that leaves the condition false the body is
      skipped and the state is the condition's, otherwise the whole body runs. */
  lemma IfChoosesBody(fm: FloatModel, prog: Program, fuel: nat, st: State, n: Node)
    requires n.IfNode? && ExecExpr(fm, prog, fuel, st, n.condition).Ok?
    ensures var st1 := ExecExpr(fm, prog, fuel, st, n.condition).value;
            ExecNode(fm, prog, fuel, st, n) ==
              if Read(st1, n.condition.cell).booleanValue then IfBody(fm, prog, fuel, st1, n, 0) else Ok(st1)
  {
  }

  /** A FOR over a collection whose element list was empty when the enumeration began, and
      that has not been written since, runs no iteration. */
  lemma ForEmptySkips(fm: FloatModel, prog: Program, fuel: nat, st: State, n: Node)
    requires n.ForNode?
    ensures ForFrom(fm, prog, fuel, st, n, [], Version(st, n.collection.cell), 0) == Ok(st)
  {
  }

  /** A FOR fails as soon as the collection's list has changed since the enumeration began. */
  lemma ForModifiedFails(fm: FloatModel, prog: Program, fuel: nat, st: State, n: Node,
                         es: seq<Value>, version: nat, k: nat)
    requires n.ForNode? && k <= |es| && Version(st, n.collection.cell) != version
    ensures ForFrom(fm, prog, fuel, st, n, es, version, k) == Err(CollectionModified)
  {
  }

  /** One pass of a FOR body, from state s, runs to its end without stopping the loop,
      leaves the loop in progress and writes neither the loop variables nor the collection's
      list. */
  predicate BodyKeeps(fm: FloatModel, prog: Program, fuel: nat, n: Node, s: State)
    requires n.ForNode?
  {
    var r := LoopBody(fm, prog, fuel, s, n, 0);
    && r.Ok? && !r.value.stopped && LoopOf(r.value.state, n.loop).inProgress
    && Version(r.value.state, n.collection.cell) == Version(s, n.collection.cell)
    && forall i :: 0 <= i < |n.variables| ==> Read(r.value.state, n.variables[i]) == Read(s, n.variables[i])
  }

  /** The loop variables are objects of the store other than the collection. */
  predicate VariablesApart(st: State, n: Node)
    requires n.ForNode?
  {
    forall i :: 0 <= i < |n.variables| ==> n.variables[i] != n.collection.cell && n.variables[i] < |st.cells|
  }

  /** A state the enumeration of a FOR can be in before a pass: the loop is in progress (the
      FOR statement sets its flag before it evaluates the collection), the collection's list
      is at the version the enumeration began with, the variables are objects apart from the
      collection, and the store holds at least `floor` objects (it only grows). */
  predicate Reaches(s: State, n: Node, version: nat, floor: nat)
    requires n.ForNode?
  {
    LoopOf(s, n.loop).inProgress && Version(s, n.collection.cell) == version && VariablesApart(s, n) && floor <= |s.cells|
  }

  /** A FOR whose body, in every state the enumeration can reach, keeps the variables and the
      collection makes one pass per remaining element, in order, and ends with every loop
      variable holding a copy of the last one. */
  lemma {:induction false} ForEndsOnLast(fm: FloatModel, prog: Program, fuel: nat, st: State, n: Node,
                                         es: seq<Value>, version: nat, floor: nat, k: nat)
    requires n.ForNode? && k < |es| && Reaches(st, n, version, floor)
    requires forall s: State :: Reaches(s, n, version, floor) ==> BodyKeeps(fm, prog, fuel, n, s)
    ensures ForFrom(fm, prog, fuel, st, n, es, version, k).Ok?
    ensures forall i :: 0 <= i < |n.variables| ==>
              Read(ForFrom(fm, prog, fuel, st, n, es, version, k).value, n.variables[i]) == Copy(es[|es| - 1])
    decreases |es| - k
  {
    ReachesSetVariables(st, n, es[k], version, floor);
    var s := ForPass(fm, prog, fuel, st, n, es, version, k);
    if k + 1 < |es| {
      ForEndsOnLast(fm, prog, fuel, s, n, es, version, floor, k + 1);
    } else {
      ForLastPass(fm, prog, fuel, s, n, es, version);
    }
  }

  /** Giving the variables the next element keeps a reached state reached. */
  lemma ReachesSetVariables(st: State, n: Node, element: Value, version: nat, floor: nat)
    requires n.ForNode? && Reaches(st, n, version, floor)
    ensures Reaches(SetVariables(st, n.variables, element, 0), n, version, floor)
  {
  }

  /** One pass over element k: the variables take a copy of it and the body runs; when that
      pass keeps the variables and the collection, the next pass starts with them holding the
      copy, the list unchanged and the loop still in progress. */
  lemma ForPass(fm: FloatModel, prog: Program, fuel: nat, st: State, n: Node, es: seq<Value>, version: nat, k: nat)
    returns (s: State)
    requires n.ForNode? && k < |es| && Version(st, n.collection.cell) == version && VariablesApart(st, n)
    requires BodyKeeps(fm, prog, fuel, n, SetVariables(st, n.variables, es[k], 0))
    ensures ForFrom(fm, prog, fuel, st, n, es, version, k) == ForFrom(fm, prog, fuel, s, n, es, version, k + 1)
    ensures Version(s, n.collection.cell) == version && VariablesApart(s, n)
    ensures |st.cells| <= |s.cells| && LoopOf(s, n.loop).inProgress
    ensures forall i :: 0 <= i < |n.variables| ==> Read(s, n.variables[i]) == Copy(es[k])
  {
    var st1 := SetVariables(st, n.variables, es[k], 0);
    assert Version(st1, n.collection.cell) == version;
    s := LoopBody(fm, prog, fuel, st1, n, 0).value.state;
  }

  /** After the last element the enumeration ends where the last pass left the state. */
  lemma ForLastPass(fm: FloatModel, prog: Program, fuel: nat, s: State, n: Node, es: seq<Value>, version: nat)
    requires n.ForNode? && Version(s, n.collection.cell) == version
    ensures ForFrom(fm, prog, fuel, s, n, es, version, |es|) == Ok(s)
  {
  }

  /** In particular a FOR with an empty body leaves each loop variable a copy of the last
      element of the collection. */
  lemma ForEmptyBodyLast(fm: FloatModel, prog: Program, fuel: nat, st: State, n: Node, es: seq<Value>)
    requires n.ForNode? && n.body == [] && |es| > 0 && VariablesApart(st, n) && LoopOf(st, n.loop).inProgress
    ensures var r := ForFrom(fm, prog, fuel, st, n, es, Version(st, n.collection.cell), 0);
            r.Ok? && forall i :: 0 <= i < |n.variables| ==> Read(r.value, n.variables[i]) == Copy(es[|es| - 1])
  {
    var version := Version(st, n.collection.cell);
    forall s: State | Reaches(s, n, version, 0) ensures BodyKeeps(fm, prog, fuel, n, s) {
      assert LoopBody(fm, prog, fuel, s, n, 0) == Ok(Outcome(s, false));
    }
    ForEndsOnLast(fm, prog, fuel, st, n, es, version, 0, 0);
  }

  /** The FOR statement itself: it sets the loop's flag, evaluates the collection and, when
      that succeeds, enumerates the list the collection then holds; with a call-free
      collection expression the enumeration starts with the loop in progress. */
  lemma ForStartsInProgress(fm: FloatModel, prog: Program, fuel: nat, st: State, n: Node)
    requires n.ForNode? && n.loop < |st.loops| && ExpressionProperties.CallFree(n.collection.tokens, 0)
    ensures var st1 := UpdateLoop(st, n.loop, LoopOf(st, n.loop).(inProgress := true));
            var r := ExpressionProperties.Evaluate(fm, st1, n.collection);
            r.Err? ==> ExecNode(fm, prog, fuel, st, n) == Err(r.error)
    ensures var st1 := UpdateLoop(st, n.loop, LoopOf(st, n.loop).(inProgress := true));
            var r := ExpressionProperties.Evaluate(fm, st1, n.collection);
            r.Ok? ==> && LoopOf(r.value, n.loop).inProgress
                      && ExecNode(fm, prog, fuel, st, n) ==
                           ForFrom(fm, prog, fuel, r.value, n, Read(r.value, n.collection.cell).elements,
                                   Version(r.value, n.collection.cell), 0)
  {
    var st1 := UpdateLoop(st, n.loop, LoopOf(st, n.loop).(inProgress := true));
    ExpressionProperties.ExecExprCallFree(fm, prog, fuel, st1, n.collection);
  }

  // ------------------------------------------------------------------ a FOR over `CONTINUE`

  /** A loop body of one statement that succeeds and leaves the loop in progress finishes the
      pass, only clearing the continue flag if the statement set it. */
  lemma OneStatementPass(fm: FloatModel, prog: Program, fuel: nat, s: State, n: Node, s1: State)
    requires n.IsLoop() && |n.body| == 1 && ExecNode(fm, prog, fuel, s, n.body[0]) == Ok(s1)
    requires LoopOf(s1, n.loop).inProgress
    ensures var flags := LoopOf(s1, n.loop);
            LoopBody(fm, prog, fuel, s, n, 0) ==
              Ok(Outcome(if flags.isToContinue then UpdateLoop(s1, n.loop, flags.(isToContinue := false)) else s1, false))
  {
  }

  /** The body of `FOR x IN a { CONTINUE }`: ProcessContainer binds the CONTINUE to the FOR
      it is in. In every state the enumeration can reach, a pass of it sets the continue
      flag, the loop clears it again, and no object changes. */
  lemma ContinueBodyKeeps(fm: FloatModel, prog: Program, fuel: nat, n: Node, version: nat, floor: nat, s: State)
    requires n.ForNode? && n.body == [ContinueNode(Some(n.loop))] && Reaches(s, n, version, floor)
    ensures BodyKeeps(fm, prog, fuel, n, s)
  {
    OneStatementPass(fm, prog, fuel, s, n, ContinueLoop(s, Some(n.loop)));
  }

  /** A FOR whose body is a CONTINUE bound to it makes a pass per element and leaves every
      loop variable a copy of the last element: the premise of ForEndsOnLast holds for a
      body that is not empty. */
  lemma ForContinueBodyLast(fm: FloatModel, prog: Program, fuel: nat, st: State, n: Node, es: seq<Value>)
    requires n.ForNode? && n.body == [ContinueNode(Some(n.loop))] && |es| > 0
    requires VariablesApart(st, n) && LoopOf(st, n.loop).inProgress
    ensures var r := ForFrom(fm, prog, fuel, st, n, es, Version(st, n.collection.cell), 0);
            r.Ok? && forall i :: 0 <= i < |n.variables| ==> Read(r.value, n.variables[i]) == Copy(es[|es| - 1])
  {
    var version := Version(st, n.collection.cell);
    forall s: State | Reaches(s, n, version, 0) ensures BodyKeeps(fm, prog, fuel, n, s) {
      ContinueBodyKeeps(fm, prog, fuel, n, version, 0, s);
    }
    ForEndsOnLast(fm, prog, fuel, st, n, es, version, 0, 0);
  }

  /** An IF owns no flag: whatever its body's statements do to the flags, every one of them
      runs. In particular a BREAK in it changes the bound loop's flag and the next statement
      runs. */
  lemma IfIgnoresBreak(fm: FloatModel, prog: Program, fuel: nat, st: State, n: Node, i: nat, t: Option<LoopId>)
    requires n.IfNode? && i < |n.body| && n.body[i] == BreakNode(t)
    ensures IfBody(fm, prog, fuel, st, n, i) == IfBody(fm, prog, fuel, BreakLoop(st, t), n, i + 1)
  {
  }

  // ------------------------------------------------------------------ RETURN

  /** A RETURN to the Script ends Script.Execute right after it. */
  lemma ScriptReturnStops(fm: FloatModel, prog: Program, fuel: nat, st: State, i: nat)
    requires i < |prog.body| && prog.body[i] == ReturnNode(ScriptReturnable)
    ensures ScriptBody(fm, prog, fuel, st, i) == Ok(st.(inProgress := false))
  {
  }

  /** A RETURN first in a function's body ends the call at once: only the function's flag
      changes (it is set and cleared), and the by-reference parameters are not written back. */
  lemma EarlyReturnSkipsWriteBack(fm: FloatModel, prog: Program, fuel: nat, st: State, f: FunctionId)
    requires f < |st.functions| && |DefOf(prog, f).body| > 0
    requires DefOf(prog, f).body[0] == ReturnNode(FunctionReturnable(f))
    ensures ExecFunction(fm, prog, fuel, st, f) == Ok(UpdateFunction(st, f, FunctionOf(st, f).(inProgress := false)))
  {
    var st1 := UpdateFunction(st, f, FunctionOf(st, f).(inProgress := true));
    var st2 := ReturnTo(st1, FunctionReturnable(f));
    assert ExecNode(fm, prog, fuel, st1, DefOf(prog, f).body[0]) == Ok(st2);
    assert !FunctionOf(st2, f).inProgress;
    assert FunctionBody(fm, prog, fuel, st1, f, DefOf(prog, f), 0) == Ok(Outcome(st2, true));
    assert st2 == UpdateFunction(st, f, FunctionOf(st, f).(inProgress := false)) by {
      assert st2.functions == st.functions[f := FunctionOf(st, f).(inProgress := false)];
    }
  }

  /** A RETURN to the function, at whatever position of its body, ends the body right after
      it: the statements after it do not run and the function's flag is cleared. */
  lemma ReturnStopsBody(fm: FloatModel, prog: Program, fuel: nat, st: State, f: FunctionId, def: FunctionDef, i: nat)
    requires i < |def.body| && def.body[i] == ReturnNode(FunctionReturnable(f)) && f < |st.functions|
    ensures FunctionBody(fm, prog, fuel, st, f, def, i) == Ok(Outcome(ReturnTo(st, FunctionReturnable(f)), true))
  {
    assert !FunctionOf(ReturnTo(st, FunctionReturnable(f)), f).inProgress;
  }

  /** The state the body of a call starts in: the function's flag set. */
  function Started(st: State, f: FunctionId): State {
    UpdateFunction(st, f, FunctionOf(st, f).(inProgress := true))
  }

  /** A statement that leaves the flag set hands its state to the next one. */
  lemma FunctionBodyStep(fm: FloatModel, prog: Program, fuel: nat, st: State, f: FunctionId, def: FunctionDef, i: nat, s: State)
    requires i < |def.body| && ExecNode(fm, prog, fuel, st, def.body[i]) == Ok(s) && FunctionOf(s, f).inProgress
    ensures FunctionBody(fm, prog, fuel, st, f, def, i) == FunctionBody(fm, prog, fuel, s, f, def, i + 1)
  {
  }

  /** A RETURN anywhere in a function's body ends the call right after it: once the body,
      run from its start, has reached the RETURN in some state (FunctionBodyStep takes it
      there one statement at a time), the call ends in that state with the function's flag
      cleared, and the by-reference parameters are not written back. */
  lemma ReturnSkipsWriteBack(fm: FloatModel, prog: Program, fuel: nat, st: State, f: FunctionId, i: nat, s: State)
    requires f < |s.functions| && i < |DefOf(prog, f).body|
    requires DefOf(prog, f).body[i] == ReturnNode(FunctionReturnable(f))
    requires FunctionBody(fm, prog, fuel, Started(st, f), f, DefOf(prog, f), 0)
          == FunctionBody(fm, prog, fuel, s, f, DefOf(prog, f), i)
    ensures ExecFunction(fm, prog, fuel, st, f) == Ok(ReturnTo(s, FunctionReturnable(f)))
  {
    ReturnStopsBody(fm, prog, fuel, s, f, DefOf(prog, f), i);
  }

  /** A function whose body is empty only writes its by-reference parameters back. */
  lemma EmptyBodyWritesBack(fm: FloatModel, prog: Program, fuel: nat, st: State, f: FunctionId)
    requires f < |st.functions| && DefOf(prog, f).body == []
    ensures ExecFunction(fm, prog, fuel, st, f)
         == Ok(WriteBack(UpdateFunction(st, f, FunctionOf(st, f).(inProgress := true)), Arguments(st, f), 0))
  {
  }

  // ------------------------------------------------------------------ write-back

  /** The parameters' by-reference sources are different objects, none of them a parameter's
      proxy. */
  predicate SeparateSources(st: State, args: seq<Param>) {
    && (forall i, j :: 0 <= i < j < |args| && args[i].isReference && args[j].isReference ==>
          Source(st, args[i].variable) != Source(st, args[j].variable))
    && (forall i, j :: 0 <= i < |args| && 0 <= j < |args| && args[i].isReference ==>
          Source(st, args[i].variable) != Some(args[j].variable))
  }

  /** With separate sources, the write-back leaves each by-reference parameter's source a
      copy of the parameter's value. */
  lemma {:induction false} WriteBackCopies(st: State, args: seq<Param>, k: nat, i: nat)
    requires k <= i < |args| && args[i].isReference && SeparateSources(st, args)
    requires Source(st, args[i].variable).Some? && Source(st, args[i].variable).value < |st.cells|
    ensures Read(WriteBack(st, args, k), Source(st, args[i].variable).value) == Copy(Read(st, args[i].variable))
    decreases |args| - k
  {
    if k == i {
      WriteBackAt(st, args, i);
    } else {
      var st1 := WriteBackStep(st, args, k, i);
      WriteBackCopies(st1, args, k + 1, i);
      var s := Source(st, args[i].variable).value;
      assert Read(WriteBack(st1, args, k + 1), s) == Copy(Read(st, args[i].variable));
    }
  }

  /** The write-back of parameter i itself, and the later ones, which leave its source alone. */
  lemma WriteBackAt(st: State, args: seq<Param>, i: nat)
    requires i < |args| && args[i].isReference && SeparateSources(st, args)
    requires Source(st, args[i].variable).Some? && Source(st, args[i].variable).value < |st.cells|
    ensures Read(WriteBack(st, args, i), Source(st, args[i].variable).value) == Copy(Read(st, args[i].variable))
  {
    var s := Source(st, args[i].variable).value;
    var st1 := ApplyProxy(st, args[i].variable);
    assert WriteBack(st, args, i) == WriteBack(st1, args, i + 1);
    assert s != args[i].variable;
    assert Read(st1, s) == Copy(Read(st, args[i].variable));
    forall j | i + 1 <= j < |args| && args[j].isReference
      ensures Source(st1, args[j].variable) != Some(s)
    {
      assert Source(st, args[i].variable) != Source(st, args[j].variable);
    }
    assert forall p: Ref :: Source(st1, p) == Source(st, p);
    WriteBackFrame(st1, args, i + 1, s);
  }

  /** The write-back of an earlier parameter k leaves parameter i's value and every source
      as they were. */
  lemma WriteBackStep(st: State, args: seq<Param>, k: nat, i: nat) returns (st1: State)
    requires k < i < |args| && SeparateSources(st, args)
    ensures WriteBack(st, args, k) == WriteBack(st1, args, k + 1)
    ensures SeparateSources(st1, args) && |st1.cells| == |st.cells|
    ensures Source(st1, args[i].variable) == Source(st, args[i].variable)
    ensures Read(st1, args[i].variable) == Read(st, args[i].variable)
  {
    st1 := if args[k].isReference then ApplyProxy(st, args[k].variable) else st;
    if args[k].isReference {
      assert Source(st, args[k].variable) != Some(args[i].variable);
    }
    SeparateKept(st, st1, args);
  }

  /** The write-back from parameter k on writes only the sources of by-reference parameters. */
  lemma {:induction false} WriteBackFrame(st: State, args: seq<Param>, k: nat, y: Ref)
    requires k <= |args|
    requires forall j :: k <= j < |args| && args[j].isReference ==> Source(st, args[j].variable) != Some(y)
    ensures Read(WriteBack(st, args, k), y) == Read(st, y)
    decreases |args| - k
  {
    if k < |args| {
      var st1 := if args[k].isReference then ApplyProxy(st, args[k].variable) else st;
      assert st1.sources == st.sources;
      assert forall p: Ref :: Source(st1, p) == Source(st, p);
      WriteBackFrame(st1, args, k + 1, y);
    }
  }

  lemma SeparateKept(st: State, st1: State, args: seq<Param>)
    requires SeparateSources(st, args) && st1.sources == st.sources
    ensures SeparateSources(st1, args)
  {
    assert forall p: Ref :: Source(st1, p) == Source(st, p);
  }

  // ------------------------------------------------------------------ Reset

  /** Whether a BREAK, CONTINUE or RETURN occurs in the node, at any depth. */
  predicate HasJump(n: Node) decreases n {
    match n
    case ReturnNode(_) => true
    case BreakNode(_) => true
    case ContinueNode(_) => true
    case ExpressionNode(_) => false
    case _ => exists i :: 0 <= i < |n.body| && HasJump(n.body[i])
  }

  /** Statement.Reset throws exactly when a BREAK, CONTINUE or RETURN occurs in the body at
      any depth. */
  lemma {:induction false} ResetFailsOnJump(st: State, n: Node)
    ensures ResetNode(st, n).Err? <==> HasJump(n)
    ensures ResetNode(st, n).Err? ==> ResetNode(st, n).error == NotResetable
    decreases n, 1
  {
    match n
    case ReturnNode(_) =>
    case BreakNode(_) =>
    case ContinueNode(_) =>
    case ExpressionNode(_) =>
    case _ => ResetChildrenFails(st, n, 0);
  }

  lemma {:induction false} ResetChildrenFails(st: State, n: Node, i: nat)
    requires (n.IfNode? || n.IsLoop()) && i <= |n.body|
    ensures ResetChildren(st, n, i).Err? <==> exists k :: i <= k < |n.body| && HasJump(n.body[k])
    ensures ResetChildren(st, n, i).Err? ==> ResetChildren(st, n, i).error == NotResetable
    decreases n, 0, |n.body| - i
  {
    if i < |n.body| {
      ResetFailsOnJump(st, n.body[i]);
      var r := ResetNode(st, n.body[i]);
      if r.Ok? {
        ResetChildrenFails(r.value, n, i + 1);
        assert forall k :: i <= k < |n.body| && HasJump(n.body[k]) ==> k >= i + 1;
      }
    }
  }
}
