/** The Script object: its variable and function dictionaries, its list of top-level
    statements and the objects they refer to, as the fields of a class whose methods update
    them in place. Each method is proved to leave the object in the state the Parser and
    Execution functions compute from the old one. */
module Scripts {
  import opened Wrappers
  import opened Numerics
  import opened Entities
  import opened Operables
  import opened Store
  import opened Syntax
  import opened Parser
  import ParserProperties
  import opened Execution
  import Lexer

  class Script {
    /** The store: every Operable, proxy, function and loop the script owns. */
    var st: State
    /** `_variables`: the global variables by name. */
    var variables: map<string, Ref>
    /** `_functions`: the declared functions by name. */
    var functionIds: map<string, FunctionId>
    /** `Executables` and each function's body. */
    var prog: Program

    /** The parser's view of the object. */
    function Parsed(): Parse
      reads this
    {
      Parse(st, variables, functionIds, prog)
    }

    /** new Script(): empty dictionaries and no statements. */
    constructor ()
      ensures Parsed() == NewScript()
    {
      st := NewScript().st;
      variables := map[];
      functionIds := map[];
      prog := Program([], []);
    }

    // ---------------------------------------------------------------- dictionaries

    /** TryGetVariable: whether the name is a global variable, and its object if so. */
    method TryGetVariable(name: string) returns (found: bool, variable: Ref)
      ensures found <==> name in variables
      ensures found ==> variable == variables[name]
    {
      found := name in variables;
      variable := if found then variables[name] else 0;
    }

    /** SetVariable: a variable that exists takes a deep copy of the object (Set(Operable));
        a new name is added and refers to the object itself. */
    method SetVariable(name: string, variable: Ref)
      modifies this
      ensures name in old(variables) ==>
                variables == old(variables) && st == SetCell(old(st), old(variables)[name], variable)
      ensures name !in old(variables) ==> variables == old(variables)[name := variable] && st == old(st)
      ensures functionIds == old(functionIds) && prog == old(prog)
      ensures name in variables
      ensures name in old(variables) && variables[name] < |st.cells| && variables[name] != variable ==>
                Read(st, variables[name]) == Copy(Read(old(st), variable))
      ensures forall other :: other in old(variables) ==> other in variables && variables[other] == old(variables)[other]
    {
      if name in variables {
        st := SetCell(st, variables[name], variable);
      } else {
        variables := variables[name := variable];
      }
    }

    /** TryGetFunction: whether the name is a declared function, and the function if so. */
    method TryGetFunction(name: string) returns (found: bool, callee: FunctionId)
      ensures found <==> name in functionIds
      ensures found ==> callee == functionIds[name]
    {
      found := name in functionIds;
      callee := if found then functionIds[name] else 0;
    }

    /** SetFunction: a function that exists takes a deep copy of the other function's own
        Operable (Function.Set is Operable.Set); a new name is added and refers to the
        function itself. */
    method SetFunction(name: string, callee: FunctionId)
      modifies this
      ensures name in old(functionIds) ==>
                functionIds == old(functionIds)
                && st == SetCell(old(st), DefOf(prog, old(functionIds)[name]).cell, DefOf(prog, callee).cell)
      ensures name !in old(functionIds) ==> functionIds == old(functionIds)[name := callee] && st == old(st)
      ensures variables == old(variables) && prog == old(prog)
      ensures name in functionIds
    {
      if name in functionIds {
        st := SetCell(st, DefOf(prog, functionIds[name]).cell, DefOf(prog, callee).cell);
      } else {
        functionIds := functionIds[name := callee];
      }
    }

    // ---------------------------------------------------------------- parsing

    /** LoadFromSource: tokenize the text, then process the tokens with the Script as
        container and returnable. A failure leaves the object as it was. */
    method LoadFromSource(fm: FloatModel, source: string) returns (r: Result<()>)
      modifies this
      ensures var spec := Parser.LoadFromSource(old(Parsed()), fm, source);
              (r.Ok? <==> spec.Ok?) && (spec.Ok? ==> Parsed() == spec.value)
      ensures r.Err? ==> Parsed() == old(Parsed())
    {
      var tokens := Lexer.Tokenize(fm, source);
      if tokens.Err? {
        return Err(tokens.error);
      }
      r := ProcessContainer(tokens.value);
    }

    /** ProcessContainer(tokens, this, this): the loop over the token list, one switch
        case per turn, each turn starting after the last token the previous case read. */
    method ProcessContainer(tokens: seq<Entity>) returns (r: Result<()>)
      modifies this
      ensures var spec := Parser.ProcessContainer(old(Parsed()), tokens, TopContext());
              (r.Ok? <==> spec.Ok?) && (spec.Ok? ==> Parsed() == spec.value.0)
      ensures r.Err? ==> Parsed() == old(Parsed())
    {
      var ps := Parsed();
      var local: seq<Node> := [];
      var index := 0;
      while index < |tokens|
        invariant index <= |tokens| + 1
        invariant ContainerFrom(ps, tokens, index, TopContext(), local) ==
                  ContainerFrom(old(Parsed()), tokens, 0, TopContext(), [])
        invariant Parsed() == old(Parsed())
        decreases |tokens| + 1 - index
      {
        var s := StatementAt(ps, tokens, index, TopContext(), local);
        ParserProperties.ContainerFromStep(ps, tokens, index, TopContext(), local);
        if s.Err? {
          return Err(s.error);
        }
        ps, local, index := s.value.0, s.value.1, s.value.2 + 1;
      }
      st, variables, functionIds, prog := ps.st, ps.variables, ps.functionIds, ps.prog;
      r := Ok(());
    }

    /** CollectInternalTokens: the tokens between the `{` at index and its matching `}`,
        and the position of that `}`, counting the braces that open and close in between. */
    method CollectInternalTokens(tokens: seq<Entity>, index: nat) returns (r: Result<(seq<Entity>, nat)>)
      ensures r == Collect(tokens, index)
    {
      if index >= |tokens| {
        return Err(ArgumentOutOfRange);
      }
      if tokens[index].Type() != BeginBlock {
        return Err(UnexpectedToken);
      }
      var buffer: seq<Entity> := [];
      var i := index + 1;
      var bracketCount := 1;
      while true
        invariant index < i <= |tokens| && bracketCount > 0
        invariant buffer == tokens[index + 1..i]
        invariant CloseFrom(tokens, i, bracketCount) == CloseFrom(tokens, index + 1, 1)
        decreases |tokens| - i
      {
        if i == |tokens| {
          return Err(ArgumentOutOfRange);
        }
        var token := tokens[i];
        if token.Type() == BeginBlock {
          bracketCount := bracketCount + 1;
        } else if token.Type() == EndBlock {
          bracketCount := bracketCount - 1;
          if bracketCount == 0 {
            return Ok((buffer, i));
          }
        }
        buffer := buffer + [token];
        i := i + 1;
        if i == |tokens| {
          return Err(ArgumentOutOfRange);
        }
      }
    }

    // ---------------------------------------------------------------- execution

    /** Execute: set the in-progress flag and run the top-level statements in order until
        one of them fails or a RETURN clears the flag. A failure leaves the object as it was. */
    method Execute(fm: FloatModel, fuel: nat) returns (r: Result<()>)
      modifies this
      ensures var spec := ExecScript(fm, prog, fuel, old(st));
              (r.Ok? <==> spec.Ok?) && (spec.Ok? ==> st == spec.value)
      ensures r.Err? ==> st == old(st)
      ensures variables == old(variables) && functionIds == old(functionIds) && prog == old(prog)
    {
      var s := st.(inProgress := true);
      var i := 0;
      while i < |prog.body|
        invariant i <= |prog.body|
        invariant ScriptBody(fm, prog, fuel, s, i) == ExecScript(fm, prog, fuel, old(st))
        invariant st == old(st)
        decreases |prog.body| - i
      {
        var next := ExecNode(fm, prog, fuel, s, prog.body[i]);
        if next.Err? {
          return Err(next.error);
        }
        s := next.value;
        if !s.inProgress {
          break;
        }
        i := i + 1;
      }
      st := s;
      r := Ok(());
    }

    /** Return: clear the in-progress flag, which stops Execute after the current statement. */
    method Return()
      modifies this
      ensures st == old(st).(inProgress := false)
      ensures variables == old(variables) && functionIds == old(functionIds) && prog == old(prog)
    {
      st := st.(inProgress := false);
    }

    /** Reset: reset every top-level statement, then every function's body in declaration
        order. A failure leaves the object as it was. */
    method Reset() returns (r: Result<()>)
      modifies this
      ensures r.Ok? <==> ResetScript(old(st), prog).Ok?
      ensures r.Ok? ==> st == ResetScript(old(st), prog).value
      ensures r.Err? ==> st == old(st)
      ensures variables == old(variables) && functionIds == old(functionIds) && prog == old(prog)
    {
      var s := st;
      var i := 0;
      while i < |prog.body|
        invariant i <= |prog.body|
        invariant ResetNodes(s, prog.body, i) == ResetNodes(old(st), prog.body, 0)
        invariant st == old(st)
        decreases |prog.body| - i
      {
        var next := ResetNode(s, prog.body[i]);
        if next.Err? {
          return Err(next.error);
        }
        s := next.value;
        i := i + 1;
      }
      var f := 0;
      while f < |prog.functions|
        invariant f <= |prog.functions|
        invariant ResetFunctions(s, prog.functions, f) == ResetScript(old(st), prog)
        invariant st == old(st)
        decreases |prog.functions| - f
      {
        var body := prog.functions[f].body;
        ghost var start := s;
        var j := 0;
        while j < |body|
          invariant j <= |body|
          invariant ResetNodes(s, body, j) == ResetNodes(start, body, 0)
          invariant ResetFunctions(start, prog.functions, f) == ResetScript(old(st), prog)
          invariant st == old(st)
          decreases |body| - j
        {
          var next := ResetNode(s, body[j]);
          if next.Err? {
            return Err(next.error);
          }
          s := next.value;
          j := j + 1;
        }
        f := f + 1;
      }
      st := s;
      r := Ok(());
    }
  }
}
