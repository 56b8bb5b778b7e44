/** The object graph of a running script, as a store of cells.

    Every Operable object the interpreter creates (a global variable, a literal Const, an
    OperableClone proxy, an Expression, a FunctionCall's result, a Function) is one cell,
    named by its index. A proxy's `_source` field is an entry of `sources`. The fields of
    Function, While and For objects that change at run time are kept in `functions` and
    `loops`, indexed by the object's identity, and the Script's own `_inProgress` flag is a
    field of the state. Accessors are total: an index outside the store reads as a fresh
    Operable and is not written, which no program the parser builds ever does. */
module Store {
  import opened Wrappers
  import opened Numerics
  import opened Entities
  import opened Operables

  /** The identity of an Operable object. */
  type Ref = nat
  /** The identity of a Function object, in the order the functions were declared. */
  type FunctionId = nat
  /** The identity of a While or For object. */
  type LoopId = nat

  /** One Operable object: its fields, and a version of its element list that every Set
      overload advances (each of them clears the list). */
  datatype Cell = Cell(value: Value, version: nat)

  /** One entry of Function._arguments: the by-reference flag and the proxy that stands for
      the parameter in the body. */
  datatype Param = Param(name: string, isReference: bool, variable: Ref)

  /** The fields of a Function that change: the argument table in insertion order, the
      in-progress flag and InvolvedArgumentCount. */
  datatype FunctionState = FunctionState(arguments: seq<Param>, inProgress: bool, involvedArgumentCount: int)

  /** The two flags of a While or For object. */
  datatype LoopFlags = LoopFlags(inProgress: bool, isToContinue: bool)

  datatype State = State(
    cells: seq<Cell>,
    sources: map<Ref, Option<Ref>>,
    functions: seq<FunctionState>,
    loops: seq<LoopFlags>,
    inProgress: bool)

  /** The parts of the state that no write to a cell touches. */
  predicate SameControl(a: State, b: State) {
    a.sources == b.sources && a.functions == b.functions && a.loops == b.loops && a.inProgress == b.inProgress
  }

  // ------------------------------------------------------------------ cells

  function Read(st: State, x: Ref): Value {
    if x < |st.cells| then st.cells[x].value else NewOperable(Integer)
  }

  function Version(st: State, x: Ref): nat {
    if x < |st.cells| then st.cells[x].version else 0
  }

  /** A write through a Set overload: the cell takes the value and its list version advances. */
  function Assign(st: State, x: Ref, v: Value): (after: State)
    ensures x < |st.cells| ==> Read(after, x) == v && Version(after, x) == Version(st, x) + 1
    ensures forall y: Ref :: y != x ==> Read(after, y) == Read(st, y) && Version(after, y) == Version(st, y)
    ensures x >= |st.cells| ==> after == st
    ensures |after.cells| == |st.cells| && SameControl(after, st)
  {
    if x < |st.cells| then st.(cells := st.cells[x := Cell(v, st.cells[x].version + 1)]) else st
  }

  /** A write by an operator (Add, Sub, Equal, ...), which assigns the fields and leaves the
      element list alone. */
  function Put(st: State, x: Ref, v: Value): (after: State)
    ensures x < |st.cells| ==> Read(after, x) == v
    ensures forall y: Ref :: Version(after, y) == Version(st, y)
    ensures forall y: Ref :: y != x ==> Read(after, y) == Read(st, y)
    ensures |after.cells| == |st.cells| && SameControl(after, st)
  {
    if x < |st.cells| then st.(cells := st.cells[x := Cell(v, st.cells[x].version)]) else st
  }

  /** dst.Set(src) for two cells: a deep copy of a different object, or, on the object
      itself, the loss of its elements. */
  function SetCell(st: State, dst: Ref, src: Ref): (after: State)
    ensures dst < |st.cells| && dst != src ==> Read(after, dst) == Copy(Read(st, src))
    ensures dst < |st.cells| && dst == src ==>
              Read(after, dst) == Read(st, dst).(elements := [])
    ensures dst < |st.cells| ==> Version(after, dst) == Version(st, dst) + 1
    ensures forall y: Ref :: y != dst ==> Read(after, y) == Read(st, y) && Version(after, y) == Version(st, y)
    ensures |after.cells| == |st.cells| && SameControl(after, st)
  {
    Assign(st, dst, if dst == src then SetSelf(Read(st, src)) else Copy(Read(st, src)))
  }

  /** A new object appended to the store. */
  function NewCell(st: State, v: Value): (r: (State, Ref))
    ensures r.1 == |st.cells| && |r.0.cells| == |st.cells| + 1
    ensures Read(r.0, r.1) == v && Version(r.0, r.1) == 0
    ensures forall y: Ref :: y != r.1 ==> Read(r.0, y) == Read(st, y) && Version(r.0, y) == Version(st, y)
    ensures SameControl(r.0, st)
  {
    (st.(cells := st.cells + [Cell(v, 0)]), |st.cells|)
  }

  // ------------------------------------------------------------------ OperableClone

  /** The proxy's `_source`; an object that is not a proxy has none. */
  function Source(st: State, p: Ref): Option<Ref> {
    if p in st.sources then st.sources[p] else Option.None
  }

  /** new OperableClone(source): a fresh Operable (Integer, default payloads) with a source. */
  function NewProxy(st: State, source: Option<Ref>): (r: (State, Ref))
    ensures r.1 == |st.cells| && |r.0.cells| == |st.cells| + 1
    ensures Read(r.0, r.1) == NewOperable(Integer) && Source(r.0, r.1) == source
    ensures forall y: Ref :: y != r.1 ==> Read(r.0, y) == Read(st, y) && Version(r.0, y) == Version(st, y)
    ensures forall q: Ref :: q != r.1 ==> Source(r.0, q) == Source(st, q)
    ensures r.0.functions == st.functions && r.0.loops == st.loops && r.0.inProgress == st.inProgress
  {
    var (s1, p) := NewCell(st, NewOperable(Integer));
    (s1.(sources := s1.sources[p := source]), p)
  }

  /** SetSource: replaces the source and nothing else. */
  function SetSource(st: State, p: Ref, source: Option<Ref>): (after: State)
    ensures after.cells == st.cells && Source(after, p) == source
    ensures forall q: Ref :: q != p ==> Source(after, q) == Source(st, q)
    ensures after.functions == st.functions && after.loops == st.loops && after.inProgress == st.inProgress
  {
    st.(sources := st.sources[p := source])
  }

  /** OperableClone.Reset: pull the source's current value into the proxy; nothing happens
      without a source. */
  function ResetProxy(st: State, p: Ref): (after: State)
    ensures Source(st, p).None? ==> after == st
    ensures Source(st, p).Some? && p < |st.cells| && Source(st, p).value != p ==>
              Read(after, p) == Copy(Read(st, Source(st, p).value))
    ensures forall y: Ref :: y != p ==> Read(after, y) == Read(st, y)
    ensures |after.cells| == |st.cells| && SameControl(after, st)
  {
    match Source(st, p)
    case None => st
    case Some(s) => SetCell(st, p, s)
  }

  /** OperableClone.Apply: push the proxy's value into its source; nothing happens without a
      source. */
  function ApplyProxy(st: State, p: Ref): (after: State)
    ensures Source(st, p).None? ==> after == st
    ensures Source(st, p).Some? && Source(st, p).value < |st.cells| && Source(st, p).value != p ==>
              Read(after, Source(st, p).value) == Copy(Read(st, p))
    ensures forall y: Ref :: Source(st, p) != Some(y) ==> Read(after, y) == Read(st, y)
    ensures |after.cells| == |st.cells| && SameControl(after, st)
  {
    match Source(st, p)
    case None => st
    case Some(s) => SetCell(st, s, p)
  }

  /** A source that has been pulled into its proxy again holds, after the proxy is applied,
      the value it had if that value is one the interpreter builds; in every case, a second
      round trip changes nothing more. */
  lemma ResetThenApply(st: State, p: Ref)
    requires Source(st, p).Some? && p < |st.cells| && Source(st, p).value != p
    ensures Read(ApplyProxy(ResetProxy(st, p), p), Source(st, p).value) == Copy(Read(st, Source(st, p).value))
    ensures Canonical(Read(st, Source(st, p).value)) ==>
              Read(ApplyProxy(ResetProxy(st, p), p), Source(st, p).value) == Read(st, Source(st, p).value)
  {
    var s := Source(st, p).value;
    var st1 := ResetProxy(st, p);
    CopyIdempotent(Read(st, s));
    if s < |st.cells| {
      assert Read(ApplyProxy(st1, p), s) == Copy(Read(st1, p));
    }
    if Canonical(Read(st, s)) {
      CopyOfCanonical(Read(st, s));
    }
  }

  /** Copying a copy gives the copy. */
  lemma CopyIdempotent(v: Value)
    ensures Copy(Copy(v)) == Copy(v)
    decreases v
  {
    if |v.elements| > 0 {
      var c := Copy(v);
      forall i | 0 <= i < |v.elements|
        ensures Copy(c.elements[i]) == c.elements[i]
      {
        CopyIdempotent(v.elements[i]);
      }
      assert Copy(c).elements == c.elements;
    }
  }

  // ------------------------------------------------------------------ Const

  /** Const.Reset on a cell. */
  function ResetConst(st: State, c: Ref, o: Origin): (after: State)
    ensures c < |st.cells| ==> Read(after, c) == ConstReset(Read(st, c), o)
    ensures forall y: Ref :: y != c ==> Read(after, y) == Read(st, y)
    ensures |after.cells| == |st.cells| && SameControl(after, st)
  {
    Assign(st, c, ConstReset(Read(st, c), o))
  }

  // ------------------------------------------------------------------ Function arguments

  function FunctionOf(st: State, f: FunctionId): FunctionState {
    if f < |st.functions| then st.functions[f] else FunctionState([], false, 0)
  }

  function Arguments(st: State, f: FunctionId): seq<Param> {
    FunctionOf(st, f).arguments
  }

  function UpdateFunction(st: State, f: FunctionId, fs: FunctionState): (after: State)
    ensures f < |st.functions| ==> FunctionOf(after, f) == fs
    ensures forall g: FunctionId :: g != f ==> FunctionOf(after, g) == FunctionOf(st, g)
    ensures after.cells == st.cells && after.sources == st.sources && after.loops == st.loops
    ensures after.inProgress == st.inProgress && |after.functions| == |st.functions|
  {
    if f < |st.functions| then st.(functions := st.functions[f := fs]) else st
  }

  /** The proxy of the parameter called name: the dictionary lookup of _arguments. */
  function Lookup(args: seq<Param>, name: string): (r: Option<Ref>)
    ensures r.None? <==> forall i :: 0 <= i < |args| ==> args[i].name != name
    ensures r.Some? ==> exists i :: 0 <= i < |args| && args[i].name == name && args[i].variable == r.value
  {
    if |args| == 0 then Option.None
    else if args[0].name == name then Some(args[0].variable)
    else
      var r := Lookup(args[1..], name);
      assert forall i :: 1 <= i < |args| ==> args[i] == args[1..][i - 1];
      r
  }

  /** AppendArg: a parameter with a fresh proxy that has no source, after the existing ones; a
      null or repeated name fails as Dictionary.Add does. */
  function AppendArg(st: State, f: FunctionId, name: Option<string>, isReference: bool): (r: Result<State>)
    ensures name.None? ==> r == Err(NullKey)
    ensures name.Some? && Lookup(Arguments(st, f), name.value).Some? ==> r == Err(DuplicateKey(name.value))
    ensures name.Some? && Lookup(Arguments(st, f), name.value).None? && f < |st.functions| ==>
              && r.Ok?
              && Arguments(r.value, f) == Arguments(st, f) + [Param(name.value, isReference, |st.cells|)]
              && Read(r.value, |st.cells|) == NewOperable(Integer)
              && Source(r.value, |st.cells|) == Option.None
    ensures r.Ok? ==> |r.value.cells| == |st.cells| + 1 && r.value.loops == st.loops
    ensures r.Ok? ==> |r.value.functions| == |st.functions| && r.value.inProgress == st.inProgress
    ensures r.Ok? ==> forall y: Ref :: y < |st.cells| ==> Read(r.value, y) == Read(st, y) && Source(r.value, y) == Source(st, y)
    ensures r.Ok? ==> forall g: FunctionId :: g != f ==> FunctionOf(r.value, g) == FunctionOf(st, g)
    ensures r.Ok? ==> FunctionOf(r.value, f).inProgress == FunctionOf(st, f).inProgress
  {
    if name.None? then Err(NullKey)
    else if Lookup(Arguments(st, f), name.value).Some? then Err(DuplicateKey(name.value))
    else
      var (s1, p) := NewProxy(st, Option.None);
      var fs := FunctionOf(s1, f);
      Ok(UpdateFunction(s1, f, fs.(arguments := fs.arguments + [Param(name.value, isReference, p)])))
  }

  /** GetArg: the parameter at a position of the insertion order (ElementAt). */
  function GetArg(st: State, f: FunctionId, index: nat): (r: Result<Param>)
    ensures r.Ok? <==> index < |Arguments(st, f)|
    ensures r.Ok? ==> r.value == Arguments(st, f)[index]
    ensures r.Err? ==> r.error == ArgumentOutOfRange
  {
    var args := Arguments(st, f);
    if index < |args| then Ok(args[index]) else Err(ArgumentOutOfRange)
  }

  /** GetArgOperable: the named parameter's proxy; an unknown name fails. */
  function GetArgOperable(st: State, f: FunctionId, name: string): (r: Result<Ref>)
    ensures r.Ok? <==> exists i :: 0 <= i < |Arguments(st, f)| && Arguments(st, f)[i].name == name
    ensures r.Ok? ==> exists i :: 0 <= i < |Arguments(st, f)| && Arguments(st, f)[i] == Param(name, Arguments(st, f)[i].isReference, r.value)
    ensures r.Err? ==> r.error == KeyNotFound(name)
  {
    match Lookup(Arguments(st, f), name)
    case Some(p) => Ok(p)
    case None => Err(KeyNotFound(name))
  }

  /** The name SetArgValue gives a parameter it has to add. */
  function ExtraArgName(index: nat): string {
    "arg" + DecimalText(index)
  }

  /** SetArgValue(index, operable): declare a by-value parameter `arg{index}` when the index
      is past the table, then point the parameter's proxy at the argument and pull its
      value. */
  function SetArgValue(st: State, f: FunctionId, index: nat, argument: Ref): (r: Result<State>)
    ensures index < |Arguments(st, f)| ==> r.Ok? && Arguments(r.value, f) == Arguments(st, f)
    ensures index == |Arguments(st, f)| && f < |st.functions| ==>
              (r.Ok? <==> Lookup(Arguments(st, f), ExtraArgName(index)).None?)
    ensures index == |Arguments(st, f)| && r.Ok? ==>
              Arguments(r.value, f) == Arguments(st, f) + [Param(ExtraArgName(index), false, |st.cells|)]
    ensures index > |Arguments(st, f)| ==> r.Err?
    ensures r.Ok? ==> (index < |Arguments(r.value, f)| &&
              Source(r.value, Arguments(r.value, f)[index].variable) == Some(argument))
    ensures r.Ok? && argument < |st.cells| && Arguments(r.value, f)[index].variable != argument &&
            Arguments(r.value, f)[index].variable < |r.value.cells| ==>
              Read(r.value, Arguments(r.value, f)[index].variable) == Copy(Read(st, argument))
    ensures r.Ok? ==> r.value.loops == st.loops && r.value.inProgress == st.inProgress
    ensures r.Ok? ==> |st.cells| <= |r.value.cells| && |r.value.functions| == |st.functions|
    ensures r.Ok? ==> forall g: FunctionId :: g != f ==> FunctionOf(r.value, g) == FunctionOf(st, g)
    ensures r.Ok? ==> FunctionOf(r.value, f).inProgress == FunctionOf(st, f).inProgress
  {
    var s1 :- if index >= |Arguments(st, f)| then AppendArg(st, f, Some(ExtraArgName(index)), false)
              else Ok(st);
    var param :- GetArg(s1, f, index);
    var s2 := SetSource(s1, param.variable, Some(argument));
    Ok(ResetProxy(s2, param.variable))
  }

  // ------------------------------------------------------------------ loop flags

  function LoopOf(st: State, id: LoopId): LoopFlags {
    if id < |st.loops| then st.loops[id] else LoopFlags(false, false)
  }

  function UpdateLoop(st: State, id: LoopId, flags: LoopFlags): (after: State)
    ensures id < |st.loops| ==> LoopOf(after, id) == flags
    ensures forall k: LoopId :: k != id ==> LoopOf(after, k) == LoopOf(st, k)
    ensures after.cells == st.cells && after.sources == st.sources && after.functions == st.functions
    ensures after.inProgress == st.inProgress && |after.loops| == |st.loops|
  {
    if id < |st.loops| then st.(loops := st.loops[id := flags]) else st
  }
}
