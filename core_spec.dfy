/** The meaning of the reservoir-language compiler of src/ir/core.py, as
    functions on values: what one statement does to the compiler state
    (`ProcessSpec`) and what a whole program does (`CompileSpec`).  The class
    in module IrCore is proved to follow these functions step by step, and
    module CoreProps proves what they promise. */
module CoreSpec {
  import opened Wrappers
  import opened Graph

  /** One IR statement.  The closed opcode set LET / INPUT / RET, and every
      other opcode as a custom one naming a library reservoir:
      - `Let(names, None)` is a LET with the single operand `names`;
      - `Let(names, Some(v))` is a LET with operands `(names, v)`;
      - `Input(names)` and `Ret(names)` carry their first operand;
      - `Custom(opcode, operands)` applies a library reservoir to symbols. */
  datatype Expr =
    | Let(names: seq<string>, value: Option<Expr>)
    | Input(names: seq<string>)
    | Ret(names: seq<string>)
    | Custom(opcode: string, operands: seq<string>)

  /** An entry of the opcode library `rnn_lib`: input and output arity, and
      the reservoir template that `Reservoir.load` gives for it. */
  datatype LibEntry = LibEntry(inDim: int, outDim: int, template: string)
  type Library = map<string, LibEntry>

  /** The exceptions compilation can raise: the failed library assertion, and
      reading `.name` of a LET value that is not a reservoir. */
  datatype CompileError = UnknownOpcode(opcode: string) | NotAReservoir

  /** What the compiler has built so far: the graph, the declared inputs and
      the shared reservoir counter.  (`self.vars` is never written and stays
      empty.) */
  datatype CoreState = CoreState(graph: GraphView, inps: set<string>, uid: nat)

  /** The value of one statement: the reservoir it instantiated, if any, or
      the exception it raised. */
  type Outcome = Result<Option<string>, CompileError>

  /** The result of compiling a program: the final state, and the exception
      that stopped it, if one did. */
  datatype Compiled = Compiled(state: CoreState, failure: Option<CompileError>)

  function DigitChar(d: nat): (c: char)
    requires d < 10
    ensures '0' <= c <= '9'
  {
    (48 + d) as char
  }

  /** Python's `str(n)` for a natural number: its decimal digits, most
      significant first, without leading zeros. */
  function Decimal(n: nat): (s: string)
    ensures |s| >= 1 && forall i :: 0 <= i < |s| ==> '0' <= s[i] <= '9'
    ensures |s| == 1 <==> n < 10
    ensures s[0] == '0' ==> n == 0
    decreases n
  {
    if n < 10 then [DigitChar(n)] else Decimal(n / 10) + [DigitChar(n % 10)]
  }

  /** The name `_generate_uid` gives the k-th reservoir: `f"res_{k}"`. */
  function UidName(k: nat): (name: string)
    ensures |name| > 4 && name[..4] == "res_"
  {
    "res_" + Decimal(k)
  }

  function Elems(names: seq<string>): set<string> {
    set x | x in names
  }

  lemma ElemsExtend(names: seq<string>, i: nat)
    requires i < |names|
    ensures Elems(names[..i + 1]) == Elems(names[..i]) + {names[i]}
  {
    assert names[..i + 1] == names[..i] + [names[i]];
  }

  /** The LET bindings of a reservoir's outputs: `res -> names[i]` with
      `out_idx = i`, in name order. */
  function OutEdges(res: string, names: seq<string>): (es: seq<Edge>)
    ensures |es| == |names|
  {
    if |names| == 0 then []
    else OutEdges(res, names[..|names| - 1]) + [Edge(res, names[|names| - 1], None, Some(|names| - 1))]
  }

  /** The operand wiring of a reservoir: `ops[i] -> res` with `in_idx = i`,
      in operand order. */
  function InEdges(ops: seq<string>, res: string): (es: seq<Edge>)
    ensures |es| == |ops|
  {
    if |ops| == 0 then []
    else InEdges(ops[..|ops| - 1], res) + [Edge(ops[|ops| - 1], res, Some(|ops| - 1), None)]
  }

  /** `_process_expr` and the handlers it dispatches to. */
  function ProcessSpec(lib: Library, e: Expr, s: CoreState): (CoreState, Outcome)
    decreases e
  {
    match e
    case Let(names, None) =>
      (s.(graph := s.graph.(vars := s.graph.vars + Elems(names))), Ok(None))
    case Let(names, Some(v)) =>
      var (s1, out) := ProcessSpec(lib, v, s);
      if out.Err? then (s1, out)
      else if out.value.None? then
        // `res` is None: the first binding adds its var, then `res.name` raises
        if |names| == 0 then (s1, Ok(None))
        else (s1.(graph := s1.graph.(vars := s1.graph.vars + {names[0]})), Err(NotAReservoir))
      else
        var g := s1.graph;
        (s1.(graph := g.(vars := g.vars + Elems(names), edges := g.edges + OutEdges(out.value.value, names))), Ok(None))
    case Input(names) =>
      (s.(inps := s.inps + Elems(names), graph := s.graph.(inputs := s.graph.inputs + Elems(names))), Ok(None))
    case Ret(names) =>
      (s.(graph := s.graph.(rets := s.graph.rets + Elems(names))), Ok(None))
    case Custom(op, operands) =>
      if op !in lib then (s, Err(UnknownOpcode(op)))
      else
        var name := UidName(s.uid + 1);
        var g := s.graph;
        (CoreState(g.(reservoirs := g.reservoirs[name := lib[op].template], edges := g.edges + InEdges(operands, name)),
                   s.inps, s.uid + 1),
         Ok(Some(name)))
  }

  /** `compile_to_cgraph`: the statements in program order, stopping at the
      first exception. */
  function CompileSpec(lib: Library, prog: seq<Expr>, s: CoreState): Compiled
    decreases |prog|
  {
    if |prog| == 0 then Compiled(s, None)
    else
      var (s1, out) := ProcessSpec(lib, prog[0], s);
      if out.Err? then Compiled(s1, Some(out.error)) else CompileSpec(lib, prog[1..], s1)
  }
}
