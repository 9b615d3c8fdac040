/** The compiler class `Core` of src/ir/core.py: it walks a program statement
    by statement and mutates its graph, its set of declared inputs and the
    reservoir counter shared by all instances.  Every method is proved to
    have exactly the effect that module CoreSpec gives it. */
module IrCore {
  import opened Wrappers
  import opened Graph
  import opened CoreSpec

  /** The class attribute `Core.uid`: one counter that every compiler
      instance reads and increments. */
  class UidCounter {
    var uid: nat

    constructor ()
      ensures uid == 0
    {
      uid := 0;
    }
  }

  class Core {
    const graph: CGraph
    /** The declared variables: created empty and never written. */
    const vars: set<string>
    var inps: set<string>
    const prog: seq<Expr>
    /** The opcode library `rnn_lib` with its reservoir templates. */
    const lib: Library
    const counter: UidCounter

    function State(): CoreState
      reads this, graph, counter
    {
      CoreState(graph.View(), inps, counter.uid)
    }

    constructor (prog: seq<Expr>, lib: Library, counter: UidCounter)
      ensures fresh(graph) && graph.View() == Empty
      ensures vars == {} && inps == {}
      ensures this.prog == prog && this.lib == lib && this.counter == counter
    {
      graph := new CGraph();
      vars := {};
      inps := {};
      this.prog := prog;
      this.lib := lib;
      this.counter := counter;
    }

    /** `compile_to_cgraph`: every statement in program order; on success the
        graph object itself is returned. */
    method CompileToCGraph() returns (r: Result<CGraph, CompileError>)
      modifies this, graph, counter
      ensures var c := CompileSpec(lib, prog, old(State()));
        State() == c.state &&
        (if c.failure.None? then r == Ok(graph) else r == Err(c.failure.value))
    {
      ghost var s0 := old(State());
      var i := 0;
      while i < |prog|
        invariant i <= |prog|
        invariant CompileSpec(lib, prog, s0) == CompileSpec(lib, prog[i..], State())
      {
        assert prog[i..][1..] == prog[i + 1..];
        var out := ProcessExpr(prog[i]);
        if out.Err? {
          return Err(out.error);
        }
        i := i + 1;
      }
      return Ok(graph);
    }

    /** `_process_expr`: dispatch on the opcode. */
    method ProcessExpr(e: Expr) returns (r: Outcome)
      modifies this, graph, counter
      ensures (State(), r) == ProcessSpec(lib, e, old(State()))
      decreases e, 1
    {
      match e
      case Let(names, value) =>
        r := HandleLet(names, value);
      case Input(names) =>
        HandleInput(names);
        r := Ok(None);
      case Ret(names) =>
        HandleRet(names);
        r := Ok(None);
      case Custom(op, operands) =>
        r := HandleCustomOpcode(op, operands);
    }

    /** `_handle_let`: with one operand, declare each name; with a value,
        process the value first, then declare each name and bind it to the
        value's output of the same position. */
    method HandleLet(names: seq<string>, value: Option<Expr>) returns (r: Outcome)
      modifies this, graph, counter
      ensures (State(), r) == ProcessSpec(lib, Let(names, value), old(State()))
      decreases Let(names, value), 0
    {
      ghost var s0 := State();
      if value.None? {
        var i := 0;
        while i < |names|
          invariant i <= |names|
          invariant inps == s0.inps && counter.uid == s0.uid
          invariant graph.View() == s0.graph.(vars := s0.graph.vars + Elems(names[..i]))
        {
          ElemsExtend(names, i);
          graph.AddVar(names[i]);
          i := i + 1;
        }
        assert names[..i] == names;
        return Ok(None);
      }
      var res := ProcessExpr(value.value);
      if res.Err? {
        return res;
      }
      ghost var s1 := State();
      var i := 0;
      while i < |names|
        invariant i <= |names|
        invariant res.value.None? ==> i == 0
        invariant inps == s1.inps && counter.uid == s1.uid
        invariant graph.inputs == s1.graph.inputs && graph.reservoirs == s1.graph.reservoirs
        invariant graph.rets == s1.graph.rets
        invariant graph.vars == s1.graph.vars + Elems(names[..i])
        invariant res.value.Some? ==> graph.edges == s1.graph.edges + OutEdges(res.value.value, names[..i])
        invariant res.value.None? ==> graph.edges == s1.graph.edges
      {
        ElemsExtend(names, i);
        graph.AddVar(names[i]);
        if res.value.None? {
          // `res.name` of a value that is not a reservoir
          return Err(NotAReservoir);
        }
        assert names[..i + 1][..i] == names[..i];
        graph.AddEdge(res.value.value, names[i], None, Some(i));
        i := i + 1;
      }
      assert names[..i] == names;
      return Ok(None);
    }

    /** `_handle_input`: each name becomes a declared input and a graph input. */
    method HandleInput(names: seq<string>)
      modifies this, graph
      ensures (State(), Ok(None)) == ProcessSpec(lib, Input(names), old(State()))
    {
      ghost var s0 := State();
      var i := 0;
      while i < |names|
        invariant i <= |names|
        invariant inps == s0.inps + Elems(names[..i]) && counter.uid == s0.uid
        invariant graph.View() == s0.graph.(inputs := s0.graph.inputs + Elems(names[..i]))
      {
        ElemsExtend(names, i);
        inps := inps + {names[i]};
        graph.AddInput(names[i]);
        i := i + 1;
      }
      assert names[..i] == names;
    }

    /** `_handle_ret`: each name is marked as a return. */
    method HandleRet(names: seq<string>)
      modifies graph
      ensures (State(), Ok(None)) == ProcessSpec(lib, Ret(names), old(State()))
    {
      ghost var s0 := State();
      var i := 0;
      while i < |names|
        invariant i <= |names|
        invariant State() == s0.(graph := s0.graph.(rets := s0.graph.rets + Elems(names[..i])))
      {
        ElemsExtend(names, i);
        graph.MakeReturn(names[i]);
        i := i + 1;
      }
      assert names[..i] == names;
    }

    /** `_handle_custom_opcode`: a library opcode becomes one fresh reservoir
        node wired to its operands in order; an unknown opcode fails before
        anything changes.  An operand that is neither a declared input nor a
        declared variable is still wired: the error object the source builds
        for it is never raised. */
    method HandleCustomOpcode(op: string, operands: seq<string>) returns (r: Outcome)
      modifies graph, counter
      ensures (State(), r) == ProcessSpec(lib, Custom(op, operands), old(State()))
    {
      if op !in lib {
        return Err(UnknownOpcode(op));
      }
      var template := lib[op].template;
      var name := GenerateUid();
      graph.AddReservoir(name, template);
      ghost var s1 := State();
      var i := 0;
      while i < |operands|
        invariant i <= |operands|
        invariant State() == s1.(graph := s1.graph.(edges := s1.graph.edges + InEdges(operands[..i], name)))
      {
        var sym := operands[i];
        if sym !in inps && sym !in vars {
          // an undefined symbol: nothing is raised
        }
        assert operands[..i + 1][..i] == operands[..i];
        graph.AddEdge(sym, name, Some(i), None);
        i := i + 1;
      }
      assert operands[..i] == operands;
      return Ok(Some(name));
    }

    /** `_generate_uid`: increment the shared counter and name the reservoir
        after its new value. */
    method GenerateUid() returns (name: string)
      modifies counter
      ensures counter.uid == old(counter.uid) + 1
      ensures name == UidName(counter.uid)
    {
      counter.uid := counter.uid + 1;
      name := "res_" + Decimal(counter.uid);
    }
  }
}
