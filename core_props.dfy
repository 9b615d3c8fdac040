/** What the compiler of src/ir/core.py promises, proved of the functions in
    module CoreSpec: reservoir names are distinct, each custom opcode adds one
    fresh reservoir and one edge per operand with its port, programs run in
    order, success does not depend on declarations, and the graph keeps its
    port labelling. */
module CoreProps {
  import opened Wrappers
  import opened Graph
  import opened CoreSpec

  // ---------------------------------------------------------------------------
  // Reservoir names

  /** Reading a string of decimal digits back as a number. */
  function DecimalValue(s: string): (n: nat)
    requires forall i :: 0 <= i < |s| ==> '0' <= s[i] <= '9'
  {
    if |s| == 0 then 0 else 10 * DecimalValue(s[..|s| - 1]) + ((s[|s| - 1] as int) - 48)
  }

  lemma {:induction false} DecimalRoundTrip(n: nat)
    ensures DecimalValue(Decimal(n)) == n
    decreases n
  {
    if n >= 10 {
      var s := Decimal(n);
      DecimalRoundTrip(n / 10);
      assert s[..|s| - 1] == Decimal(n / 10);
    }
  }

  /** `_generate_uid` never gives two counter values the same name. */
  lemma UidNameInjective(a: nat, b: nat)
    ensures UidName(a) == UidName(b) <==> a == b
  {
    if UidName(a) == UidName(b) {
      assert Decimal(a) == UidName(a)[4..];
      assert Decimal(b) == UidName(b)[4..];
      DecimalRoundTrip(a);
      DecimalRoundTrip(b);
    }
  }

  /** No reservoir has yet been given the name of a counter value beyond the
      current one. */
  ghost predicate Fresh(s: CoreState) {
    forall k: nat :: k > s.uid ==> UidName(k) !in s.graph.reservoirs
  }

  // ---------------------------------------------------------------------------
  // Edges

  lemma {:induction false} InEdgesAt(ops: seq<string>, res: string, i: nat)
    requires i < |ops|
    ensures InEdges(ops, res)[i] == Edge(ops[i], res, Some(i), None)
    decreases |ops|
  {
    if i < |ops| - 1 {
      InEdgesAt(ops[..|ops| - 1], res, i);
    }
  }

  lemma {:induction false} OutEdgesAt(res: string, names: seq<string>, i: nat)
    requires i < |names|
    ensures OutEdges(res, names)[i] == Edge(res, names[i], None, Some(i))
    decreases |names|
  {
    if i < |names| - 1 {
      OutEdgesAt(res, names[..|names| - 1], i);
    }
  }

  /** Every edge carries exactly one port label: an edge with an input port
      ends at a reservoir, an edge with an output port starts at one. */
  predicate Labelled(g: GraphView) {
    forall e :: e in g.edges ==>
      (e.inIdx.Some? != e.outIdx.Some?) &&
      (e.inIdx.Some? ==> e.dst in g.reservoirs) &&
      (e.outIdx.Some? ==> e.src in g.reservoirs)
  }

  // ---------------------------------------------------------------------------
  // One statement

  /** A custom opcode of the library adds exactly one reservoir, under a name
      no reservoir had, holding the opcode's template, and wires operand i to
      it with `in_idx = i`; the counter moves by one and nothing else changes. */
  lemma CustomAddsFreshReservoir(lib: Library, op: string, operands: seq<string>, s: CoreState)
    requires op in lib && Fresh(s)
    ensures var (s', out) := ProcessSpec(lib, Custom(op, operands), s);
      var name := UidName(s.uid + 1);
      out == Ok(Some(name)) &&
      name !in s.graph.reservoirs &&
      s'.graph.reservoirs == s.graph.reservoirs[name := lib[op].template] &&
      |s'.graph.reservoirs| == |s.graph.reservoirs| + 1 &&
      |s'.graph.edges| == |s.graph.edges| + |operands| &&
      s'.graph.edges[..|s.graph.edges|] == s.graph.edges &&
      (forall i :: 0 <= i < |operands| ==>
        s'.graph.edges[|s.graph.edges| + i] == Edge(operands[i], name, Some(i), None)) &&
      s'.uid == s.uid + 1 && Fresh(s') &&
      s'.inps == s.inps && s'.graph.vars == s.graph.vars &&
      s'.graph.inputs == s.graph.inputs && s'.graph.rets == s.graph.rets
  {
    var (s', out) := ProcessSpec(lib, Custom(op, operands), s);
    var name := UidName(s.uid + 1);
    forall i | 0 <= i < |operands|
      ensures s'.graph.edges[|s.graph.edges| + i] == Edge(operands[i], name, Some(i), None)
    {
      InEdgesAt(operands, name, i);
    }
    forall k: nat | k > s'.uid ensures UidName(k) !in s'.graph.reservoirs {
      UidNameInjective(k, s.uid + 1);
    }
  }

  /** An opcode missing from the library raises before anything changes. */
  lemma UnknownOpcodeChangesNothing(lib: Library, op: string, operands: seq<string>, s: CoreState)
    requires op !in lib
    ensures ProcessSpec(lib, Custom(op, operands), s) == (s, Err(UnknownOpcode(op)))
  {
  }

  /** A LET with a reservoir value declares each name and binds it to the
      reservoir output of the same position with `out_idx = i`, after the
      value's own edges. */
  lemma LetBindsOutputs(lib: Library, names: seq<string>, op: string, operands: seq<string>, s: CoreState)
    requires op in lib
    ensures var (s1, _) := ProcessSpec(lib, Custom(op, operands), s);
      var (s', out) := ProcessSpec(lib, Let(names, Some(Custom(op, operands))), s);
      var name := UidName(s.uid + 1);
      out == Ok(None) &&
      s'.graph.vars == s.graph.vars + Elems(names) &&
      |s'.graph.edges| == |s1.graph.edges| + |names| &&
      s'.graph.edges[..|s1.graph.edges|] == s1.graph.edges &&
      forall i :: 0 <= i < |names| ==>
        s'.graph.edges[|s1.graph.edges| + i] == Edge(name, names[i], None, Some(i))
  {
    var (s1, _) := ProcessSpec(lib, Custom(op, operands), s);
    var name := UidName(s.uid + 1);
    var (s', _) := ProcessSpec(lib, Let(names, Some(Custom(op, operands))), s);
    forall i | 0 <= i < |names|
      ensures s'.graph.edges[|s1.graph.edges| + i] == Edge(name, names[i], None, Some(i))
    {
      OutEdgesAt(name, names, i);
    }
  }

  /** How many reservoirs a statement instantiates. */
  function Customs(e: Expr): nat {
    match e
    case Custom(_, _) => 1
    case Let(_, Some(v)) => Customs(v)
    case _ => 0
  }

  /** How many edges a statement adds when it succeeds. */
  function Wires(e: Expr): nat {
    match e
    case Custom(_, ops) => |ops|
    case Let(names, Some(v)) => Wires(v) + |names|
    case _ => 0
  }

  /** The statements that compile: a library opcode, and a LET whose value
      compiles and, when it binds names, is a reservoir.  Whether the symbols
      are declared plays no part. */
  predicate Compilable(lib: Library, e: Expr) {
    match e
    case Custom(op, _) => op in lib
    case Let(names, Some(v)) => Compilable(lib, v) && (v.Custom? || |names| == 0)
    case _ => true
  }

  /** A statement never removes anything: edges are only appended, reservoirs
      only added, the counter only grows; and every reservoir it adds is named
      after a counter value it passed. */
  lemma {:induction false} ProcessGrows(lib: Library, e: Expr, s: CoreState)
    ensures var (s', _) := ProcessSpec(lib, e, s);
      s.uid <= s'.uid &&
      |s.graph.edges| <= |s'.graph.edges| && s'.graph.edges[..|s.graph.edges|] == s.graph.edges &&
      s.graph.reservoirs.Keys <= s'.graph.reservoirs.Keys &&
      (forall name :: name in s'.graph.reservoirs && name !in s.graph.reservoirs ==>
        name == UidName(s'.uid) && s'.uid == s.uid + 1)
    decreases e
  {
    match e
    case Let(names, Some(v)) =>
      ProcessGrows(lib, v, s);
    case _ =>
  }

  /** A statement succeeds exactly when it is `Compilable`, and then moves the
      counter by `Customs(e)` and adds `Wires(e)` edges. */
  lemma {:induction false} ProcessSucceedsIff(lib: Library, e: Expr, s: CoreState)
    ensures var (s', out) := ProcessSpec(lib, e, s);
      (out.Ok? <==> Compilable(lib, e)) &&
      (out.Ok? ==> s'.uid == s.uid + Customs(e) && |s'.graph.edges| == |s.graph.edges| + Wires(e)) &&
      (out.Ok? && out.value.Some? <==> Compilable(lib, e) && e.Custom?)
    decreases e
  {
    match e
    case Let(names, Some(v)) =>
      ProcessSucceedsIff(lib, v, s);
    case _ =>
  }

  /** The reservoir a statement returns is a node of the new graph. */
  lemma ProcessNamesReservoir(lib: Library, e: Expr, s: CoreState)
    ensures var (s', out) := ProcessSpec(lib, e, s);
      out.Ok? && out.value.Some? ==> out.value.value in s'.graph.reservoirs
  {
  }

  /** Each statement keeps the reservoir names fresh and every edge labelled
      with exactly one port. */
  lemma {:induction false} ProcessKeepsInvariants(lib: Library, e: Expr, s: CoreState)
    requires Fresh(s) && Labelled(s.graph)
    ensures Fresh(ProcessSpec(lib, e, s).0) && Labelled(ProcessSpec(lib, e, s).0.graph)
    decreases e
  {
    var (s', out) := ProcessSpec(lib, e, s);
    match e
    case Custom(op, operands) =>
      if op in lib {
        CustomAddsFreshReservoir(lib, op, operands, s);
        var name := UidName(s.uid + 1);
        forall ed | ed in s'.graph.edges
          ensures (ed.inIdx.Some? != ed.outIdx.Some?) && (ed.inIdx.Some? ==> ed.dst in s'.graph.reservoirs)
            && (ed.outIdx.Some? ==> ed.src in s'.graph.reservoirs)
        {
          var j :| 0 <= j < |s'.graph.edges| && s'.graph.edges[j] == ed;
          if j >= |s.graph.edges| {
            InEdgesAt(operands, name, j - |s.graph.edges|);
          } else {
            assert ed in s.graph.edges by {
              assert s.graph.edges[j] == s'.graph.edges[..|s.graph.edges|][j];
            }
          }
        }
      }
    case Let(names, Some(v)) =>
      ProcessKeepsInvariants(lib, v, s);
      var (s1, out1) := ProcessSpec(lib, v, s);
      ProcessNamesReservoir(lib, v, s);
      if out1.Ok? && out1.value.Some? {
        var name := out1.value.value;
        forall ed | ed in s'.graph.edges
          ensures (ed.inIdx.Some? != ed.outIdx.Some?) && (ed.inIdx.Some? ==> ed.dst in s'.graph.reservoirs)
            && (ed.outIdx.Some? ==> ed.src in s'.graph.reservoirs)
        {
          var j :| 0 <= j < |s'.graph.edges| && s'.graph.edges[j] == ed;
          if j >= |s1.graph.edges| {
            OutEdgesAt(name, names, j - |s1.graph.edges|);
          } else {
            assert ed in s1.graph.edges by {
              assert s1.graph.edges[j] == s'.graph.edges[..|s1.graph.edges|][j];
            }
          }
        }
      }
    case _ =>
  }

  /** The outcome of a statement depends on the counter alone, not on which
      symbols are declared or what the graph holds: an undeclared operand
      never makes compilation fail. */
  lemma {:induction false} OutcomeIgnoresDeclarations(lib: Library, e: Expr, s: CoreState, t: CoreState)
    requires s.uid == t.uid
    ensures ProcessSpec(lib, e, s).1 == ProcessSpec(lib, e, t).1
    ensures ProcessSpec(lib, e, s).0.uid == ProcessSpec(lib, e, t).0.uid
    decreases e
  {
    match e
    case Let(names, Some(v)) =>
      OutcomeIgnoresDeclarations(lib, v, s, t);
    case _ =>
  }

  // ---------------------------------------------------------------------------
  // Whole programs

  function TotalCustoms(prog: seq<Expr>): nat {
    if |prog| == 0 then 0 else Customs(prog[0]) + TotalCustoms(prog[1..])
  }

  function TotalWires(prog: seq<Expr>): nat {
    if |prog| == 0 then 0 else Wires(prog[0]) + TotalWires(prog[1..])
  }

  /** Compiling p1 + p2 is compiling p1 and then, unless p1 raised, p2 from
      where p1 left off: statements run strictly in program order. */
  lemma {:induction false} CompileAppend(lib: Library, p1: seq<Expr>, p2: seq<Expr>, s: CoreState)
    ensures CompileSpec(lib, p1 + p2, s) ==
      var c := CompileSpec(lib, p1, s);
      if c.failure.Some? then c else CompileSpec(lib, p2, c.state)
    decreases |p1|
  {
    if |p1| > 0 {
      assert (p1 + p2)[0] == p1[0];
      assert (p1 + p2)[1..] == p1[1..] + p2;
      var (s1, out) := ProcessSpec(lib, p1[0], s);
      if out.Ok? {
        CompileAppend(lib, p1[1..], p2, s1);
      }
    } else {
      assert p1 + p2 == p2;
    }
  }

  /** A program compiles exactly when each of its statements is `Compilable`;
      it then has moved the counter by the number of custom opcodes and added
      one edge per operand and per LET binding. */
  lemma {:induction false} CompileSucceedsIff(lib: Library, prog: seq<Expr>, s: CoreState)
    ensures var c := CompileSpec(lib, prog, s);
      (c.failure.None? <==> forall i :: 0 <= i < |prog| ==> Compilable(lib, prog[i])) &&
      (c.failure.None? ==>
        c.state.uid == s.uid + TotalCustoms(prog) &&
        |c.state.graph.edges| == |s.graph.edges| + TotalWires(prog))
    decreases |prog|
  {
    if |prog| > 0 {
      ProcessSucceedsIff(lib, prog[0], s);
      var (s1, out) := ProcessSpec(lib, prog[0], s);
      CompileSucceedsIff(lib, prog[1..], s1);
      if forall i :: 0 <= i < |prog| - 1 ==> Compilable(lib, prog[1..][i]) {
        assert forall i :: 1 <= i < |prog| ==> Compilable(lib, prog[i]) by {
          forall i | 1 <= i < |prog| ensures Compilable(lib, prog[i]) {
            assert prog[i] == prog[1..][i - 1];
          }
        }
      }
    }
  }

  /** Compilation keeps the reservoir names fresh and every edge labelled
      with exactly one port, whether it succeeds or stops early. */
  lemma {:induction false} CompileKeepsInvariants(lib: Library, prog: seq<Expr>, s: CoreState)
    requires Fresh(s) && Labelled(s.graph)
    ensures Fresh(CompileSpec(lib, prog, s).state) && Labelled(CompileSpec(lib, prog, s).state.graph)
    decreases |prog|
  {
    if |prog| > 0 {
      ProcessKeepsInvariants(lib, prog[0], s);
      CompileSpec1(lib, prog, s);
      CompileKeepsInvariants(lib, prog[1..], ProcessSpec(lib, prog[0], s).0);
    }
  }

  /** One unfolding of `CompileSpec`. */
  lemma CompileSpec1(lib: Library, prog: seq<Expr>, s: CoreState)
    requires |prog| > 0
    ensures var (s1, out) := ProcessSpec(lib, prog[0], s);
      CompileSpec(lib, prog, s) == if out.Err? then Compiled(s1, Some(out.error)) else CompileSpec(lib, prog[1..], s1)
  {
  }

  /** Compilation never removes anything, and each reservoir it adds is named
      after a counter value it passed. */
  lemma {:induction false} CompileGrows(lib: Library, prog: seq<Expr>, s: CoreState)
    ensures var s' := CompileSpec(lib, prog, s).state;
      s.uid <= s'.uid &&
      |s.graph.edges| <= |s'.graph.edges| && s'.graph.edges[..|s.graph.edges|] == s.graph.edges &&
      s.graph.reservoirs.Keys <= s'.graph.reservoirs.Keys &&
      (forall name :: name in s'.graph.reservoirs && name !in s.graph.reservoirs ==>
        exists k :: s.uid < k <= s'.uid && name == UidName(k))
    decreases |prog|
  {
    if |prog| > 0 {
      ProcessGrows(lib, prog[0], s);
      var (s1, out) := ProcessSpec(lib, prog[0], s);
      if out.Ok? {
        CompileGrows(lib, prog[1..], s1);
        var s' := CompileSpec(lib, prog, s).state;
        assert s'.graph.edges[..|s.graph.edges|] == s'.graph.edges[..|s1.graph.edges|][..|s.graph.edges|];
        forall name | name in s'.graph.reservoirs && name !in s.graph.reservoirs
          ensures exists k :: s.uid < k <= s'.uid && name == UidName(k)
        {
          if name in s1.graph.reservoirs {
            assert s.uid < s1.uid <= s'.uid && name == UidName(s1.uid);
          }
        }
      }
    }
  }

  /** Two compilers that share the counter and compile one after the other,
      each into its own empty graph, name no reservoir alike: reservoir names
      are unique across instances. */
  lemma InstancesShareNoName(lib: Library, p1: seq<Expr>, p2: seq<Expr>, s1: CoreState, s2: CoreState)
    requires s1.graph.reservoirs == map[] && s2.graph.reservoirs == map[]
    requires s2.uid == CompileSpec(lib, p1, s1).state.uid
    ensures CompileSpec(lib, p1, s1).state.graph.reservoirs.Keys !! CompileSpec(lib, p2, s2).state.graph.reservoirs.Keys
  {
    var a := CompileSpec(lib, p1, s1).state;
    var b := CompileSpec(lib, p2, s2).state;
    CompileGrows(lib, p1, s1);
    CompileGrows(lib, p2, s2);
    forall name | name in a.graph.reservoirs && name in b.graph.reservoirs ensures false {
      var i :| s1.uid < i <= a.uid && name == UidName(i);
      var j :| s2.uid < j <= b.uid && name == UidName(j);
      UidNameInjective(i, j);
    }
  }
}
