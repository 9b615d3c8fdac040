/** The computation graph the compiler emits, seen only through the five
    operations the compiler calls on it (`add_var`, `add_input`,
    `add_reservoir`, `add_edge`, `make_return`).  The graph is a multigraph:
    names carry node kinds (var, input, reservoir, return) and edges are kept
    in the order they were added, each with an optional input port `in_idx`
    and an optional output port `out_idx`.  The graph library's own storage
    is not part of this model. */
module Graph {
  import opened Wrappers

  /** One edge src -> dst with its port labels. */
  datatype Edge = Edge(src: string, dst: string, inIdx: Option<nat>, outIdx: Option<nat>)

  /** The observable content of a graph.  A reservoir node is recorded with
      the template it was instantiated from. */
  datatype GraphView = GraphView(
    vars: set<string>,
    inputs: set<string>,
    reservoirs: map<string, string>,
    rets: set<string>,
    edges: seq<Edge>)

  const Empty := GraphView({}, {}, map[], {}, [])

  class CGraph {
    var vars: set<string>
    var inputs: set<string>
    var reservoirs: map<string, string>
    var rets: set<string>
    var edges: seq<Edge>

    function View(): GraphView
      reads this
    {
      GraphView(vars, inputs, reservoirs, rets, edges)
    }

    constructor ()
      ensures View() == Empty
    {
      vars, inputs, reservoirs, rets, edges := {}, {}, map[], {}, [];
    }

    /** `add_var(name)`: name becomes a var node. */
    method AddVar(name: string)
      modifies this
      ensures View() == old(View()).(vars := old(vars) + {name})
    {
      vars := vars + {name};
    }

    /** `add_input(name)`: name becomes an input node. */
    method AddInput(name: string)
      modifies this
      ensures View() == old(View()).(inputs := old(inputs) + {name})
    {
      inputs := inputs + {name};
    }

    /** `add_reservoir(name, reservoir=res)`: name becomes a reservoir node
        holding an instance of the given template. */
    method AddReservoir(name: string, template: string)
      modifies this
      ensures View() == old(View()).(reservoirs := old(reservoirs)[name := template])
    {
      reservoirs := reservoirs[name := template];
    }

    /** `add_edge(src, dst, in_idx=…, out_idx=…)`: one more edge, after all
        existing ones. */
    method AddEdge(src: string, dst: string, inIdx: Option<nat>, outIdx: Option<nat>)
      modifies this
      ensures View() == old(View()).(edges := old(edges) + [Edge(src, dst, inIdx, outIdx)])
    {
      edges := edges + [Edge(src, dst, inIdx, outIdx)];
    }

    /** `make_return(name)`: name is marked as a returned value. */
    method MakeReturn(name: string)
      modifies this
      ensures View() == old(View()).(rets := old(rets) + {name})
    {
      rets := rets + {name};
    }
  }
}
