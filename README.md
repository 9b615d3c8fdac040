# Reservoir compiler core, modelled in Dafny

This project models two parts of the reservoir compiler.

The first is the compiler `Core` of `src/ir/core.py`. It turns an IR program into a computation graph:
- it walks the statements in order and dispatches on the opcodes LET, INPUT and RET, or on a custom opcode;
- it records declared inputs;
- for every custom opcode it instantiates one reservoir node from the opcode library, named `res_<k>` after a class-wide counter;
- it wires operands and LET bindings with port-labelled edges (`in_idx`, `out_idx`).

The second is the reservoir runtime: the newer `Reservoir` of `src/_prnn/reservoir.py` and the older one of `src/reservoir.py`. Both integrate the ODE `dr/dt = gamma (-r + tanh(A r + B x + d))` with a four-stage step (`propagate`). They record a trajectory of states column by column (`run`, `run4input`) and read it out through a matrix W.

Modules, one per file:

| file | module | models |
|---|---|---|
| `wrappers.dfy` | `Wrappers` | `Option` and `Result`, used for Python's `None` and for raised exceptions |
| `cgraph.dfy` | `Graph` | the five graph operations the compiler calls, on a class `CGraph` |
| `core_spec.dfy` | `CoreSpec` | what each statement and each program does to the compiler state, as functions |
| `ir_core.dfy` | `IrCore` | the class `Core` itself, with methods proved to follow `CoreSpec` |
| `core_props.dfy` | `CoreProps` | what the compiler promises, proved of `CoreSpec` |
| `linalg.dfy` | `Linalg` | vectors and matrices over `real`, and the numpy operations used |
| `dynamics.dfy` | `Dynamics` | `del_r`, the four-stage `propagate`, the derived bias, trajectories |
| `prnn_reservoir.dfy` | `PrnnReservoir` | the class `Reservoir` of `src/_prnn/reservoir.py` |
| `legacy_reservoir.dfy` | `LegacyReservoir` | the class `Reservoir` of `src/reservoir.py` |

Modelling choices:
- `tanh` and `arctanh` are function parameters with no numeric content.
- Numbers are `real`, so there is no floating-point rounding.
- The opcode library `rnn_lib`, together with `Reservoir.load`, is a read-only map from opcode to (input arity, output arity, template). A reservoir node records the template it was instantiated from.
- The class attribute `Core.uid` is a `UidCounter` object passed to the `Core` constructor. To model the class attribute, callers must pass the same counter to every `Core`; the constructor itself accepts any counter, and `CoreProps.InstancesShareNoName` is the lemma that assumes the sharing.
- An exception that the source raises is an `Err`/`Raised` result. The state mutated before the raise is kept, as in Python.

## Notes on the code as written

The model follows the code where it differs from what its names or comments suggest:
- `propagate` combines the stages as `r + (k1 + 2 k2 + 2 (k3 + k4)) / 6` (src/_prnn/reservoir.py:200, src/reservoir.py:54). So the fourth stage has weight 2, not the weight 1 of classical Runge-Kutta. `Dynamics.CombineUniformSlope` shows that equal slopes k move the state by 7/6 k.
- An undeclared operand of a custom opcode does not stop compilation (src/ir/core.py:110-111). The `ValueError` is built but never raised, and `self.vars` is never filled. `CoreProps.OutcomeIgnoresDeclarations` states that success never depends on declarations.
- A statement that raises leaves the graph as far as it got. For example, with `verbose` off, a LET whose value is not a reservoir has already added its first name as a var (src/ir/core.py:57-66).
- `run` and `run4input` record `nx` columns but step only `nx - 1` times, so the last input column is never read (src/_prnn/reservoir.py:247-253). `Dynamics.TrajectoryIgnoresLastInput` proves this.
- The older runtime always starts `r` at zero, whatever `r_init` is (src/reservoir.py:23).
- The guard of `doubleOutput`, `idx <= 0 and idx > W.shape[0]`, holds for no index (src/_prnn/reservoir.py:358). The errors that remain come from Python and numpy. A missing W raises `AttributeError` from `self.W.shape` when idx <= 0, and `TypeError` from `self.W[idx, :]` otherwise (src/_prnn/reservoir.py:358, 360). An index outside W raises numpy's `IndexError`.
- `run4input` returns its `ValueError` for a missing W instead of raising it (src/reservoir.py:60).

## Model

| member | source | states |
|---|---|---|
| Graph.CGraph.AddVar | src/ir/core.py:50 | `add_var` adds the name to the var nodes and changes nothing else |
| Graph.CGraph.AddInput | src/ir/core.py:75 | `add_input` adds the name to the input nodes and changes nothing else |
| Graph.CGraph.AddReservoir | src/ir/core.py:100 | `add_reservoir` maps the name to its template and changes nothing else |
| Graph.CGraph.AddEdge | src/ir/core.py:112 | `add_edge` appends one edge with its ports after all existing edges |
| Graph.CGraph.MakeReturn | src/ir/core.py:83 | `make_return` marks the name as returned and changes nothing else |
| IrCore.UidCounter.constructor | src/ir/core.py:13 | the class-wide counter starts at 0 |
| IrCore.Core.constructor | src/ir/core.py:15-20 | a new compiler has a fresh empty graph, no declared inputs or vars, and the given program, library and shared counter |
| IrCore.Core.CompileToCGraph | src/ir/core.py:22-32 | the statements run in program order, and the state afterwards is that of `CompileSpec`; the graph object itself is returned, or the exception of the first failing statement |
| IrCore.Core.ProcessExpr | src/ir/core.py:34-45 | dispatch on the opcode has exactly the effect and value of `ProcessSpec` |
| IrCore.Core.HandleLet | src/ir/core.py:47-67 | a one-operand LET declares each name; otherwise the value is processed first, then each name gets a var node and an edge `res -> name` with `out_idx = i`; a non-reservoir value raises after the first var |
| IrCore.Core.HandleInput | src/ir/core.py:69-77 | every name joins the declared inputs and the graph inputs |
| IrCore.Core.HandleRet | src/ir/core.py:79-85 | every name is marked as returned |
| IrCore.Core.HandleCustomOpcode | src/ir/core.py:87-117 | an unknown opcode raises with nothing changed; a library opcode adds one reservoir `res_<uid+1>` and one edge per operand in order, with `in_idx = i`, whether or not the operand is declared |
| IrCore.Core.GenerateUid | src/ir/core.py:119-127 | the counter goes up by one and the name is `res_` followed by its new value |
| CoreSpec.Decimal | src/ir/core.py:124 | `str(n)` is a non-empty string of digits, of length 1 exactly for n < 10, without a leading zero |
| CoreSpec.UidName | src/ir/core.py:124 | every reservoir name starts with `res_` and has a number after it |
| CoreProps.DecimalRoundTrip | src/ir/core.py:124 | reading the digits of `str(n)` back gives n |
| CoreProps.UidNameInjective | src/ir/core.py:119-127 | two counter values give the same name if and only if they are equal |
| CoreProps.InEdgesAt | src/ir/core.py:106-112 | the i-th operand edge is `operands[i] -> res` with `in_idx = i` and no `out_idx` |
| CoreProps.OutEdgesAt | src/ir/core.py:61-67 | the i-th binding edge is `res -> names[i]` with `out_idx = i` and no `in_idx` |
| CoreProps.CustomAddsFreshReservoir | src/ir/core.py:87-117 | a library opcode adds exactly one reservoir under a name not yet used, holding its template, and appends one edge per operand, operand i at port i; the counter moves by one, fresh names stay fresh, and inputs, vars and returns are unchanged |
| CoreProps.UnknownOpcodeChangesNothing | src/ir/core.py:89-90 | an opcode missing from the library raises and leaves the state exactly as it was |
| CoreProps.LetBindsOutputs | src/ir/core.py:53-67 | a LET over a custom opcode declares every name and appends, after the reservoir's own edges, one edge `res -> names[i]` with `out_idx = i` per name |
| CoreProps.ProcessGrows | src/ir/core.py:34-45 | a statement only appends edges, only adds reservoirs, never lowers the counter, and any reservoir it adds is named after the new counter value, one above the old |
| CoreProps.ProcessSucceedsIff | src/ir/core.py:34-67 | a statement succeeds if and only if its opcodes are in the library and a LET that binds names has a reservoir value; it then moves the counter by its number of custom opcodes and adds one edge per operand and binding; it yields a reservoir if and only if it is a compilable custom opcode |
| CoreProps.ProcessNamesReservoir | src/ir/core.py:98-100 | the reservoir a statement returns is a node of the new graph |
| CoreProps.ProcessKeepsInvariants | src/ir/core.py:47-117 | each statement keeps counter-named reservoirs fresh and every edge labelled with exactly one port: an `in_idx` edge ends at a reservoir, an `out_idx` edge starts at one |
| CoreProps.OutcomeIgnoresDeclarations | src/ir/core.py:105-112 | whether a statement succeeds, and what it returns, depends on the counter and the library alone, never on the declared symbols |
| CoreProps.CompileAppend | src/ir/core.py:27-30 | compiling `p1 + p2` is compiling p1, then, unless p1 raised, p2 from where p1 stopped |
| CoreProps.CompileSucceedsIff | src/ir/core.py:27-32 | a program compiles if and only if every statement is compilable; it then moves the counter by the number of custom opcodes and adds the matching number of edges |
| CoreProps.CompileKeepsInvariants | src/ir/core.py:27-30 | compilation, whether it succeeds or stops early, keeps names fresh and edges labelled |
| CoreProps.CompileGrows | src/ir/core.py:27-30 | compilation only adds, and every new reservoir is named `res_<k>` for a counter value k it passed through |
| CoreProps.InstancesShareNoName | src/ir/core.py:119-127 | two compilers that share the counter and compile one after the other into empty graphs create no reservoir name in common |
| Dynamics.AffineAt | src/_prnn/reservoir.py:184 | entry i of the pre-activation is `A[i] . r + B[i] . x + d[i]` |
| Dynamics.RelaxAt | src/_prnn/reservoir.py:184 | entry i of `del_r` is `gamma (-r[i] + tanh(z[i]))` |
| Dynamics.DelRZeroIff | src/_prnn/reservoir.py:180-185 | for gamma not zero, `del_r` is zero at entry i if and only if tanh of the pre-activation there equals r[i] |
| Dynamics.DelR | src/_prnn/reservoir.py:180-185 | `del_r`; its own contract states only that the result has length n. The entries are given by Dynamics.RelaxAt and Dynamics.AffineAt, and the zeros by Dynamics.DelRZeroIff |
| Dynamics.Step | src/_prnn/reservoir.py:187-201 | the arithmetic of `propagate`; its own contract states only that the new state has length n. The values are given by Dynamics.StepStages and Dynamics.CombineAt, and the fixed points by Dynamics.StepAtRest |
| Dynamics.StepStages | src/_prnn/reservoir.py:191-201 | names the four stages of a step as the definition builds them (no derived property): k1 at r, k2 at r + k1/2, k3 at r + k2/2 and k4 at r + k3, each `global_timescale * del_r` on input sample 1 to 4, combined by `Combine` |
| Dynamics.CombineAt | src/_prnn/reservoir.py:200 | entry i of the new state is `r + k1/6 + k2/3 + k3/3 + k4/3` |
| Dynamics.CombineUniformSlope | src/_prnn/reservoir.py:200 | four equal slopes k move the state by 7/6 k |
| Dynamics.StepAtRest | src/_prnn/reservoir.py:187-201 | a state at which `del_r` vanishes under all four input samples is left unchanged by `propagate` |
| Dynamics.DefaultBias | src/_prnn/reservoir.py:66-76 | the derived bias makes the pre-activation at (r_init, x_init) equal to arctanh(r_init) in every entry |
| Dynamics.DefaultBiasRest | src/_prnn/reservoir.py:70-72 | with the derived bias, and tanh inverting arctanh on r_init, `del_r(r_init, x_init)` is zero |
| Dynamics.DefaultBiasRestAt | src/_prnn/reservoir.py:70-72 | the same, one entry at a time |
| Dynamics.Hold | src/_prnn/reservoir.py:236-237 | states the definition (no derived property): `np.repeat(x, 4, axis=2)` puts the same sample in all four stage slots |
| Dynamics.EvolveAtRest | src/_prnn/reservoir.py:247-253 | a rest point of the ODE, where `del_r` vanishes under all four input samples, stays fixed for any number of steps on that input |
| Dynamics.ReferenceStateIsFixed | src/_prnn/reservoir.py:66-76 | with the derived bias, r_init stays fixed while the input is held at x_init |
| Dynamics.EvolveUsesPrefix | src/_prnn/reservoir.py:247-253 | the state after t steps depends only on the first t per-step inputs |
| Dynamics.StatesAt | src/_prnn/reservoir.py:239-253 | entry j of the recorded states is the state after j steps |
| Dynamics.TrajectoryColumn | src/_prnn/reservoir.py:241-253 | column j of the states matrix is the state after j steps, and column 0 is the state at call time |
| Dynamics.TrajectoryIgnoresLastInput | src/_prnn/reservoir.py:247-252 | inputs that differ only in the last column give the same states matrix |
| PrnnReservoir.PrepareRun | src/_prnn/reservoir.py:211-233 | `run` may go on if and only if some W is available, the void case has a non-negative time, an all-zero B and exactly one zero in x_init, and given inputs have as many rows as x_init; the argument W takes precedence, and the void input is a 1 x time zero matrix |
| PrnnReservoir.RowIndex | src/_prnn/reservoir.py:360 | numpy's row index: a non-negative index as is, a negative one counted from the end |
| PrnnReservoir.AppendRow | src/_prnn/reservoir.py:360 | `vstack` of W and one of its rows has one more row and the same width |
| PrnnReservoir.DoubledReadout | src/_prnn/reservoir.py:357-361 | after doubling row `row`, W S has every old output unchanged plus one more row equal to output `row` |
| PrnnReservoir.DoubleOutputGuardNeverHolds | src/_prnn/reservoir.py:358-359 | the guard `idx <= 0 and idx > m` holds for no index |
| PrnnReservoir.Reservoir.constructor | src/_prnn/reservoir.py:26-82 | r and r_init default to zeros; d is kept when given, derived from r_init when only r_init is given, and zeros otherwise; the used-port sets start empty |
| PrnnReservoir.Reservoir.Copy | src/_prnn/reservoir.py:84-98 | a fresh reservoir with the same A, B, r_init, x_init, timescale, gamma, d and W; its own used-port sets equal to the original's; state zero and no name |
| PrnnReservoir.Reservoir.Propagate | src/_prnn/reservoir.py:187-201 | the state becomes one four-stage step from the old state, and it is returned |
| PrnnReservoir.Reservoir.Run | src/_prnn/reservoir.py:203-255 | each failed check raises before stepping; an empty input raises; otherwise the state advances nx - 1 steps on the held input columns, and the result is the states matrix or W times it |
| PrnnReservoir.Reservoir.RecordStates | src/_prnn/reservoir.py:239-253 | the stepping loop leaves the state after nx - 1 steps and returns the nx-column trajectory |
| PrnnReservoir.Reservoir.DoubleOutput | src/_prnn/reservoir.py:357-361 | with a W and an index inside it, one copy of that row is appended and the reservoir itself returned; a missing W or an index outside it raises and W is unchanged |
| LegacyReservoir.Sample | src/reservoir.py:84 | `inputs[:, j, s]` is the column of stage sample s of step j |
| LegacyReservoir.StageDrive | src/reservoir.py:65-69 | depth 1 is repeated into four stage samples, depth 4 is used as it is, and any other depth is refused |
| LegacyReservoir.LiftedDriveIsHeld | src/reservoir.py:66-67 | a matrix given as a depth-1 input reaches `propagate` exactly as the newer `run` holds it |
| LegacyReservoir.Reservoir.constructor | src/reservoir.py:19-33 | r is zeros whatever r_init is; r_init and d default as in the newer runtime; the used-port lists start empty |
| LegacyReservoir.Reservoir.Copy | src/reservoir.py:35-36 | a fresh reservoir with the same A, B, r_init, x_init, timescale, gamma, d and W, zero state and empty used-port lists |
| LegacyReservoir.Reservoir.Propagate | src/reservoir.py:38-55 | the same four-stage step as the newer runtime |
| LegacyReservoir.Reservoir.Run4Input | src/reservoir.py:57-87 | without a W the error object is returned and nothing steps; a depth other than 1 or 4 raises; otherwise the state advances nx - 1 steps and the result is W times the nx-column trajectory |
| LegacyReservoir.Reservoir.RecordStates | src/reservoir.py:71-85 | the stepping loop leaves the state after nx - 1 steps and returns the nx-column trajectory |

## Left out

- I/O and foreign code are not modelled: `save`, `load`, `saveFile`, `loadFile` (pickle files), `solve`, `solveReservoir`, `py2mat` and `mat2py` (the MATLAB engine and sympy), and `gen_baseRNN` (random matrices).
- IrCore.Core.HandleLet: the `verbose` argument of `Core` is taken as False. With `verbose=True`, the print at src/ir/core.py:58-59 reads `res.name` before any binding, so a LET whose value is not a reservoir raises there without adding any name, even with an empty name list. The model instead adds the first name and then raises, and accepts such a LET with no names; `CoreSpec.ProcessSpec` and `CoreProps.Compilable` describe only the `verbose=False` behaviour.
- `print`, `printDims`, the deprecated `decompile` and `compile`, and every `verbose` print are left out. The `nInd` progress counter of `run` and `run4input` has no effect on the result and is left out too.
- The numeric behaviour of `tanh` and `arctanh` and floating-point accuracy are not modelled: numbers are exact reals.
- `Reservoir.load(res_path).copy()` in the compiler is not modelled: a reservoir node records the library template, not a reservoir object.
- The internals of `CGraph` are not modelled, and neither is `ir.lang` beyond the statement shapes. Malformed statements are excluded by the `Expr` type: a wrong number of LET operands, an INPUT or RET without operands, a non-string opcode (src/ir/core.py:89).
- Vectors stand for numpy column vectors. The `reshape(-1, 1)` calls and `flatten` are identities in the model.
- Aliasing of numpy arrays is not modelled: a copy shares A, B, r_init, x_init, d and W with its original in Python (in the newer runtime `x_init` is a reshaped view of the same data), and the model holds them as values. The same goes for the shared default lists `input_names=[]` and `output_names=[]`.
- PrnnReservoir.Reservoir.constructor requires the shapes of the header comment, and the source checks none of them. What a mismatch does depends on which array is wrong. With r_init given and d left out, it fails in the numpy products `A @ r_init` and `B @ x_init` inside `__init__` (src/_prnn/reservoir.py:66-76). Otherwise it fails later, in `run`, or numpy broadcasts the array, or it is never read. Examples are a wrong-length r_init stored next to an explicit d, a (1, 1) d, or a scalar x_init when d is given. The model excludes all of these. The `x_init` type assertion (src/_prnn/reservoir.py:53) is excluded by the type.
- LegacyReservoir.Reservoir.constructor requires the same shapes, and the source checks none of them either. With r_init given and d left out, a mismatch fails in the products of the bias derivation inside `__init__` (src/reservoir.py:27). Otherwise it fails later in `run4input`, is broadcast, or is never read. The model excludes all of these.
- PrnnReservoir.Reservoir.Propagate requires input samples of the width of B. The shape error numpy raises otherwise is modelled in `Run` and `Run4Input`, the callers that can supply such input.
- LegacyReservoir.Reservoir.Propagate has the same requirement.
- PrnnReservoir.Reservoir.Run reports every failed matrix product as `ShapeMismatch`, without naming which product failed.
- LegacyReservoir.Reservoir.Run4Input reports every failed matrix product as `ShapeMismatch` in the same way.
- PrnnReservoir.Reservoir.Run and LegacyReservoir.Reservoir.Run4Input take inputs whose rank is fixed by their types: a matrix for `Run` and a three-dimensional array for `Run4Input`. So the model cannot produce the exceptions a wrong rank raises in the source. For `run4input`, a two-dimensional input raises `IndexError` at `inputs.shape[2]` (src/reservoir.py:66). For `run`, a one-dimensional input raises `IndexError` at `inputs.shape[1]`, and a three-dimensional input deeper than 1 raises `ValueError` in the reshape (both at src/_prnn/reservoir.py:236).
