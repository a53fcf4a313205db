# GLT symbol kernels: a Dafny model of the code generator

This project models the two-stage code generator that turns a symbolic GLT
(generalised locally Toeplitz) expression into Python routines, together with the
facade that drives it.

- **Kernel builder (`GltKernel`).** It evaluates the symbol of a bilinear form on a
  tensor grid of points `t1 .. td`. It numbers one output buffer `symbol_ij` per cell
  of the symbol and types each buffer `float` or `complex`. It requests one field
  sub-kernel per field space and a mapping sub-kernel when there is a mapping. It
  builds a `d`-deep loop nest around the innermost assignments and puts the prelude
  and the sub-kernel calls in front of it. It declares its arguments in a fixed
  category order.
- **Interface builder (`GltInterface`).** It emits the routine a caller invokes. That
  routine reads the grid data and allocates every output buffer the caller did not
  pass. It then calls the kernel with arguments laid out as the kernel declares them,
  and returns the buffers. Its arguments are classified as "in" (required) and
  "inout" (optional buffers).
- **Facade (`DiscreteGltExpr`).** It checks its constructor arguments and builds the
  kernel and the interface under one tag. It maps keyword arguments onto the
  interface's "in" and "inout" arguments, and assembles the leading positional
  arguments of a call.

The symbolic engine (reduction of the form to its symbol, and the atom and
derivative queries) is opaque. A symbol is a grid of cells, and each cell carries
what the generator asks of it: whether it holds the imaginary unit, its highest
partial-derivative order, and its field atoms. The generated code is a small
statement datatype. Each argument name is a constructor tagged with its category.

Modules:
- `Outcomes`: `Option`, `Result` and the Python exceptions raised.
- `Strings`: lexicographic order, `sorted` of a set of strings, and decimal printing.
- `Seqs`: row-major flattening.
- `Symbols`: the opaque inputs.
- `CodeAst`: arguments, categories and statements.
- `Kernel`, `Interface`, `Facade`: the three classes, each with its loops as methods
  proved equal to specification functions, and the lemmas about those functions.

The three classes keep their state in `const` fields, because the source sets each
attribute once, during construction. Each class's `Valid()` predicate states every
field as a function of the inputs. The interface's `Signature()` predicate, part of its
`Valid()`, also states the layout of its parameters; the lemmas about the signature
require only that part.

What the source does, and the model follows, although a reader might expect
otherwise:
- The kernel reads the first space of `spaces` (spl/api/ast/glt.py:182). The facade's
  `evaluate` passes the second one (spl/api/glt.py:128-129).
- `_create_ast` does not forward the mapping's rationality to the kernel or the
  interface, so both receive `None` (spl/api/glt.py:73-81).
- The kernel declares field coefficients in the iteration order of the set of
  field atoms (spl/api/ast/glt.py:405). The interface passes field data in sorted
  name order (spl/api/ast/glt.py:684-685, 785). Categories line up position by
  position whenever the counts agree. The names line up only when the two orders
  coincide, and the model proves both facts.
- With coordinates, every loop level reads `x_k = arr_x_k[i_k]` (spl/api/ast/glt.py:508-511,
  with `arr_x1..` made at line 271). The kernel's declared arguments never include
  `arr_x_k`: the basic arguments are only `arr_t*` (line 563), and the rest is built at
  line 601. The model reproduces this (`Kernel.CoordinateArraysUndeclared`).

## Model

| member | source | states |
|---|---|---|
| Strings.SortedSeq | spl/api/ast/glt.py:684-685 | the sorted list has the set's members, each once, in strictly increasing order |
| Kernel.OutputMats | spl/api/ast/glt.py:568-573 | the buffers listed by the nested loops are the row-major flattening of the `symbol_ij` grid |
| Kernel.OutputTypes | spl/api/ast/glt.py:577-593 | the buffer types listed by the loops are the row-major flattening of the per-cell types; a scalar gives one type |
| Kernel.GlobalMatsLayout | spl/api/ast/glt.py:296-301 | there are `n_rows*n_cols` buffers and cell (i, j) owns the one at index `i*n_cols+j` |
| Kernel.MatsTypesLayout | spl/api/ast/glt.py:577-593 | one type per buffer; the type at index `i*n_cols+j` is complex iff cell (i, j) holds the imaginary unit |
| Kernel.ScalarHasOneOutput | spl/api/ast/glt.py:250-256 | a scalar symbol has exactly one buffer `symbol_00`, typed by its single cell |
| Kernel.MaxNderiv | spl/api/ast/glt.py:370-381 | `nderiv` is at least 1, bounds every cell's derivative order, and is attained by some cell unless it is 1 |
| Kernel.BuildFieldEvaluators | spl/api/ast/glt.py:343-364 | the grouping loop yields exactly one field sub-kernel per sorted space name, with that group's atoms |
| Kernel.FieldEvaluatorsOrder | spl/api/ast/glt.py:345-348 | as many field sub-kernels as distinct field spaces, in strictly increasing order of space name |
| Kernel.FieldEvaluatorsCover | spl/api/ast/glt.py:345-361 | every field's space has a sub-kernel, and every sub-kernel's space is the space of some field |
| Kernel.FieldEvaluatorsContents | spl/api/ast/glt.py:349-359 | a sub-kernel receives an atom iff the atom involves a field of its space; it gets the kernel's mapping and backend |
| Kernel.PreludeHead | spl/api/ast/glt.py:455-466 | the prelude is `k_i = len(arr_t_i)` for each axis, then one zeroing of each buffer in row-major order |
| Kernel.BuildFieldReads | spl/api/ast/glt.py:469-470 | one `F = F_values[i1, .., id]` per printed field atom, in the atoms' order |
| Kernel.BuildMappingReads | spl/api/ast/glt.py:474-483 | without a mapping nothing; with one, the element reads `zip` pairs (up to the shorter list), then the Jacobian determinant |
| Kernel.BuildCellAssigns | spl/api/ast/glt.py:490-499 | one assignment of cell (i, j) into `symbol_ij[i1, .., id]` per cell, in row-major order |
| Kernel.InnerBody | spl/api/ast/glt.py:468-499 | the innermost body is the field reads, then the mapping reads and the Jacobian determinant, then the cell assignments |
| Kernel.CellAssignmentAt | spl/api/ast/glt.py:489-499 | cell (i, j) is assigned into `symbol_ij[i1, .., id]` at row-major position after the field and mapping reads |
| Kernel.BuildLoopNest | spl/api/ast/glt.py:501-514 | the descending wrapping loop yields the loops over axes 1..d, each starting with `x_k` (with coordinates) and then `t_k` |
| Kernel.LoopNestShape | spl/api/ast/glt.py:501-514 | around assignments, the nest from axis `from` is `d - from` loops deep, indexed in order, outermost first |
| Kernel.KernelLoopNest | spl/api/ast/glt.py:468-514 | the kernel's nest is exactly `d` loops deep, with `i1` outermost and `id` innermost |
| Kernel.PrependSubKernelCalls | spl/api/ast/glt.py:516-532 | the body begins with the mapping sub-kernel call, then the field sub-kernel calls in reverse order, then the nest |
| Kernel.CompleteBody | spl/api/ast/glt.py:535-559 | the prelude gains the field and mapping value zeroings, lies in front of the body, and the imports are collected in order |
| Kernel.DataBlockOrder | spl/api/ast/glt.py:598-602 | the data block is coordinates, grid data (iff fields or a mapping), field coefficients, mapping coefficients, then buffers |
| Kernel.KernelSignatureOrder | spl/api/ast/glt.py:563-603 | the declared arguments are `arr_t*`, the data block, then the constants, category by category |
| Kernel.DependenciesCount | spl/api/ast/glt.py:343-398 | one dependency per distinct field space plus one for the mapping; there are dependencies exactly when the symbol has fields or there is a mapping |
| Kernel.CoordinateArraysUndeclared | spl/api/ast/glt.py:508-511 | as written, a loop level with coordinates reads `arr_x_k`, and no declared argument of the kernel is `arr_x_k` |
| Kernel.FieldFreeKernel | spl/api/ast/glt.py:343-366 | with no fields and no mapping there is no dependency, and the kernel takes only `arr_t*`, coordinates, buffers and constants |
| Kernel.KernelDecorationAsWritten | spl/api/ast/glt.py:607-617 | as written, the selection fails (with `NameError` for `build_types_decorator`) exactly for pyccel |
| Kernel.KernelDecoration | spl/api/ast/glt.py:607-617 | the types decorator iff pyccel, `jit` iff numba, a pythran header iff pythran; decorated with the declared arguments |
| Kernel.PyccelBackendRaises | spl/api/ast/glt.py:609-610 | as written, building a kernel for the pyccel backend raises `NameError` |
| Kernel.DecorationAgreesOffPyccel | spl/api/ast/glt.py:607-617 | off pyccel, the selection as written succeeds and equals the corrected one |
| Kernel.GltKernel.constructor | spl/api/ast/glt.py:66-81 | the kernel keeps its inputs, and every attribute `_initialize` sets is the specification function of them |
| Kernel.GltKernel.MappingAccessors | spl/api/ast/glt.py:129-141 | `mapping_coeffs` and `mapping_values` are those of the kernel's mapping, and empty without a mapping |
| Kernel.GltKernel.BuildArguments | spl/api/ast/glt.py:167-174 | `arr_t*` first, then the data unchanged, then the constants last |
| Interface.MappingCoeffLoads | spl/api/ast/glt.py:742-745 | the i-th mapping coefficient is loaded from the i-th component of the mapping, one load per coefficient |
| Interface.LengthPrelude | spl/api/ast/glt.py:752-754 | one `k_i = len(arr_t_i)` per axis, in axis order |
| Interface.AllocateOutputs | spl/api/ast/glt.py:757-769 | one `if M is None: M = zeros(..)` per buffer, with the buffer's type and the lengths tupled when d > 1 |
| Interface.AllocationsEffect | spl/api/ast/glt.py:763-769 | run over distinct buffers, a missing buffer becomes a zero array of its type, a supplied one is kept, and nothing else changes |
| Interface.GlobalMatsAtIndex | spl/api/ast/glt.py:568-573 | the buffer at index p is that of cell (p / n_cols, p % n_cols) |
| Interface.GlobalMatsDistinct | spl/api/ast/glt.py:296-301 | no two cells share a buffer |
| Interface.OutputAllocation | spl/api/ast/glt.py:757-769 | for the kernel's buffers, cell (i, j)'s buffer is kept if supplied, else zeroed with that cell's type |
| Interface.ResultStatement | spl/api/ast/glt.py:798-803 | the return hands back exactly the buffers, in order, as a single value iff there is one buffer |
| Interface.SignatureTail | spl/api/ast/glt.py:810-829 | all four branches on constants and coordinates equal mapping ++ constants ++ coordinates ++ fields ++ buffers |
| Interface.BuildInterfaceParams | spl/api/ast/glt.py:805-832 | the parameters are the basic arguments, the mapping, constants, coordinates and fields as required ones, then the buffers defaulting to `None` |
| Interface.ParamsLayout | spl/api/ast/glt.py:805-832 | a positional prefix and the signature tail give every positional part in order, then the buffers defaulting to `None` |
| Interface.InterfaceSignatureLayout | spl/api/ast/glt.py:805-832 | the interface takes `arr_t*`, `W`, `basis_values` iff fields or a mapping, the mapping, constants, coordinates, fields, then the optional buffers |
| Interface.SignatureBuildsArguments | spl/api/ast/glt.py:805-832 | the declared parameters name exactly `build_arguments` of the tail: the basic arguments, then the mapping, constants, coordinates, fields and buffers |
| Interface.ClassifiedParams | spl/api/ast/glt.py:776-778 | each of coordinates, constants and fields is a required parameter, and the buffers are the trailing optional ones |
| Interface.ArgumentClassification | spl/api/ast/glt.py:776-778 | "in" arguments are required parameters of the interface, "inout" ones are exactly its `None`-default tail |
| Interface.GltInterface.constructor | spl/api/ast/glt.py:620-637 | the interface keeps its kernel, name, mapping and backend, and sets every attribute as `_initialize` defines it |
| Interface.GltInterface.BuildArguments | spl/api/ast/glt.py:658-660 | the basic arguments first, then the data unchanged |
| Interface.BuildInterfaceBody | spl/api/ast/glt.py:727-803 | the body is the lengths, the grid data, the mapping loads, the allocations, the kernel call, then the return |
| Interface.NewInterface | spl/api/ast/glt.py:622-623 | anything but a kernel raises `TypeError`; a kernel yields a valid interface over it |
| Interface.FieldBlocksAgree | spl/api/ast/glt.py:783-787 | passed field data and declared field coefficients match in category, and are the same fields when the field orders coincide |
| Interface.GridConditionAgrees | spl/api/ast/glt.py:785-786 | the interface passes grid data under the same condition under which the kernel declares it |
| Interface.PassedArgsAgree | spl/api/ast/glt.py:783-790 | the passed arguments agree with the declared ones position by position |
| Interface.PassedArgsAligned | spl/api/ast/glt.py:783-790 | with the field orders equal, each passed argument is the declared one as a caller passes it |
| Interface.CallMatchesDeclaration | spl/api/ast/glt.py:783-794 | the interface's kernel call agrees with the kernel's declared parameters: categories position by position, and the names themselves when the field orders coincide |
| Facade.IsRationalMapping | spl/api/glt.py:34-38 | no mapping is not rational; a mapping is rational iff it is a NURBS mapping |
| Facade.CreateAst | spl/api/glt.py:67-85 | `kernel_{tag}` and `interface_{tag}`, the interface over exactly that kernel, the same mapping and backend, the default backend if none |
| Facade.CheckArguments | spl/api/glt.py:88-117 | KeyError iff an "in" key is missing; "in" keys copied unchanged, "inout" ones iff supplied, all other keys dropped |
| Facade.Create | spl/api/glt.py:18-48 | each malformed input raises its error in the source's order; success iff all checks pass, with the first mapping, its rationality, the spaces and the chosen backend |
| Facade.DiscreteGltExpr.constructor | spl/api/glt.py:31-48 | the first domain mapping, its rationality and the spaces are kept, with kernel and interface built for the first space's symbolic mapping and on one backend, the chosen one |
| Facade.CheckKeywords | spl/api/glt.py:88-117 | KeyError iff some "in" argument's name is missing; each "in" name kept, each "inout" name kept iff supplied, nothing else, values unchanged |
| Facade.DiscreteGltExpr.Evaluate | spl/api/glt.py:119-143 | KeyError first, then ValueError unless two grids; otherwise `t1, t2, Vh`, basis values iff fields or a mapping, the mapping, and exactly the checked keywords: every "in" name, an "inout" name iff supplied, nothing else |
| Facade.LeadingFit | spl/api/glt.py:124-141 | the leading positional values fit parameters laid out as `arr_t1, arr_t2, W`, `basis_values`, `mapping` |
| Facade.EvaluateFillsLeadingParams | spl/api/glt.py:124-143 | for a 2-d form, the positional arguments of a call fill the interface's leading parameters one for one |

## Left out

- The symbolic reduction (`gelatize`, `expand`, `evalf`, the atom scans, `get_max_partial_derivatives`, `math_atoms_as_str`) belongs to the symbolic engine. It is data on each cell and on the symbol.
- The internals of the field and mapping sub-kernel generators and their `build_arguments` are not part of this model. A sub-kernel call records the request and the data tuple handed to it. A mapping's elements, coefficients and values are the names that generator reports.
- The base classes of the generators (basic.py) are not part of this model. They supply the tag, the name prefix and the dependency list, and they call `_create_ast` with the mapping, the backend and a tag.
- The default backend comes from settings.py, which is not part of this model. It is the `defaultBackend` parameter.
- The random tag drawn by the kernel (spl/api/ast/glt.py:68) is nondeterministic and is not modelled. The facade's tag is a parameter.
- The debug `Print` statement and `print` call (spl/api/ast/glt.py:485-486) are printing only. They are left out of the body.
- Printing, compiling and loading the generated code are left out, as are the numeric results of the compiled kernel.
- The runtime objects (the geometry, the spaces, the collocation basis values and the fields) are opaque identities.
- The texts of the errors Python itself raises (indexing a non-sequence, unpacking the wrong number of values) are placeholders. Only the exception kind is meant.
- The `max_nderiv` and `user_functions` accessors return constants (`None`, an empty list). They carry nothing to prove.
- Kernel.MaxNderiv: for a symbol that is an immutable matrix, line 371 does not iterate over the cells. It asks the engine for the derivative orders of the whole matrix. The model takes the maximum over the cells, which is what the engine is taken to report.
- Symbols.FieldStrings: the printed field atoms are taken as a set before sorting. Line 336 sorts the list of printed names and keeps repeats. The two differ only if two distinct field atoms print the same, and the model takes printing to be injective on the atoms.
- Kernel.BuildFieldEvaluators: a field sub-kernel request records its field expressions as a set (`CodeAst.FieldEvaluator.exprs`). The source passes `EvalArrayField` a list, in the order in which `atomic_expr_field` yields them (spl/api/ast/glt.py:350-358). That order is not modelled.
- Kernel.BuildFieldEvaluators: line 356 hands each field sub-kernel the space object of the last matching atom's field. The model records the group's space name. The two agree because the group is formed by that name.
- Kernel.OutputMats: the printed name `symbol_{i}{j}` is the same for cells (1, 11) and (11, 1). `CodeAst.Name` prints it as written. `Interface.GlobalMatsDistinct` is about cells, not printed names.
- Interface.CallMatchesDeclaration: this holds only when the form has as many fields as the symbol and the two sides agree on whether there is a mapping. It states category agreement in general and name agreement only when the field orders coincide, because the kernel's order is the iteration order of a set.
- Kernel.GltKernel.constructor: for the pyccel backend the source stops with `NameError` at spl/api/ast/glt.py:610 (see "## Findings"). The constructor attaches the corrected `KernelDecoration` instead and yields a valid kernel.
- Facade.CreateAst: for the pyccel backend it builds the corrected kernel, where the source raises `NameError` at spl/api/ast/glt.py:610.
- Facade.CreateAst: `backend = None` stands for a missing `backend` keyword, which gives the default backend (spl/api/glt.py:70). An explicit `backend=None` is not modelled. In the source it reaches `GltKernel` and fails with `TypeError` at spl/api/ast/glt.py:609 (`None['name']`), as does `GltKernel`'s own default `backend=None` (line 66).
- Facade.Create: "success iff all checks pass" counts the corrected kernel build as a success for pyccel. The source raises `NameError` at spl/api/ast/glt.py:610 there.
- Facade.DiscreteGltExpr.constructor: for pyccel it builds the corrected kernel, where the source raises `NameError`.
- Interface.CallMatchesDeclaration: one constructor per concept stands for both sides of the call. The interface passes its own locals `spans_1..`, `basis_1..` (spl/api/ast/glt.py:703-711) and the raw `kernel.mapping_coeffs` (line 791). The kernel declares `spans1..`, `basis1..` (lines 279-287) and the printed coefficient variables (lines 435-436). So "the declared argument itself" means up to the renaming of the interface's locals and the printing of the mapping coefficients.
- Facade.DiscreteGltExpr.constructor: this requires exactly two spaces. The sequence of checks before construction, including the error paths, is `Facade.Create`.
- Facade.EvaluateFillsLeadingParams: this is stated for two-dimensional forms, because `evaluate` unpacks exactly two grids. It also assumes the domain mapping is present exactly when the space's symbolic mapping is.
- Vector fields: line 317 includes `VectorField` and `IndexedVectorField` among the atom types, and line 326 collects `atomic_expr_vector_field`. That list is never used afterwards, because the code that would declare and pass vector-field data (lines 413-421, 442-453, 522-526, 540-541 and 605) is commented out. The model has no vector-field atoms.

## Findings

| source | as written | input that shows it | evidently intended | confidence | as-written member | corrected member |
|---|---|---|---|---|---|---|
| spl/api/ast/glt.py:609-610 | the pyccel branch calls `build_types_decorator`, which the module neither defines nor imports (line 58 imports only `build_pythran_types_header`) | a kernel built with backend `{'name': 'pyccel'}` raises `NameError` | a `types` decorator built from the declared arguments | not executed | Kernel.PyccelBackendRaises | Kernel.KernelDecoration |
