/**
 * The interface builder (`GltInterface`): the routine a caller invokes. It unpacks the
 * grid data, allocates the output buffers the caller did not supply, calls the kernel
 * with arguments laid out as the kernel declares them, and returns the buffers.
 */
module Interface {
  import opened Outcomes
  import opened Strings
  import opened Seqs
  import opened Symbols
  import opened CodeAst
  import opened Kernel

  /** `fields`: the form's fields, sorted by name. */
  function SortedFields(expr: GltExpr): seq<string> {
    SortedSeq(expr.formFields)
  }

  function FieldObjects(fields: seq<string>): seq<Arg> {
    seq(|fields|, k requires 0 <= k < |fields| => FieldObject(fields[k]))
  }

  /** `field_data`: `F._coeffs._data` per field. */
  function FieldDataArgs(fields: seq<string>): seq<Arg> {
    seq(|fields|, k requires 0 <= k < |fields| => FieldData(fields[k]))
  }

  /** Whether the interface takes `basis_values` (`mapping or fields`). */
  function HasBasisValues(fields: seq<string>, mapping: Option<SymMapping>): bool {
    |fields| > 0 || mapping.Some?
  }

  function LoadRows(coeffs: seq<Arg>): seq<Stmt> {
    seq(|coeffs|, i requires 0 <= i < |coeffs| => Assign(ToVar(coeffs[i]), MappingComponentData(i)))
  }

  /** Lines 742-745: the i-th mapping coefficient is read from the i-th component. */
  method MappingCoeffLoads(coeffs: seq<Arg>) returns (stmts: seq<Stmt>)
    ensures |stmts| == |coeffs|
    ensures forall i :: 0 <= i < |coeffs| ==> stmts[i] == Assign(ToVar(coeffs[i]), MappingComponentData(i))
    ensures stmts == LoadRows(coeffs)
  {
    stmts := [];
    for i := 0 to |coeffs|
      invariant |stmts| == i
      invariant forall k :: 0 <= k < i ==> stmts[k] == Assign(ToVar(coeffs[k]), MappingComponentData(k))
    {
      stmts := stmts + [Assign(ToVar(coeffs[i]), MappingComponentData(i))];
    }
  }

  /** Lines 753-754: `k_i = len(arr_t_i)` per axis. */
  method LengthPrelude(dim: nat) returns (prelude: seq<Stmt>)
    ensures prelude == LengthAssigns(dim)
  {
    prelude := [];
    for k := 0 to dim
      invariant prelude == LengthAssigns(dim)[..k]
    {
      prelude := prelude + [Assign(ToVar(Length(k)), LenOf(ArrT(k)))];
    }
  }

  /** One conditional allocation per output buffer (as far as `zip` pairs buffers and
      types): `if M is None: M = zeros(lengths, dtype=..)`, the lengths tupled when d > 1. */
  function Allocations(mats: seq<Arg>, types: seq<DType>, dim: nat): seq<Stmt> {
    var n := if |mats| < |types| then |mats| else |types|;
    seq(n, k requires 0 <= k < n =>
      IfNil(mats[k], [Assign(ToVar(mats[k]), TypedZeros(Lengths(dim), dim > 1, types[k]))]))
  }

  /** Lines 758-769. */
  method AllocateOutputs(mats: seq<Arg>, types: seq<DType>, dim: nat) returns (stmts: seq<Stmt>)
    ensures stmts == Allocations(mats, types, dim)
  {
    var lengths := Lengths(dim);
    var asTuple := false;
    if dim > 1 {
      asTuple := true;
    }
    var n := if |mats| < |types| then |mats| else |types|;
    stmts := [];
    for k := 0 to n
      invariant stmts == Allocations(mats, types, dim)[..k]
    {
      stmts := stmts + [IfNil(mats[k], [Assign(ToVar(mats[k]), TypedZeros(lengths, asTuple, types[k]))])];
    }
  }

  // ---------------------------------------------------------------- allocation semantics

  /** What a buffer argument holds when the interface runs. */
  datatype Buffer = NoBuffer | ZeroBuffer(shape: seq<Arg>, asTuple: bool, dtype: DType) | CallerBuffer(id: nat)

  function Lookup(env: map<Arg, Buffer>, a: Arg): Buffer {
    if a in env then env[a] else NoBuffer
  }

  function RunAssigns(s: seq<Stmt>, env: map<Arg, Buffer>): map<Arg, Buffer>
    decreases |s|
  {
    if s == [] then env
    else
      var env' := match s[0]
        case Assign(ToVar(x), TypedZeros(sh, t, d)) => env[x := ZeroBuffer(sh, t, d)]
        case _ => env;
      RunAssigns(s[1..], env')
  }

  function RunAllocation(st: Stmt, env: map<Arg, Buffer>): map<Arg, Buffer> {
    match st
    case IfNil(a, body) => if Lookup(env, a) == NoBuffer then RunAssigns(body, env) else env
    case _ => env
  }

  function RunAllocations(s: seq<Stmt>, env: map<Arg, Buffer>): map<Arg, Buffer>
    decreases |s|
  {
    if s == [] then env else RunAllocations(s[1..], RunAllocation(s[0], env))
  }

  /** A buffer the caller supplied is left as it is, a missing one becomes a zero array with
      its cell's type, and nothing else is touched. */
  lemma {:induction false} AllocationsEffect(mats: seq<Arg>, types: seq<DType>, dim: nat, env: map<Arg, Buffer>)
    requires |mats| == |types|
    requires forall p, q :: 0 <= p < q < |mats| ==> mats[p] != mats[q]
    ensures var out := RunAllocations(Allocations(mats, types, dim), env);
      && (forall k :: 0 <= k < |mats| ==>
            Lookup(out, mats[k]) == (if Lookup(env, mats[k]) == NoBuffer then ZeroBuffer(Lengths(dim), dim > 1, types[k])
                                     else Lookup(env, mats[k])))
      && (forall a :: a !in mats ==> Lookup(out, a) == Lookup(env, a))
    decreases |mats|
  {
    if mats != [] {
      var s := Allocations(mats, types, dim);
      assert s[1..] == Allocations(mats[1..], types[1..], dim);
      var env1 := RunAllocation(s[0], env);
      var zero := ZeroBuffer(Lengths(dim), dim > 1, types[0]);
      var body := [Assign(ToVar(mats[0]), TypedZeros(Lengths(dim), dim > 1, types[0]))];
      assert s[0] == IfNil(mats[0], body);
      assert RunAssigns(body, env) == RunAssigns(body[1..], env[mats[0] := zero]);
      assert body[1..] == [];
      assert Lookup(env1, mats[0]) == (if Lookup(env, mats[0]) == NoBuffer then ZeroBuffer(Lengths(dim), dim > 1, types[0])
                                       else Lookup(env, mats[0]));
      assert forall a :: a != mats[0] ==> Lookup(env1, a) == Lookup(env, a);
      AllocationsEffect(mats[1..], types[1..], dim, env1);
      var out := RunAllocations(s, env);
      forall k | 0 <= k < |mats|
        ensures Lookup(out, mats[k]) == (if Lookup(env, mats[k]) == NoBuffer then ZeroBuffer(Lengths(dim), dim > 1, types[k])
                                         else Lookup(env, mats[k]))
      {
        if k > 0 {
          assert mats[k] == mats[1..][k - 1];
          assert mats[k] != mats[0];
        } else {
          assert mats[0] !in mats[1..];
        }
      }
    }
  }

  /** The buffer at position p is that of cell (p / n_cols, p % n_cols). */
  lemma GlobalMatsAtIndex(nRows: nat, nCols: nat, p: nat)
    requires p < |GlobalMats(nRows, nCols)|
    ensures |GlobalMats(nRows, nCols)| == nRows * nCols
    ensures nCols > 0 && p / nCols < nRows
    ensures GlobalMats(nRows, nCols)[p] == OutputMat(p / nCols, p % nCols)
  {
    FlattenLength(MatRows(nRows, nCols), nCols);
    assert nCols > 0;
    var i := p / nCols;
    var j := p % nCols;
    assert p == i * nCols + j;
    if i >= nRows {
      MulMonotone(nRows, i, nCols);
      assert false;
    }
    GlobalMatsLayout(nRows, nCols, i, j);
  }

  /** No two cells share a buffer. */
  lemma GlobalMatsDistinct(nRows: nat, nCols: nat)
    ensures forall p, q :: 0 <= p < q < |GlobalMats(nRows, nCols)| ==> GlobalMats(nRows, nCols)[p] != GlobalMats(nRows, nCols)[q]
  {
    var mats := GlobalMats(nRows, nCols);
    forall p, q | 0 <= p < q < |mats|
      ensures mats[p] != mats[q]
    {
      GlobalMatsAtIndex(nRows, nCols, p);
      GlobalMatsAtIndex(nRows, nCols, q);
      assert p == (p / nCols) * nCols + p % nCols;
      assert q == (q / nCols) * nCols + q % nCols;
    }
  }

  /** Running the interface's allocations over the kernel's buffers: every buffer the
      caller left out becomes a zero array typed like its cell, every supplied one is kept. */
  lemma OutputAllocation(sym: Symbol, dim: nat, env: map<Arg, Buffer>, i: nat, j: nat)
    requires Rectangular(sym) && i < Rows(sym) && j < Cols(sym)
    ensures var mats := GlobalMats(Rows(sym), Cols(sym));
      var out := RunAllocations(Allocations(mats, MatsTypes(sym), dim), env);
      Lookup(out, OutputMat(i, j)) ==
        (if Lookup(env, OutputMat(i, j)) == NoBuffer
         then ZeroBuffer(Lengths(dim), dim > 1, CellType(CellAt(sym, i, j)))
         else Lookup(env, OutputMat(i, j)))
  {
    var mats := GlobalMats(Rows(sym), Cols(sym));
    var p := RowMajorIndex(i, j, Cols(sym));
    GlobalMatsLayout(Rows(sym), Cols(sym), i, j);
    MatsTypesLayout(sym, i, j);
    GlobalMatsDistinct(Rows(sym), Cols(sym));
    AllocationsEffect(mats, MatsTypes(sym), dim, env);
    assert mats[p] == OutputMat(i, j);
    assert MatsTypes(sym)[p] == CellType(CellAt(sym, i, j));
  }

  // ---------------------------------------------------------------- the signature

  /** Which buffers a return statement hands back. */
  function Returned(st: Stmt): seq<Arg> {
    match st
    case ReturnValue(a) => [a]
    case ReturnTuple(items) => items
    case _ => []
  }

  /** Lines 798-803: one buffer on its own, several as a tuple; either way exactly the
      outputs, in order. */
  function ResultStatement(mats: seq<Arg>): (r: Stmt)
    ensures Returned(r) == mats
    ensures r.ReturnValue? <==> |mats| == 1
  {
    if |mats| == 1 then ReturnValue(mats[0]) else ReturnTuple(mats)
  }

  function NilDefaults(mats: seq<Arg>): seq<Param> {
    seq(|mats|, k requires 0 <= k < |mats| => NilDefault(mats[k]))
  }

  /** Lines 810-829: the four branches on constants and coordinates each put the parts
      present in one order: mapping, constants, coordinates, fields, buffers. */
  function SignatureTail(mappingPart: seq<Param>, constants: seq<Param>, coordinates: seq<Param>,
                         fields: seq<Param>, mats: seq<Param>): (r: seq<Param>)
    ensures r == mappingPart + constants + coordinates + fields + mats
  {
    if |constants| > 0 then
      if |coordinates| > 0 then mappingPart + constants + coordinates + fields + mats
      else mappingPart + constants + fields + mats
    else
      if |coordinates| > 0 then mappingPart + coordinates + fields + mats
      else mappingPart + fields + mats
  }

  function InterfaceBasicArgs(kernel: GltKernel, fields: seq<string>, mapping: Option<SymMapping>): seq<Arg> {
    kernel.basicArgs + [TestSpace] + (if HasBasisValues(fields, mapping) then [BasisValues] else [])
  }

  function InterfaceParams(kernel: GltKernel, fields: seq<string>, mapping: Option<SymMapping>): seq<Param> {
    AsPositional(InterfaceBasicArgs(kernel, fields, mapping))
      + SignatureTail(AsPositional(if mapping.Some? then [MappingObject] else []),
                      AsPositional(kernel.Constants()), AsPositional(kernel.coordinates),
                      AsPositional(FieldObjects(fields)), NilDefaults(kernel.globalMats))
  }

  /** Lines 783-790: what the interface hands to the kernel's `build_arguments`. */
  function KernelCallData(kernel: GltKernel, fields: seq<string>, mapping: Option<SymMapping>): seq<Arg> {
    kernel.coordinates + (if HasBasisValues(fields, mapping) then GridData(kernel.expr.ldim) else [])
      + FieldDataArgs(fields) + kernel.MappingCoeffs() + kernel.globalMats
  }

  function InterfaceSetup(kernel: GltKernel, fields: seq<string>, mapping: Option<SymMapping>): seq<Stmt> {
    var dim := kernel.expr.ldim;
    [Assign(ToTuple(Degrees(dim)), Attribute(TestSpace, "degree"))]
      + (if HasBasisValues(fields, mapping)
         then [Assign(ToTuple(Spans(dim)), Attribute(BasisValues, "spans")),
               Assign(ToTuple(Bases(dim)), Attribute(BasisValues, "basis"))]
         else [])
      + (if mapping.Some? then LoadRows(kernel.MappingCoeffs()) else [])
  }

  /** The interface body: lengths, grid data and mapping coefficients, the allocations,
      the kernel call, the return. */
  function InterfaceBody(kernel: GltKernel, fields: seq<string>, mapping: Option<SymMapping>): seq<Stmt> {
    LengthAssigns(kernel.expr.ldim) + InterfaceSetup(kernel, fields, mapping)
      + Allocations(kernel.globalMats, kernel.globalMatsTypes, kernel.expr.ldim)
      + [Call(KernelFunction(kernel.func.name), kernel.BuildArguments(KernelCallData(kernel, fields, mapping))),
         ResultStatement(kernel.globalMats)]
  }

  // ---------------------------------------------------------------- the interface object

  class GltInterface {
    const kernel: GltKernel
    const name: string
    const mapping: Option<SymMapping>
    const isRationalMapping: Option<bool>
    const backend: Backend
    const fields: seq<string>
    const dependencies: seq<GltKernel>
    const basicArgs: seq<Arg>
    const inArguments: seq<Arg>
    const inoutArguments: seq<Arg>
    const imports: seq<Import>
    const func: FunctionDef

    /** What `__new__` and `_initialize` establish. */
    ghost predicate Valid() {
      && kernel.Valid()
      && Signature()
      && fields == SortedFields(kernel.expr)
      && dependencies == [kernel]
      && imports == [Import("zeros", "numpy")]
      && func == FunctionDef(name, InterfaceParams(kernel, fields, mapping), InterfaceBody(kernel, fields, mapping), NoDecoration)
    }

    /** The part of `Valid()` about arguments: the basic ones, the "in" and "inout" ones,
        and the parameters of the generated routine. */
    ghost predicate Signature() {
      && basicArgs == InterfaceBasicArgs(kernel, fields, mapping)
      && inoutArguments == kernel.globalMats
      && inArguments == kernel.coordinates + kernel.Constants() + FieldObjects(fields)
      && ParamsShape(func.params,
                     basicArgs + (if mapping.Some? then [MappingObject] else [])
                       + (kernel.Constants() + kernel.coordinates + FieldObjects(fields)),
                     kernel.globalMats)
    }

    /** `GltInterface.__new__` for a kernel argument, followed by `_initialize`. */
    constructor(kernel: GltKernel, name: string, mapping: Option<SymMapping>,
                isRationalMapping: Option<bool>, backend: Backend)
      requires kernel.Valid()
      ensures Valid()
      ensures this.kernel == kernel && this.name == name && this.mapping == mapping
      ensures this.isRationalMapping == isRationalMapping && this.backend == backend
    {
      var fs := SortedFields(kernel.expr);
      var basic := kernel.basicArgs + [TestSpace] + (if |fs| > 0 || mapping.Some? then [BasisValues] else []);
      var body := BuildInterfaceBody(kernel, fs, mapping);
      var params := BuildInterfaceParams(kernel, fs, mapping);

      this.kernel := kernel;
      this.name := name;
      this.mapping := mapping;
      this.isRationalMapping := isRationalMapping;
      this.backend := backend;
      fields := fs;
      dependencies := [kernel];
      basicArgs := basic;
      inoutArguments := kernel.globalMats;
      inArguments := kernel.coordinates + kernel.Constants() + FieldObjects(fs);
      imports := [Import("zeros", "numpy")];
      func := FunctionDef(name, params, body, NoDecoration);
    }

    /** `build_arguments`: the basic arguments, then `data`. */
    function BuildArguments(data: seq<Arg>): (r: seq<Arg>)
      ensures |r| == |basicArgs| + |data|
      ensures r[..|basicArgs|] == basicArgs && r[|basicArgs|..] == data
    {
      basicArgs + data
    }
  }

  /** Lines 805-832: the parameters, laid out as the basic arguments, then the signature tail. */
  method BuildInterfaceParams(kernel: GltKernel, fs: seq<string>, mapping: Option<SymMapping>) returns (params: seq<Param>)
    ensures params == InterfaceParams(kernel, fs, mapping)
    ensures ParamsShape(params,
                        InterfaceBasicArgs(kernel, fs, mapping) + (if mapping.Some? then [MappingObject] else [])
                          + (kernel.Constants() + kernel.coordinates + FieldObjects(fs)),
                        kernel.globalMats)
  {
    var grid := |fs| > 0 || mapping.Some?;
    var basisValues := if grid then [BasisValues] else [];
    var mappingPart := if mapping.Some? then [MappingObject] else [];
    var tail := SignatureTail(AsPositional(mappingPart), AsPositional(kernel.Constants()),
                              AsPositional(kernel.coordinates), AsPositional(FieldObjects(fs)),
                              NilDefaults(kernel.globalMats));
    params := AsPositional(kernel.basicArgs + [TestSpace] + basisValues) + tail;
    ParamsLayout(kernel.basicArgs, basisValues, mappingPart, kernel.Constants(), kernel.coordinates,
                 FieldObjects(fs), kernel.globalMats);
  }

  /** Lines 727-803: the statements of the interface body, in the order they are emitted. */
  method BuildInterfaceBody(kernel: GltKernel, fs: seq<string>, mapping: Option<SymMapping>) returns (body: seq<Stmt>)
    ensures body == InterfaceBody(kernel, fs, mapping)
  {
    var dim := kernel.expr.ldim;
    var grid := |fs| > 0 || mapping.Some?;
    var setup := [Assign(ToTuple(Degrees(dim)), Attribute(TestSpace, "degree"))];
    if grid {
      setup := setup + [Assign(ToTuple(Spans(dim)), Attribute(BasisValues, "spans")),
                        Assign(ToTuple(Bases(dim)), Attribute(BasisValues, "basis"))];
    }
    if mapping.Some? {
      var loads := MappingCoeffLoads(kernel.MappingCoeffs());
      setup := setup + loads;
    }
    assert setup == InterfaceSetup(kernel, fs, mapping);
    var prelude := LengthPrelude(dim);
    var allocations := AllocateOutputs(kernel.globalMats, kernel.globalMatsTypes, dim);
    var data := kernel.coordinates + (if grid then GridData(dim) else []) + FieldDataArgs(fs)
                + kernel.MappingCoeffs() + kernel.globalMats;
    var call := Call(KernelFunction(kernel.func.name), kernel.BuildArguments(data));
    var ret := ResultStatement(kernel.globalMats);
    body := prelude + setup + allocations;
    body := body + [call];
    body := body + [ret];
    assert body == (prelude + setup + allocations) + [call, ret];
  }

  /** What `GltInterface` may be given in place of a kernel. */
  datatype KernelCandidate = AKernel(kernel: GltKernel) | NotAKernel

  /** Lines 622-639: anything but a kernel is refused with `TypeError`. */
  method NewInterface(candidate: KernelCandidate, name: string, mapping: Option<SymMapping>,
                      isRationalMapping: Option<bool>, backend: Backend)
    returns (r: Result<GltInterface, PyError>)
    requires candidate.AKernel? ==> candidate.kernel.Valid()
    ensures r.Failure? <==> candidate.NotAKernel?
    ensures r.Failure? ==> r.error == TypeError("> Expecting an GltKernel")
    ensures r.Success? ==> r.value.Valid() && r.value.kernel == candidate.kernel && r.value.name == name
                           && r.value.mapping == mapping && r.value.backend == backend
  {
    if candidate.NotAKernel? {
      return Failure(TypeError("> Expecting an GltKernel"));
    }
    var iface := new GltInterface(candidate.kernel, name, mapping, isRationalMapping, backend);
    r := Success(iface);
  }

  // ---------------------------------------------------------------- call versus declaration

  function ParamArgs(params: seq<Param>): seq<Arg> {
    seq(|params|, k requires 0 <= k < |params| => params[k].a)
  }

  /** The argument a caller passes for a declared one: field coefficients are passed as
      `F._coeffs._data`, everything else as itself. */
  function AsPassed(a: Arg): Arg {
    if a.FieldCoeff? then FieldData(a.field) else a
  }

  /** Position by position, a passed argument has the declared one's category, and is the
      declared argument itself unless both are field coefficients. */
  predicate Agree(passed: seq<Arg>, declared: seq<Arg>) {
    && |passed| == |declared|
    && forall k :: 0 <= k < |passed| ==>
         && CategoryOf(passed[k]) == CategoryOf(declared[k])
         && (passed[k] == declared[k] || (passed[k].FieldData? && declared[k].FieldCoeff?))
  }

  lemma AgreeConcat(p1: seq<Arg>, d1: seq<Arg>, p2: seq<Arg>, d2: seq<Arg>)
    requires Agree(p1, d1) && Agree(p2, d2)
    ensures Agree(p1 + p2, d1 + d2)
  {
    assert forall k :: |p1| <= k < |p1| + |p2| ==> (p1 + p2)[k] == p2[k - |p1|] && (d1 + d2)[k] == d2[k - |p1|];
  }

  lemma FieldBlocksAgree(fields: seq<string>, sym: Symbol)
    requires |fields| == |sym.fieldOrder|
    ensures Agree(FieldDataArgs(fields), FieldCoeffs(sym))
    ensures (forall k :: 0 <= k < |fields| ==> fields[k] == sym.fieldOrder[k].name) ==>
              FieldDataArgs(fields) == seq(|fields|, k requires 0 <= k < |fields| => AsPassed(FieldCoeffs(sym)[k]))
  {
  }

  /** The data tuple the interface passes, given the kernel's coordinates, mapping
      coefficients and output buffers. */
  function PassedData(expr: GltExpr, fields: seq<string>, mapping: Option<SymMapping>, mappingCoeffs: seq<Arg>): seq<Arg> {
    CoordinatesOf(expr) + (if HasBasisValues(fields, mapping) then GridData(expr.ldim) else [])
      + FieldDataArgs(fields) + mappingCoeffs + GlobalMats(Rows(expr.symbol), Cols(expr.symbol))
  }

  /** Either kind of kernel argument list splits into the blocks before the field block,
      the field block, and the blocks after it. */
  lemma FieldBlockSplit<T>(a: seq<T>, b: seq<T>, g: seq<T>, f: seq<T>, m: seq<T>, o: seq<T>, c: seq<T>)
    ensures a + (b + g + f + m + o) + c == (a + b + g) + f + (m + o + c)
  {
  }

  /** Both sides take the grid data under the same condition. */
  lemma GridConditionAgrees(sym: Symbol, kernelMapping: Option<SymMapping>, mapping: Option<SymMapping>, fields: seq<string>)
    requires WellFormed(sym)
    requires |fields| == |sym.fieldOrder|
    requires mapping.Some? == kernelMapping.Some?
    ensures HasBasisValues(fields, mapping) == HasGridData(sym, kernelMapping)
  {
    FieldStringsEmpty(sym);
  }

  /** `arr_t*`, the passed data and the constants, as blocks. */
  lemma PassedBlocks(expr: GltExpr, kernelMapping: Option<SymMapping>, mapping: Option<SymMapping>, fields: seq<string>)
    requires HasBasisValues(fields, mapping) == HasGridData(expr.symbol, kernelMapping)
    ensures var sym := expr.symbol;
      var front := ArrTs(expr.ldim) + CoordinatesOf(expr) + (if HasGridData(sym, kernelMapping) then GridData(expr.ldim) else []);
      var back := MappingCoeffArgs(kernelMapping) + GlobalMats(Rows(sym), Cols(sym)) + ConstantsOf(expr);
      && ArrTs(expr.ldim) + PassedData(expr, fields, mapping, MappingCoeffArgs(kernelMapping)) + ConstantsOf(expr)
         == front + FieldDataArgs(fields) + back
      && KernelArgs(expr, kernelMapping) == front + FieldCoeffs(expr.symbol) + back
  {
    var sym := expr.symbol;
    var grid := if HasGridData(sym, kernelMapping) then GridData(expr.ldim) else [];
    var mats := GlobalMats(Rows(sym), Cols(sym));
    FieldBlockSplit(ArrTs(expr.ldim), CoordinatesOf(expr), grid, FieldDataArgs(fields), MappingCoeffArgs(kernelMapping), mats, ConstantsOf(expr));
    FieldBlockSplit(ArrTs(expr.ldim), CoordinatesOf(expr), grid, FieldCoeffs(sym), MappingCoeffArgs(kernelMapping), mats, ConstantsOf(expr));
  }

  predicate NoFieldCoeff(s: seq<Arg>) {
    forall k :: 0 <= k < |s| ==> !s[k].FieldCoeff?
  }

  lemma NoFieldCoeffConcat(a: seq<Arg>, b: seq<Arg>)
    requires NoFieldCoeff(a) && NoFieldCoeff(b)
    ensures NoFieldCoeff(a + b)
  {
    forall k | 0 <= k < |a + b| ensures !(a + b)[k].FieldCoeff? {
      if k >= |a| { assert (a + b)[k] == b[k - |a|]; }
    }
  }

  lemma GlobalMatsNoFieldCoeff(nRows: nat, nCols: nat)
    ensures NoFieldCoeff(GlobalMats(nRows, nCols))
  {
    var mats := GlobalMats(nRows, nCols);
    FlattenCategories(MatRows(nRows, nCols), nCols);
    forall k | 0 <= k < |mats| ensures !mats[k].FieldCoeff? {
      assert CategoryOf(mats[k]) == Categories(mats)[k];
    }
  }

  /** Outside the field block the kernel declares no field coefficient. */
  lemma OuterBlocksNoFieldCoeff(expr: GltExpr, kernelMapping: Option<SymMapping>)
    ensures NoFieldCoeff(ArrTs(expr.ldim) + CoordinatesOf(expr) + (if HasGridData(expr.symbol, kernelMapping) then GridData(expr.ldim) else []))
    ensures NoFieldCoeff(MappingCoeffArgs(kernelMapping) + GlobalMats(Rows(expr.symbol), Cols(expr.symbol)) + ConstantsOf(expr))
  {
    var dim := expr.ldim;
    assert NoFieldCoeff(ArrTs(dim));
    assert NoFieldCoeff(CoordinatesOf(expr));
    assert NoFieldCoeff(Degrees(dim)) && NoFieldCoeff(Spans(dim)) && NoFieldCoeff(Bases(dim));
    NoFieldCoeffConcat(Degrees(dim), Spans(dim));
    NoFieldCoeffConcat(Degrees(dim) + Spans(dim), Bases(dim));
    var grid := if HasGridData(expr.symbol, kernelMapping) then GridData(dim) else [];
    assert NoFieldCoeff(grid);
    NoFieldCoeffConcat(ArrTs(dim), CoordinatesOf(expr));
    NoFieldCoeffConcat(ArrTs(dim) + CoordinatesOf(expr), grid);
    var m := MappingCoeffArgs(kernelMapping);
    var mats := GlobalMats(Rows(expr.symbol), Cols(expr.symbol));
    assert NoFieldCoeff(m);
    GlobalMatsNoFieldCoeff(Rows(expr.symbol), Cols(expr.symbol));
    assert NoFieldCoeff(ConstantsOf(expr));
    NoFieldCoeffConcat(m, mats);
    NoFieldCoeffConcat(m + mats, ConstantsOf(expr));
  }

  /** `arr_t*`, the passed data and the constants agree with the kernel's declaration when
      the form has as many fields as the symbol and both sides see the same mapping presence. */
  lemma PassedArgsAgree(expr: GltExpr, kernelMapping: Option<SymMapping>, mapping: Option<SymMapping>, fields: seq<string>)
    requires WellFormed(expr.symbol)
    requires |fields| == |expr.symbol.fieldOrder|
    requires mapping.Some? == kernelMapping.Some?
    ensures Agree(ArrTs(expr.ldim) + PassedData(expr, fields, mapping, MappingCoeffArgs(kernelMapping)) + ConstantsOf(expr),
                  KernelArgs(expr, kernelMapping))
  {
    var sym := expr.symbol;
    var front := ArrTs(expr.ldim) + CoordinatesOf(expr) + (if HasGridData(sym, kernelMapping) then GridData(expr.ldim) else []);
    var back := MappingCoeffArgs(kernelMapping) + GlobalMats(Rows(sym), Cols(sym)) + ConstantsOf(expr);
    GridConditionAgrees(sym, kernelMapping, mapping, fields);
    PassedBlocks(expr, kernelMapping, mapping, fields);
    FieldBlocksAgree(fields, sym);
    AgreeConcat(front, front, FieldDataArgs(fields), FieldCoeffs(sym));
    AgreeConcat(front + FieldDataArgs(fields), front + FieldCoeffs(sym), back, back);
  }

  /** Blocks without field coefficients around a field block passed as declared. */
  lemma AlignedBlocks(front: seq<Arg>, passedFields: seq<Arg>, declaredFields: seq<Arg>, back: seq<Arg>)
    requires NoFieldCoeff(front) && NoFieldCoeff(back)
    requires |passedFields| == |declaredFields|
    requires forall k :: 0 <= k < |passedFields| ==> passedFields[k] == AsPassed(declaredFields[k])
    ensures |front + passedFields + back| == |front + declaredFields + back|
    ensures forall k :: 0 <= k < |front + passedFields + back| ==>
      (front + passedFields + back)[k] == AsPassed((front + declaredFields + back)[k])
  {
    var passed := front + passedFields + back;
    var declared := front + declaredFields + back;
    forall k | 0 <= k < |passed|
      ensures passed[k] == AsPassed(declared[k])
    {
      if k < |front| {
        assert passed[k] == front[k] == declared[k];
      } else if k < |front| + |passedFields| {
        assert passed[k] == passedFields[k - |front|];
        assert declared[k] == declaredFields[k - |front|];
      } else {
        assert passed[k] == back[k - |front| - |passedFields|] == declared[k];
      }
    }
  }

  /** With the form's fields in the symbol's field order, every passed argument is exactly
      the declared one, as a caller passes it. */
  lemma PassedArgsAligned(expr: GltExpr, kernelMapping: Option<SymMapping>, mapping: Option<SymMapping>, fields: seq<string>)
    requires WellFormed(expr.symbol)
    requires |fields| == |expr.symbol.fieldOrder|
    requires mapping.Some? == kernelMapping.Some?
    requires forall k :: 0 <= k < |fields| ==> fields[k] == expr.symbol.fieldOrder[k].name
    ensures var passed := ArrTs(expr.ldim) + PassedData(expr, fields, mapping, MappingCoeffArgs(kernelMapping)) + ConstantsOf(expr);
      && |passed| == |KernelArgs(expr, kernelMapping)|
      && forall k :: 0 <= k < |passed| ==> passed[k] == AsPassed(KernelArgs(expr, kernelMapping)[k])
  {
    var sym := expr.symbol;
    var front := ArrTs(expr.ldim) + CoordinatesOf(expr) + (if HasGridData(sym, kernelMapping) then GridData(expr.ldim) else []);
    var back := MappingCoeffArgs(kernelMapping) + GlobalMats(Rows(sym), Cols(sym)) + ConstantsOf(expr);
    GridConditionAgrees(sym, kernelMapping, mapping, fields);
    PassedBlocks(expr, kernelMapping, mapping, fields);
    OuterBlocksNoFieldCoeff(expr, kernelMapping);
    FieldBlocksAgree(fields, sym);
    assert forall k :: 0 <= k < |fields| ==> FieldDataArgs(fields)[k] == AsPassed(FieldCoeffs(sym)[k]);
    AlignedBlocks(front, FieldDataArgs(fields), FieldCoeffs(sym), back);
  }

  lemma ParamArgsPositional(args: seq<Arg>)
    ensures ParamArgs(AsPositional(args)) == args
  {
  }

  lemma BuildArgumentsLayout(kernel: GltKernel, data: seq<Arg>)
    ensures kernel.BuildArguments(data) == kernel.basicArgs + data + kernel.Constants()
  {
  }

  /** What the interface reads from a valid kernel. */
  lemma KernelCallFacts(kernel: GltKernel)
    requires kernel.Valid()
    ensures ParamArgs(kernel.func.params) == KernelArgs(kernel.expr, kernel.mapping)
    ensures kernel.MappingCoeffs() == MappingCoeffArgs(kernel.mapping)
    ensures kernel.basicArgs == ArrTs(kernel.expr.ldim) && kernel.Constants() == ConstantsOf(kernel.expr)
    ensures kernel.coordinates == CoordinatesOf(kernel.expr)
    ensures kernel.globalMats == GlobalMats(Rows(kernel.expr.symbol), Cols(kernel.expr.symbol))
  {
    ParamArgsPositional(KernelArgs(kernel.expr, kernel.mapping));
    kernel.MappingAccessors();
  }

  /** The second-to-last statement of the interface is its call of the kernel. */
  lemma InterfaceCallFacts(iface: GltInterface)
    requires iface.Valid()
    ensures |iface.func.body| >= 2
    ensures iface.func.body[|iface.func.body| - 2]
         == Call(KernelFunction(iface.kernel.func.name),
                 iface.kernel.BuildArguments(KernelCallData(iface.kernel, iface.fields, iface.mapping)))
  {
    var kernel := iface.kernel;
    var front := LengthAssigns(kernel.expr.ldim) + InterfaceSetup(kernel, iface.fields, iface.mapping)
                 + Allocations(kernel.globalMats, kernel.globalMatsTypes, kernel.expr.ldim);
    var call := Call(KernelFunction(kernel.func.name), kernel.BuildArguments(KernelCallData(kernel, iface.fields, iface.mapping)));
    assert (front + [call, ResultStatement(kernel.globalMats)])[|front| + 2 - 2] == call;
  }

  /** The interface's kernel call passes, position by position, arguments of the categories
      the kernel declares, and the declared arguments themselves outside the field block,
      provided the form has as many fields as the symbol and both sides agree on the
      presence of a mapping. When the two field orders coincide, every position carries
      exactly what is declared there, as the caller passes it. */
  lemma CallMatchesDeclaration(iface: GltInterface)
    requires iface.Valid()
    requires |iface.fields| == |iface.kernel.expr.symbol.fieldOrder|
    requires iface.mapping.Some? == iface.kernel.mapping.Some?
    ensures |iface.func.body| >= 2
    ensures var call := iface.func.body[|iface.func.body| - 2];
      && call == Call(KernelFunction(iface.kernel.func.name), call.args)
      && Agree(call.args, ParamArgs(iface.kernel.func.params))
    ensures (forall k :: 0 <= k < |iface.fields| ==> iface.fields[k] == iface.kernel.expr.symbol.fieldOrder[k].name) ==>
      var call := iface.func.body[|iface.func.body| - 2];
      var declared := ParamArgs(iface.kernel.func.params);
      |call.args| == |declared| && forall k :: 0 <= k < |declared| ==> call.args[k] == AsPassed(declared[k])
  {
    var kernel := iface.kernel;
    var expr := kernel.expr;
    KernelCallFacts(kernel);
    InterfaceCallFacts(iface);
    var data := KernelCallData(kernel, iface.fields, iface.mapping);
    assert data == PassedData(expr, iface.fields, iface.mapping, MappingCoeffArgs(kernel.mapping));
    BuildArgumentsLayout(kernel, data);
    PassedArgsAgree(expr, kernel.mapping, iface.mapping, iface.fields);
    if forall k :: 0 <= k < |iface.fields| ==> iface.fields[k] == expr.symbol.fieldOrder[k].name {
      PassedArgsAligned(expr, kernel.mapping, iface.mapping, iface.fields);
    }
  }

  /** `params` is `positional` as positional parameters, then `mats` with `None` defaults. */
  predicate ParamsShape(params: seq<Param>, positional: seq<Arg>, mats: seq<Arg>) {
    && |params| == |positional| + |mats|
    && (forall k :: 0 <= k < |positional| ==> params[k] == Positional(positional[k]))
    && (forall k :: 0 <= k < |mats| ==> params[|positional| + k] == NilDefault(mats[k]))
  }

  lemma AsPositionalConcat(a: seq<Arg>, b: seq<Arg>)
    ensures AsPositional(a + b) == AsPositional(a) + AsPositional(b)
  {
  }

  lemma ShapeOf(positional: seq<Arg>, mats: seq<Arg>)
    ensures ParamsShape(AsPositional(positional) + NilDefaults(mats), positional, mats)
  {
  }

  /** A positional prefix followed by the signature tail: every positional part in order,
      then every buffer with a `None` default. */
  lemma ParamsLayout(kernelBasic: seq<Arg>, basisValues: seq<Arg>, mappingPart: seq<Arg>, constants: seq<Arg>,
                     coordinates: seq<Arg>, fields: seq<Arg>, mats: seq<Arg>)
    ensures ParamsShape(AsPositional(kernelBasic + [TestSpace] + basisValues)
                          + SignatureTail(AsPositional(mappingPart), AsPositional(constants),
                                          AsPositional(coordinates), AsPositional(fields), NilDefaults(mats)),
                        kernelBasic + [TestSpace] + basisValues + mappingPart + (constants + coordinates + fields), mats)
  {
    var basic := kernelBasic + [TestSpace] + basisValues;
    var data := constants + coordinates + fields;
    AsPositionalConcat(constants, coordinates);
    AsPositionalConcat(constants + coordinates, fields);
    AsPositionalConcat(basic, mappingPart);
    AsPositionalConcat(basic + mappingPart, data);
    var tail := SignatureTail(AsPositional(mappingPart), AsPositional(constants),
                              AsPositional(coordinates), AsPositional(fields), NilDefaults(mats));
    assert AsPositional(basic) + tail
        == (AsPositional(basic) + AsPositional(mappingPart) + AsPositional(data)) + NilDefaults(mats);
    ShapeOf(basic + mappingPart + data, mats);
  }

  /** The interface's parameters: the kernel's `arr_t*`, `W`, `basis_values` when there are
      fields or a mapping, then `mapping` when there is one, the constants, coordinates and
      fields, and last every output buffer with a `None` default. */
  lemma InterfaceSignatureLayout(iface: GltInterface)
    requires iface.Signature()
    ensures ParamsShape(iface.func.params,
                        iface.kernel.basicArgs + [TestSpace]
                          + (if HasBasisValues(iface.fields, iface.mapping) then [BasisValues] else [])
                          + (if iface.mapping.Some? then [MappingObject] else [])
                          + (iface.kernel.Constants() + iface.kernel.coordinates + FieldObjects(iface.fields)),
                        iface.kernel.globalMats)
  {
    assert iface.basicArgs == iface.kernel.basicArgs + [TestSpace]
                              + (if HasBasisValues(iface.fields, iface.mapping) then [BasisValues] else []);
  }

  /** Parameters shaped as the basic arguments, the mapping, then the constants,
      coordinates and fields, then the buffers: each of `coordinates + constants + fields`
      is a required parameter, and the buffers are the trailing optional ones. */
  lemma ClassifiedParams(params: seq<Param>, basic: seq<Arg>, hasMapping: bool, constants: seq<Arg>,
                         coordinates: seq<Arg>, fields: seq<Arg>, mats: seq<Arg>, inArgs: seq<Arg>, inoutArgs: seq<Arg>)
    requires ParamsShape(params, basic + (if hasMapping then [MappingObject] else []) + (constants + coordinates + fields), mats)
    requires inArgs == coordinates + constants + fields
    requires inoutArgs == mats
    ensures |params| == |basic| + (if hasMapping then 1 else 0) + |inArgs| + |inoutArgs|
    ensures forall a :: a in inArgs ==> Positional(a) in params
    ensures forall k :: 0 <= k < |inoutArgs| ==> params[|params| - |inoutArgs| + k] == NilDefault(inoutArgs[k])
  {
    var positional := basic + (if hasMapping then [MappingObject] else []) + (constants + coordinates + fields);
    forall a | a in inArgs
      ensures Positional(a) in params
    {
      assert a in positional;
      var k :| 0 <= k < |positional| && positional[k] == a;
      assert params[k] == Positional(a);
    }
  }

  /** The arguments named by parameters laid out by `ParamsShape`. */
  lemma ShapeArgs(params: seq<Param>, positional: seq<Arg>, mats: seq<Arg>)
    requires ParamsShape(params, positional, mats)
    ensures ParamArgs(params) == positional + mats
  {
    var args := ParamArgs(params);
    forall k | 0 <= k < |args| ensures args[k] == (positional + mats)[k] {
      if k >= |positional| {
        assert params[|positional| + (k - |positional|)] == NilDefault(mats[k - |positional|]);
      }
    }
  }

  /** Line 832: the interface declares `build_arguments` of the signature tail, that is the
      basic arguments followed by the mapping, constants, coordinates, fields and buffers. */
  lemma SignatureBuildsArguments(iface: GltInterface)
    requires iface.Signature()
    ensures ParamArgs(iface.func.params) ==
      iface.BuildArguments((if iface.mapping.Some? then [MappingObject] else [])
        + iface.kernel.Constants() + iface.kernel.coordinates + FieldObjects(iface.fields) + iface.kernel.globalMats)
  {
    var mappingPart := if iface.mapping.Some? then [MappingObject] else [];
    var rest := iface.kernel.Constants() + iface.kernel.coordinates + FieldObjects(iface.fields);
    var mats := iface.kernel.globalMats;
    ShapeArgs(iface.func.params, iface.basicArgs + mappingPart + rest, mats);
    assert iface.basicArgs + mappingPart + rest + mats == iface.basicArgs + (mappingPart + iface.kernel.Constants() + iface.kernel.coordinates + FieldObjects(iface.fields) + mats);
  }

  /** The "in" arguments are required parameters of the interface and the "inout" ones are
      exactly its trailing parameters defaulting to `None`; apart from them the interface
      takes only its basic arguments and the mapping. */
  lemma ArgumentClassification(iface: GltInterface)
    requires iface.Signature()
    ensures |iface.func.params| ==
      |iface.basicArgs| + (if iface.mapping.Some? then 1 else 0) + |iface.inArguments| + |iface.inoutArguments|
    ensures forall a :: a in iface.inArguments ==> Positional(a) in iface.func.params
    ensures forall k :: 0 <= k < |iface.inoutArguments| ==>
      iface.func.params[|iface.func.params| - |iface.inoutArguments| + k] == NilDefault(iface.inoutArguments[k])
  {
    var kernel := iface.kernel;
    ClassifiedParams(iface.func.params, iface.basicArgs, iface.mapping.Some?, kernel.Constants(), kernel.coordinates,
                     FieldObjects(iface.fields), kernel.globalMats, iface.inArguments, iface.inoutArguments);
  }
}
