/**
 * The kernel builder (`GltKernel`): from the reduced symbol it fixes the output buffers
 * and their types, the sub-kernel requests, the positional signature and the body of the
 * loop-based routine that evaluates the symbol on a grid of points.
 */
module Kernel {
  import opened Outcomes
  import opened Strings
  import opened Seqs
  import opened Symbols
  import opened CodeAst

  // ---------------------------------------------------------------- names per axis

  function ArrTs(dim: nat): seq<Arg> { seq(dim, k requires 0 <= k < dim => ArrT(k)) }
  function Degrees(dim: nat): seq<Arg> { seq(dim, k requires 0 <= k < dim => Degree(k)) }
  function Spans(dim: nat): seq<Arg> { seq(dim, k requires 0 <= k < dim => Span(k)) }
  function Bases(dim: nat): seq<Arg> { seq(dim, k requires 0 <= k < dim => Basis(k)) }
  function IndexVars(dim: nat): seq<Arg> { seq(dim, k requires 0 <= k < dim => LoopIndex(k)) }
  function Lengths(dim: nat): seq<Arg> { seq(dim, k requires 0 <= k < dim => Length(k)) }

  /** `degrees + spans + basis`. */
  function GridData(dim: nat): seq<Arg> { Degrees(dim) + Spans(dim) + Bases(dim) }

  function CoordinatesOf(expr: GltExpr): seq<Arg> {
    seq(|expr.spaceVariables|, k requires 0 <= k < |expr.spaceVariables| => Coordinate(expr.spaceVariables[k]))
  }

  function ConstantsOf(expr: GltExpr): seq<Arg> {
    seq(|expr.constants|, k requires 0 <= k < |expr.constants| => Constant(expr.constants[k]))
  }

  /** `fields_coeffs`: one `coeff_F` per scalar field, in the set's iteration order. */
  function FieldCoeffs(sym: Symbol): seq<Arg> {
    seq(|sym.fieldOrder|, k requires 0 <= k < |sym.fieldOrder| => FieldCoeff(sym.fieldOrder[k].name))
  }

  /** `fields_val`: one `F_values` buffer per printed field atom, sorted. */
  function FieldValueBuffers(sym: Symbol): seq<Arg> {
    var fs := FieldStrings(sym);
    seq(|fs|, k requires 0 <= k < |fs| => FieldValues(fs[k]))
  }

  function MappingCoeffArgs(mapping: Option<SymMapping>): seq<Arg> {
    match mapping
    case None => []
    case Some(m) => seq(|m.coeffs|, k requires 0 <= k < |m.coeffs| => MappingCoeff(m.coeffs[k]))
  }

  function MappingValueArgs(mapping: Option<SymMapping>): seq<Arg> {
    match mapping
    case None => []
    case Some(m) => seq(|m.values|, k requires 0 <= k < |m.values| => MappingValues(m.values[k]))
  }

  // ---------------------------------------------------------------- output buffers

  function CellType(c: Cell): DType {
    if c.hasImaginaryUnit then Complex else Float
  }

  function MatRows(nRows: nat, nCols: nat): seq<seq<Arg>> {
    seq(nRows, i requires 0 <= i < nRows => seq(nCols, j requires 0 <= j < nCols => OutputMat(i, j)))
  }

  /** `global_mats`: one buffer per cell, row-major. */
  function GlobalMats(nRows: nat, nCols: nat): seq<Arg> {
    Flatten(MatRows(nRows, nCols))
  }

  function TypeRows(sym: Symbol): seq<seq<DType>>
    requires Rectangular(sym)
  {
    seq(Rows(sym), i requires 0 <= i < Rows(sym) =>
      seq(Cols(sym), j requires 0 <= j < Cols(sym) => CellType(CellAt(sym, i, j))))
  }

  /** `global_mats_types`: the type of each cell, row-major; a scalar has one. */
  function MatsTypes(sym: Symbol): seq<DType>
    requires Rectangular(sym)
  {
    match sym.shape
    case Scalar(c) => [CellType(c)]
    case Matrix(_, _, _) => Flatten(TypeRows(sym))
  }

  /** Lines 568-573: the output buffers, enumerated row by row. */
  method OutputMats(nRows: nat, nCols: nat) returns (mats: seq<Arg>)
    ensures mats == GlobalMats(nRows, nCols)
  {
    ghost var rows := MatRows(nRows, nCols);
    mats := [];
    for i := 0 to nRows
      invariant mats == Flatten(rows[..i])
    {
      for j := 0 to nCols
        invariant mats == Flatten(rows[..i]) + rows[i][..j]
      {
        mats := mats + [OutputMat(i, j)];
      }
      assert rows[i][..nCols] == rows[i];
      FlattenSnoc(rows, i);
    }
    assert rows[..nRows] == rows;
  }

  /** Lines 577-593: `complex` for a cell holding the imaginary unit, `float` otherwise. */
  method OutputTypes(sym: Symbol) returns (types: seq<DType>)
    requires Rectangular(sym)
    ensures types == MatsTypes(sym)
  {
    types := [];
    if sym.shape.Matrix? {
      ghost var rows := TypeRows(sym);
      for i := 0 to Rows(sym)
        invariant types == Flatten(rows[..i])
      {
        for j := 0 to Cols(sym)
          invariant types == Flatten(rows[..i]) + rows[i][..j]
        {
          var dtype := Float;
          if CellAt(sym, i, j).hasImaginaryUnit {
            dtype := Complex;
          }
          types := types + [dtype];
        }
        assert rows[i][..Cols(sym)] == rows[i];
        FlattenSnoc(rows, i);
      }
      assert rows[..Rows(sym)] == rows;
    } else {
      var dtype := Float;
      if sym.shape.cell.hasImaginaryUnit {
        dtype := Complex;
      }
      types := types + [dtype];
    }
  }

  /** Cell (i, j) owns buffer `symbol_ij`, found at position i*n_cols+j. */
  lemma GlobalMatsLayout(nRows: nat, nCols: nat, i: nat, j: nat)
    requires i < nRows && j < nCols
    ensures |GlobalMats(nRows, nCols)| == nRows * nCols
    ensures RowMajorIndex(i, j, nCols) < nRows * nCols
    ensures GlobalMats(nRows, nCols)[RowMajorIndex(i, j, nCols)] == OutputMat(i, j)
  {
    var rows := MatRows(nRows, nCols);
    FlattenLength(rows, nCols);
    FlattenAt(rows, nCols, i, j);
  }

  /** The buffer of cell (i, j) is typed complex exactly when the cell holds the
      imaginary unit; there is one type per buffer. */
  lemma MatsTypesLayout(sym: Symbol, i: nat, j: nat)
    requires Rectangular(sym) && i < Rows(sym) && j < Cols(sym)
    ensures |MatsTypes(sym)| == Rows(sym) * Cols(sym)
    ensures RowMajorIndex(i, j, Cols(sym)) < |MatsTypes(sym)|
    ensures MatsTypes(sym)[RowMajorIndex(i, j, Cols(sym))] == Complex <==> CellAt(sym, i, j).hasImaginaryUnit
  {
    if sym.shape.Matrix? {
      var rows := TypeRows(sym);
      FlattenLength(rows, Cols(sym));
      FlattenAt(rows, Cols(sym), i, j);
    }
  }

  /** A scalar symbol has exactly one output buffer, `symbol_00`. */
  lemma ScalarHasOneOutput(sym: Symbol)
    requires sym.shape.Scalar?
    ensures GlobalMats(Rows(sym), Cols(sym)) == [OutputMat(0, 0)]
    ensures MatsTypes(sym) == [CellType(sym.shape.cell)]
  {
    var rows := MatRows(1, 1);
    assert rows[..0] == [];
    assert Flatten(rows) == Flatten(rows[..0]) + rows[0];
  }

  // ---------------------------------------------------------------- derivative order

  /** `nderiv`: at least 1, at least every cell's highest derivative order, and attained. */
  ghost predicate IsMaxNderiv(sym: Symbol, n: nat) {
    && n >= 1
    && (forall c :: c in Cells(sym) ==> c.maxDerivative <= n)
    && (n == 1 || exists c :: c in Cells(sym) && c.maxDerivative == n)
  }

  /** Lines 370-381. */
  method MaxNderiv(sym: Symbol) returns (nderiv: nat)
    requires Rectangular(sym)
    ensures IsMaxNderiv(sym, nderiv)
  {
    nderiv := 1;
    var grid: seq<seq<Cell>> := Grid(sym);
    if sym.shape.Matrix? {
      for i := 0 to Rows(sym)
        invariant nderiv >= 1
        invariant forall c: Cell :: c in Flatten(grid[..i]) ==> c.maxDerivative <= nderiv
        invariant nderiv == 1 || exists c: Cell :: c in Flatten(grid[..i]) && c.maxDerivative == nderiv
      {
        FlattenSnoc(grid, i);
        for j := 0 to Cols(sym)
          invariant nderiv >= 1
          invariant forall c: Cell :: c in Flatten(grid[..i]) + grid[i][..j] ==> c.maxDerivative <= nderiv
          invariant nderiv == 1 || exists c: Cell :: c in Flatten(grid[..i]) + grid[i][..j] && c.maxDerivative == nderiv
        {
          var d := grid[i][j].maxDerivative;
          assert grid[i][..j + 1] == grid[i][..j] + [grid[i][j]];
          nderiv := Max(nderiv, d);
        }
        assert grid[i][..Cols(sym)] == grid[i];
      }
      assert grid[..Rows(sym)] == grid;
    } else {
      var d := sym.shape.cell.maxDerivative;
      nderiv := Max(nderiv, d);
      assert grid[..0] == [];
      assert Flatten(grid) == Flatten(grid[..0]) + grid[0];
    }
  }

  // ---------------------------------------------------------------- sub-kernel requests

  /** The names of the fields living in space `s` (`g_names`). */
  function GroupNames(sym: Symbol, s: string): set<string> {
    set f | f in FieldRefs(sym) && f.space == s :: f.name
  }

  /** The field atoms that involve a field of space `s` (`fields_expressions`). */
  function GroupExprs(sym: Symbol, s: string): set<FieldAtom> {
    set e | e in FieldExprs(sym) && e.field in GroupNames(sym, s)
  }

  /** `eval_fields`: one field sub-kernel per distinct space name, in sorted order, each
      handed the field atoms of that space's fields. */
  function FieldEvaluators(sym: Symbol, mapping: Option<SymMapping>, backend: Backend): seq<FieldEvaluator> {
    var names := SpaceNames(sym);
    seq(|names|, k requires 0 <= k < |names| =>
      FieldEvaluator(names[k], GroupExprs(sym, names[k]), mapping, backend))
  }

  /** There is one field sub-kernel per space of the symbol's fields, and they come in
      strictly increasing order of space name. */
  lemma FieldEvaluatorsOrder(sym: Symbol, mapping: Option<SymMapping>, backend: Backend)
    ensures |FieldEvaluators(sym, mapping, backend)| == |SpaceSet(sym)|
    ensures forall i, j :: 0 <= i < j < |FieldEvaluators(sym, mapping, backend)| ==>
      StrLt(FieldEvaluators(sym, mapping, backend)[i].space, FieldEvaluators(sym, mapping, backend)[j].space)
  {
    var names := SpaceNames(sym);
    var r := FieldEvaluators(sym, mapping, backend);
    assert forall k :: 0 <= k < |r| ==> r[k].space == names[k];
  }

  /** Every space of a field has its sub-kernel, and every sub-kernel belongs to such a space. */
  lemma FieldEvaluatorsCover(sym: Symbol, mapping: Option<SymMapping>, backend: Backend, f: FieldRef)
    ensures f in FieldRefs(sym) ==>
      exists k :: 0 <= k < |FieldEvaluators(sym, mapping, backend)| && FieldEvaluators(sym, mapping, backend)[k].space == f.space
    ensures forall k :: 0 <= k < |FieldEvaluators(sym, mapping, backend)| ==>
      FieldEvaluators(sym, mapping, backend)[k].space in SpaceSet(sym)
  {
    var names := SpaceNames(sym);
    var r := FieldEvaluators(sym, mapping, backend);
    assert forall k :: 0 <= k < |r| ==> r[k].space == names[k];
    if f in FieldRefs(sym) {
      assert f.space in SpaceSet(sym);
      assert f.space in names;
      var k :| 0 <= k < |names| && names[k] == f.space;
      assert r[k].space == f.space;
    }
  }

  /** Each field sub-kernel receives exactly the atoms of its space's fields, and the
      kernel's own mapping and backend. */
  lemma FieldEvaluatorsContents(sym: Symbol, mapping: Option<SymMapping>, backend: Backend, k: nat, e: FieldAtom)
    requires k < |FieldEvaluators(sym, mapping, backend)|
    ensures var ev := FieldEvaluators(sym, mapping, backend)[k];
      && (e in ev.exprs <==> e in FieldExprs(sym) && FieldRef(e.field, ev.space) in FieldRefs(sym))
      && ev.mapping == mapping && ev.backend == backend
  {
    var ev := FieldEvaluators(sym, mapping, backend)[k];
    if FieldRef(e.field, ev.space) in FieldRefs(sym) {
      assert e.field in GroupNames(sym, ev.space);
    }
  }

  /** Lines 343-364: group the field atoms by space name and request one sub-kernel per group. */
  method BuildFieldEvaluators(sym: Symbol, mapping: Option<SymMapping>, backend: Backend)
    returns (evalFields: seq<FieldEvaluator>)
    ensures evalFields == FieldEvaluators(sym, mapping, backend)
  {
    evalFields := [];
    if FieldExprs(sym) != {} {
      var names := SpaceNames(sym);
      for k := 0 to |names|
        invariant evalFields == FieldEvaluators(sym, mapping, backend)[..k]
      {
        var gNames := GroupNames(sym, names[k]);
        var exprs := set e | e in FieldExprs(sym) && e.field in gNames;
        evalFields := evalFields + [FieldEvaluator(names[k], exprs, mapping, backend)];
      }
    } else {
      FieldStringsEmpty(sym);
    }
  }

  /** Lines 384-398: the mapping sub-kernel, requested on the first space with `nderiv`. */
  function MappingEvaluatorFor(space: Space, mapping: Option<SymMapping>, nderiv: nat,
                               isRationalMapping: Option<bool>, backend: Backend): Option<MappingEvaluator>
  {
    match mapping
    case None => None
    case Some(m) => Some(MappingEvaluator(space, m, nderiv, isRationalMapping, backend))
  }

  /** `_dependencies` after lines 366 and 398: the field sub-kernels, then the mapping one. */
  function DependenciesOf(evalFields: seq<FieldEvaluator>, evalMapping: Option<MappingEvaluator>): seq<Dependency> {
    seq(|evalFields|, k requires 0 <= k < |evalFields| => FieldDependency(evalFields[k]))
      + (if evalMapping.Some? then [MappingDependency(evalMapping.value)] else [])
  }

  // ---------------------------------------------------------------- the body

  function LengthAssigns(dim: nat): seq<Stmt> {
    seq(dim, k requires 0 <= k < dim => Assign(ToVar(Length(k)), LenOf(ArrT(k))))
  }

  function ZeroRows(nRows: nat, nCols: nat): seq<seq<Stmt>> {
    seq(nRows, i requires 0 <= i < nRows =>
      seq(nCols, j requires 0 <= j < nCols => Assign(ToWhole(OutputMat(i, j)), ZeroFloat)))
  }

  /** `k_i = len(arr_t_i)` per axis, then every output buffer set to zero. */
  function PreludeHeadSpec(dim: nat, nRows: nat, nCols: nat): seq<Stmt> {
    LengthAssigns(dim) + Flatten(ZeroRows(nRows, nCols))
  }

  /** Lines 455-466. */
  method PreludeHead(dim: nat, nRows: nat, nCols: nat) returns (prelude: seq<Stmt>)
    ensures prelude == PreludeHeadSpec(dim, nRows, nCols)
  {
    prelude := [];
    for k := 0 to dim
      invariant prelude == LengthAssigns(dim)[..k]
    {
      prelude := prelude + [Assign(ToVar(Length(k)), LenOf(ArrT(k)))];
    }
    ghost var rows := ZeroRows(nRows, nCols);
    for i := 0 to nRows
      invariant prelude == LengthAssigns(dim) + Flatten(rows[..i])
    {
      for j := 0 to nCols
        invariant prelude == LengthAssigns(dim) + Flatten(rows[..i]) + rows[i][..j]
      {
        prelude := prelude + [Assign(ToWhole(OutputMat(i, j)), ZeroFloat)];
      }
      assert rows[i][..nCols] == rows[i];
      FlattenSnoc(rows, i);
    }
    assert rows[..nRows] == rows;
  }

  /** `F = F_values[i1, .., id]` for every printed field atom. */
  function FieldReads(fs: seq<string>, dim: nat): seq<Stmt> {
    seq(|fs|, k requires 0 <= k < |fs| => Assign(ToVar(FieldValue(fs[k])), At(FieldValues(fs[k]), IndexVars(dim))))
  }

  /** The mapping's elements read from their value buffers (as far as `zip` pairs them),
      then the Jacobian determinant. */
  function MappingReads(mapping: Option<SymMapping>, dim: nat): seq<Stmt> {
    match mapping
    case None => []
    case Some(m) =>
      var n := if |m.elements| < |m.values| then |m.elements| else |m.values|;
      seq(n, k requires 0 <= k < n => Assign(ToVar(MappingElement(m.elements[k])), At(MappingValues(m.values[k]), IndexVars(dim))))
        + [Assign(ToVar(DetJacobian), DetJacobianValue)]
  }

  function CellAssignRows(nRows: nat, nCols: nat, dim: nat): seq<seq<Stmt>> {
    seq(nRows, i requires 0 <= i < nRows =>
      seq(nCols, j requires 0 <= j < nCols => Assign(ToElement(OutputMat(i, j), IndexVars(dim)), CellValue(i, j))))
  }

  /** The innermost body: field values, then the mapping, then one assignment per cell. */
  function InnerBodySpec(fs: seq<string>, mapping: Option<SymMapping>, nRows: nat, nCols: nat, dim: nat): seq<Stmt> {
    FieldReads(fs, dim) + MappingReads(mapping, dim) + Flatten(CellAssignRows(nRows, nCols, dim))
  }

  /** Lines 469-470: one read per printed field atom, in order. */
  method BuildFieldReads(fs: seq<string>, dim: nat) returns (stmts: seq<Stmt>)
    ensures stmts == FieldReads(fs, dim)
  {
    var indices := IndexVars(dim);
    stmts := [];
    for i := 0 to |fs|
      invariant stmts == FieldReads(fs, dim)[..i]
    {
      stmts := stmts + [Assign(ToVar(FieldValue(fs[i])), At(FieldValues(fs[i]), indices))];
    }
  }

  /** Lines 474-483: the pairs `zip` forms, then the Jacobian determinant; nothing
      without a mapping. */
  method BuildMappingReads(mapping: Option<SymMapping>, dim: nat) returns (stmts: seq<Stmt>)
    ensures stmts == MappingReads(mapping, dim)
  {
    stmts := [];
    if mapping.Some? {
      var indices := IndexVars(dim);
      var m := mapping.value;
      var n := if |m.elements| < |m.values| then |m.elements| else |m.values|;
      for k := 0 to n
        invariant stmts == MappingReads(mapping, dim)[..k]
      {
        stmts := stmts + [Assign(ToVar(MappingElement(m.elements[k])), At(MappingValues(m.values[k]), indices))];
      }
      stmts := stmts + [Assign(ToVar(DetJacobian), DetJacobianValue)];
      assert MappingReads(mapping, dim) == MappingReads(mapping, dim)[..n] + [Assign(ToVar(DetJacobian), DetJacobianValue)];
    }
  }

  /** Lines 490-499: one assignment per cell, row by row. */
  method BuildCellAssigns(nRows: nat, nCols: nat, dim: nat) returns (assigns: seq<Stmt>)
    ensures assigns == Flatten(CellAssignRows(nRows, nCols, dim))
  {
    var indices := IndexVars(dim);
    assigns := [];
    ghost var rows := CellAssignRows(nRows, nCols, dim);
    for i := 0 to nRows
      invariant assigns == Flatten(rows[..i])
    {
      for j := 0 to nCols
        invariant assigns == Flatten(rows[..i]) + rows[i][..j]
      {
        assigns := assigns + [Assign(ToElement(OutputMat(i, j), indices), CellValue(i, j))];
      }
      assert rows[i][..nCols] == rows[i];
      FlattenSnoc(rows, i);
    }
    assert rows[..nRows] == rows;
  }

  /** Lines 468-499. */
  method InnerBody(fs: seq<string>, mapping: Option<SymMapping>, nRows: nat, nCols: nat, dim: nat)
    returns (body: seq<Stmt>)
    ensures body == InnerBodySpec(fs, mapping, nRows, nCols, dim)
  {
    var fieldReads := BuildFieldReads(fs, dim);
    var mappingReads := BuildMappingReads(mapping, dim);
    var assigns := BuildCellAssigns(nRows, nCols, dim);
    body := fieldReads + mappingReads + assigns;
  }

  /** What each loop level binds first: `x_k = arr_x_k[i_k]` when the expression has
      coordinates, then `t_k = arr_t_k[i_k]`. */
  function LevelHeader(k: nat, withCoordinates: bool): seq<Stmt> {
    (if withCoordinates then [Assign(ToVar(X(k)), At(ArrX(k), [LoopIndex(k)]))] else [])
      + [Assign(ToVar(T(k)), At(ArrT(k), [LoopIndex(k)]))]
  }

  /** The loops over axes `from .. dim-1`, outermost first, around `inner`. */
  function LoopNest(from: nat, dim: nat, withCoordinates: bool, inner: seq<Stmt>): seq<Stmt>
    decreases dim - from
  {
    if from >= dim then inner
    else [For(LoopIndex(from), Length(from), LevelHeader(from, withCoordinates) + LoopNest(from + 1, dim, withCoordinates, inner))]
  }

  /** Lines 501-514: wrap the body from the innermost axis outwards. */
  method BuildLoopNest(dim: nat, withCoordinates: bool, inner: seq<Stmt>) returns (body: seq<Stmt>)
    ensures body == LoopNest(0, dim, withCoordinates, inner)
  {
    body := inner;
    var i := dim;
    while i > 0
      invariant 0 <= i <= dim
      invariant body == LoopNest(i, dim, withCoordinates, inner)
    {
      i := i - 1;
      ghost var rest := body;
      body := [Assign(ToVar(T(i)), At(ArrT(i), [LoopIndex(i)]))] + body;
      if withCoordinates {
        body := [Assign(ToVar(X(i)), At(ArrX(i), [LoopIndex(i)]))] + body;
      }
      assert body == LevelHeader(i, withCoordinates) + rest;
      body := [For(LoopIndex(i), Length(i), body)];
    }
  }

  lemma {:induction false} DepthZero(s: seq<Stmt>)
    requires forall k :: 0 <= k < |s| ==> s[k].Assign?
    ensures Depth(s) == 0
    decreases |s|
  {
    if s != [] { DepthZero(s[1..]); }
  }

  /** Around a body of assignments the nest is exactly `dim - from` loops deep, and its
      chain of loop indices is `i_{from+1}, .., i_dim`, outermost first. */
  lemma {:induction false} LoopNestShape(from: nat, dim: nat, withCoordinates: bool, inner: seq<Stmt>)
    requires from <= dim
    requires forall k :: 0 <= k < |inner| ==> inner[k].Assign?
    ensures Depth(LoopNest(from, dim, withCoordinates, inner)) == dim - from
    ensures LoopChain(LoopNest(from, dim, withCoordinates, inner)) == IndexVars(dim)[from..]
    decreases dim - from
  {
    if from == dim {
      DepthZero(inner);
    } else {
      LoopNestShape(from + 1, dim, withCoordinates, inner);
      var rest := LoopNest(from + 1, dim, withCoordinates, inner);
      var header := LevelHeader(from, withCoordinates);
      DepthConcat(header, rest);
      DepthZero(header);
      var nest := LoopNest(from, dim, withCoordinates, inner);
      assert nest == [For(LoopIndex(from), Length(from), header + rest)];
      assert Depth(nest[1..]) == 0;
      LastOfConcat(header, rest, from + 1 < dim);
      assert IndexVars(dim)[from..] == [LoopIndex(from)] + IndexVars(dim)[from + 1..];
    }
  }

  lemma {:induction false} DepthConcat(a: seq<Stmt>, b: seq<Stmt>)
    ensures Depth(a + b) == Max(Depth(a), Depth(b))
    decreases |a|
  {
    if a != [] {
      assert (a + b)[1..] == a[1..] + b;
      DepthConcat(a[1..], b);
    } else {
      assert a + b == b;
    }
  }

  lemma LastOfConcat(header: seq<Stmt>, rest: seq<Stmt>, restIsLoop: bool)
    requires forall k :: 0 <= k < |header| ==> header[k].Assign?
    requires |header| > 0
    ensures LoopChain(header + rest) == LoopChain(rest) || (rest == [] && LoopChain(header + rest) == [])
  {
    if rest == [] {
      assert header + rest == header;
    } else {
      assert (header + rest)[|header + rest| - 1] == rest[|rest| - 1];
    }
  }

  lemma {:induction false} FlattenAssigns(rows: seq<seq<Stmt>>)
    requires forall r, c :: 0 <= r < |rows| && 0 <= c < |rows[r]| ==> rows[r][c].Assign?
    ensures forall k :: 0 <= k < |Flatten(rows)| ==> Flatten(rows)[k].Assign?
    decreases |rows|
  {
    if rows != [] {
      FlattenAssigns(rows[..|rows| - 1]);
    }
  }

  /** The innermost body consists of assignments only; around it the kernel's nest is
      exactly `dim` loops deep with `i1` outermost. */
  lemma KernelLoopNest(fs: seq<string>, mapping: Option<SymMapping>, nRows: nat, nCols: nat, dim: nat, withCoordinates: bool)
    ensures var nest := LoopNest(0, dim, withCoordinates, InnerBodySpec(fs, mapping, nRows, nCols, dim));
      Depth(nest) == dim && LoopChain(nest) == IndexVars(dim)
  {
    var inner := InnerBodySpec(fs, mapping, nRows, nCols, dim);
    var rows := CellAssignRows(nRows, nCols, dim);
    FlattenAssigns(rows);
    var pre := FieldReads(fs, dim) + MappingReads(mapping, dim);
    assert forall k :: 0 <= k < |pre| ==> pre[k].Assign?;
    assert forall k :: 0 <= k < |inner| ==> inner[k].Assign? by {
      forall k | 0 <= k < |inner| ensures inner[k].Assign? {
        if k >= |pre| { assert inner[k] == Flatten(rows)[k - |pre|]; }
      }
    }
    LoopNestShape(0, dim, withCoordinates, inner);
    assert IndexVars(dim)[0..] == IndexVars(dim);
  }

  /** In the innermost body, cell (i, j) is assigned after the field and mapping reads, at
      row-major position, into its own buffer indexed by `i1, .., id`. */
  lemma CellAssignmentAt(fs: seq<string>, mapping: Option<SymMapping>, nRows: nat, nCols: nat, dim: nat, i: nat, j: nat)
    requires i < nRows && j < nCols
    ensures var offset := |FieldReads(fs, dim)| + |MappingReads(mapping, dim)|;
      && |InnerBodySpec(fs, mapping, nRows, nCols, dim)| == offset + nRows * nCols
      && offset + RowMajorIndex(i, j, nCols) < offset + nRows * nCols
      && InnerBodySpec(fs, mapping, nRows, nCols, dim)[offset + RowMajorIndex(i, j, nCols)]
         == Assign(ToElement(OutputMat(i, j), IndexVars(dim)), CellValue(i, j))
  {
    var rows := CellAssignRows(nRows, nCols, dim);
    FlattenLength(rows, nCols);
    FlattenAt(rows, nCols, i, j);
  }

  // ---------------------------------------------------------------- sub-kernel calls

  /** The tuple handed to every field sub-kernel's `build_arguments`. */
  function FieldCallData(sym: Symbol, dim: nat): seq<Arg> {
    GridData(dim) + FieldCoeffs(sym) + FieldValueBuffers(sym)
  }

  /** The tuple handed to the mapping sub-kernel's `build_arguments`. */
  function MappingCallData(mapping: Option<SymMapping>, dim: nat): seq<Arg> {
    GridData(dim) + MappingCoeffArgs(mapping) + MappingValueArgs(mapping)
  }

  /** The mapping call first, then the field calls in reverse order of `eval_fields`. */
  function SubKernelCalls(evalFields: seq<FieldEvaluator>, evalMapping: Option<MappingEvaluator>,
                          fieldData: seq<Arg>, mappingData: seq<Arg>): seq<Stmt>
  {
    (if evalMapping.Some? then [Call(MappingSubKernel(evalMapping.value), mappingData)] else [])
      + seq(|evalFields|, k requires 0 <= k < |evalFields| => Call(FieldSubKernel(evalFields[|evalFields| - 1 - k]), fieldData))
  }

  /** Lines 516-532: each call is put in front of what is already there. */
  method PrependSubKernelCalls(evalFields: seq<FieldEvaluator>, evalMapping: Option<MappingEvaluator>,
                               fieldData: seq<Arg>, mappingData: seq<Arg>, nest: seq<Stmt>)
    returns (body: seq<Stmt>)
    ensures body == SubKernelCalls(evalFields, evalMapping, fieldData, mappingData) + nest
  {
    body := nest;
    for i := 0 to |evalFields|
      invariant body == seq(i, k requires 0 <= k < i => Call(FieldSubKernel(evalFields[i - 1 - k]), fieldData)) + nest
    {
      body := [Call(FieldSubKernel(evalFields[i]), fieldData)] + body;
    }
    if evalMapping.Some? {
      body := [Call(MappingSubKernel(evalMapping.value), mappingData)] + body;
    }
  }

  function ZeroBuffers(bufs: seq<Arg>, dim: nat): seq<Stmt> {
    seq(|bufs|, k requires 0 <= k < |bufs| => Assign(ToVar(bufs[k]), NewZeros(Lengths(dim))))
  }

  function KernelImports(hasFields: bool, hasMapping: bool, mathAtoms: seq<string>): seq<Import> {
    (if hasFields then [Import("zeros", "numpy")] else [])
      + (if hasMapping then [Import("zeros", "numpy")] else [])
      + seq(|mathAtoms|, k requires 0 <= k < |mathAtoms| => Import(mathAtoms[k], "numpy"))
  }

  /** Lines 535-559: zero the field and mapping value buffers at the end of the prelude,
      put the prelude in front of the body, and collect the imports. */
  method CompleteBody(prelude: seq<Stmt>, body: seq<Stmt>, fieldBufs: seq<Arg>, hasFields: bool,
                      mappingBufs: seq<Arg>, hasMapping: bool, dim: nat, mathAtoms: seq<string>)
    returns (full: seq<Stmt>, imports: seq<Import>)
    ensures full == prelude + ZeroBuffers(if hasFields then fieldBufs else [], dim)
                            + ZeroBuffers(if hasMapping then mappingBufs else [], dim) + body
    ensures imports == KernelImports(hasFields, hasMapping, mathAtoms)
  {
    var pre := prelude;
    imports := [];
    var lengths := Lengths(dim);
    if hasFields {
      imports := imports + [Import("zeros", "numpy")];
      for k := 0 to |fieldBufs|
        invariant pre == prelude + ZeroBuffers(fieldBufs, dim)[..k]
      {
        pre := pre + [Assign(ToVar(fieldBufs[k]), NewZeros(lengths))];
      }
      assert ZeroBuffers(fieldBufs, dim)[..|fieldBufs|] == ZeroBuffers(fieldBufs, dim);
    }
    ghost var mid := pre;
    if hasMapping {
      imports := imports + [Import("zeros", "numpy")];
      for k := 0 to |mappingBufs|
        invariant pre == mid + ZeroBuffers(mappingBufs, dim)[..k]
      {
        pre := pre + [Assign(ToVar(mappingBufs[k]), NewZeros(lengths))];
      }
      assert ZeroBuffers(mappingBufs, dim)[..|mappingBufs|] == ZeroBuffers(mappingBufs, dim);
    }
    full := pre + body;
    ghost var fixed := imports;
    for k := 0 to |mathAtoms|
      invariant imports == fixed + seq(k, i requires 0 <= i < k => Import(mathAtoms[i], "numpy"))
    {
      imports := imports + [Import(mathAtoms[k], "numpy")];
    }
  }

  // ---------------------------------------------------------------- signature and metadata

  /** Whether the kernel takes `degrees + spans + basis` (line 600: `fields or mapping`). */
  function HasGridData(sym: Symbol, mapping: Option<SymMapping>): bool {
    |FieldStrings(sym)| > 0 || mapping.Some?
  }

  /** Lines 598-603: `arr_t*`, then coordinates, grid data, field and mapping coefficients
      and output buffers, then the constants. */
  function KernelArgs(expr: GltExpr, mapping: Option<SymMapping>): seq<Arg> {
    var sym := expr.symbol;
    var dim := expr.ldim;
    ArrTs(dim)
      + (CoordinatesOf(expr) + (if HasGridData(sym, mapping) then GridData(dim) else [])
         + FieldCoeffs(sym) + MappingCoeffArgs(mapping) + GlobalMats(Rows(sym), Cols(sym)))
      + ConstantsOf(expr)
  }

  function Repeat(c: Category, n: nat): seq<Category> {
    seq(n, _ => c)
  }

  lemma CategoriesConcat(a: seq<Arg>, b: seq<Arg>)
    ensures Categories(a + b) == Categories(a) + Categories(b)
  {
  }

  lemma {:induction false} FlattenCategories(rows: seq<seq<Arg>>, n: nat)
    requires forall r :: 0 <= r < |rows| ==> |rows[r]| == n
    requires forall r, c :: 0 <= r < |rows| && 0 <= c < n ==> CategoryOf(rows[r][c]) == OutputCat
    ensures Categories(Flatten(rows)) == Repeat(OutputCat, |rows| * n)
    decreases |rows|
  {
    FlattenLength(rows, n);
    if rows != [] {
      var front := rows[..|rows| - 1];
      FlattenCategories(front, n);
      CategoriesConcat(Flatten(front), rows[|rows| - 1]);
    }
  }

  lemma CategoriesConcat3(a: seq<Arg>, b: seq<Arg>, c: seq<Arg>)
    ensures Categories(a + b + c) == Categories(a) + Categories(b) + Categories(c)
  {
    CategoriesConcat(a + b, c);
    CategoriesConcat(a, b);
  }

  lemma GridCategories(dim: nat)
    ensures Categories(GridData(dim)) == Repeat(DegreeCat, dim) + Repeat(SpanCat, dim) + Repeat(BasisCat, dim)
  {
    CategoriesConcat3(Degrees(dim), Spans(dim), Bases(dim));
    assert Categories(Degrees(dim)) == Repeat(DegreeCat, dim);
    assert Categories(Spans(dim)) == Repeat(SpanCat, dim);
    assert Categories(Bases(dim)) == Repeat(BasisCat, dim);
  }

  /** The categories of the block between `arr_t*` and the constants. */
  function DataCategories(expr: GltExpr, mapping: Option<SymMapping>): seq<Category> {
    var sym := expr.symbol;
    var dim := expr.ldim;
    Repeat(CoordinateCat, |expr.spaceVariables|)
      + (if HasGridData(sym, mapping) then Repeat(DegreeCat, dim) + Repeat(SpanCat, dim) + Repeat(BasisCat, dim) else [])
      + Repeat(FieldCoeffCat, |sym.fieldOrder|) + Repeat(MappingCoeffCat, |MappingCoeffArgs(mapping)|)
      + Repeat(OutputCat, Rows(sym) * Cols(sym))
  }

  lemma DataBlockOrder(expr: GltExpr, mapping: Option<SymMapping>)
    ensures var sym := expr.symbol;
      Categories(CoordinatesOf(expr) + (if HasGridData(sym, mapping) then GridData(expr.ldim) else [])
                 + FieldCoeffs(sym) + MappingCoeffArgs(mapping) + GlobalMats(Rows(sym), Cols(sym)))
      == DataCategories(expr, mapping)
  {
    var sym := expr.symbol;
    var grid := if HasGridData(sym, mapping) then GridData(expr.ldim) else [];
    var mats := GlobalMats(Rows(sym), Cols(sym));
    FlattenCategories(MatRows(Rows(sym), Cols(sym)), Cols(sym));
    GridCategories(expr.ldim);
    assert Categories(CoordinatesOf(expr)) == Repeat(CoordinateCat, |expr.spaceVariables|);
    assert Categories(FieldCoeffs(sym)) == Repeat(FieldCoeffCat, |sym.fieldOrder|);
    assert Categories(MappingCoeffArgs(mapping)) == Repeat(MappingCoeffCat, |MappingCoeffArgs(mapping)|);
    CategoriesConcat(CoordinatesOf(expr), grid);
    CategoriesConcat3(CoordinatesOf(expr) + grid, FieldCoeffs(sym), MappingCoeffArgs(mapping));
    CategoriesConcat(CoordinatesOf(expr) + grid + FieldCoeffs(sym) + MappingCoeffArgs(mapping), mats);
  }

  /** The kernel's declared arguments, block by block: `arr_t*`, coordinates, the grid
      data when the kernel has fields or a mapping, field coefficients, mapping
      coefficients, one output buffer per cell, then the constants. */
  lemma KernelSignatureOrder(expr: GltExpr, mapping: Option<SymMapping>)
    ensures Categories(KernelArgs(expr, mapping)) ==
      Repeat(ArrTCat, expr.ldim) + DataCategories(expr, mapping) + Repeat(ConstantCat, |expr.constants|)
  {
    var sym := expr.symbol;
    var middle := CoordinatesOf(expr) + (if HasGridData(sym, mapping) then GridData(expr.ldim) else [])
                  + FieldCoeffs(sym) + MappingCoeffArgs(mapping) + GlobalMats(Rows(sym), Cols(sym));
    DataBlockOrder(expr, mapping);
    assert Categories(ArrTs(expr.ldim)) == Repeat(ArrTCat, expr.ldim);
    assert Categories(ConstantsOf(expr)) == Repeat(ConstantCat, |expr.constants|);
    CategoriesConcat3(ArrTs(expr.ldim), middle, ConstantsOf(expr));
  }

  predicate NoArrX(s: seq<Arg>) {
    forall k :: 0 <= k < |s| ==> !s[k].ArrX?
  }

  lemma NoArrXConcat(a: seq<Arg>, b: seq<Arg>)
    requires NoArrX(a) && NoArrX(b)
    ensures NoArrX(a + b)
  {
    forall k | 0 <= k < |a + b| ensures !(a + b)[k].ArrX? {
      if k >= |a| { assert (a + b)[k] == b[k - |a|]; }
    }
  }

  /** As written, with coordinates each loop level reads `arr_x_k` (lines 271 and 508-511),
      but the kernel's declared arguments (lines 563-603) never include it. */
  lemma CoordinateArraysUndeclared(expr: GltExpr, mapping: Option<SymMapping>, k: nat)
    ensures LevelHeader(k, true)[0] == Assign(ToVar(X(k)), At(ArrX(k), [LoopIndex(k)]))
    ensures ArrX(k) !in KernelArgs(expr, mapping)
  {
    var sym := expr.symbol;
    var dim := expr.ldim;
    var grid := if HasGridData(sym, mapping) then GridData(dim) else [];
    var mats := GlobalMats(Rows(sym), Cols(sym));
    assert NoArrX(ArrTs(dim)) && NoArrX(CoordinatesOf(expr));
    assert NoArrX(Degrees(dim)) && NoArrX(Spans(dim)) && NoArrX(Bases(dim));
    NoArrXConcat(Degrees(dim), Spans(dim));
    NoArrXConcat(Degrees(dim) + Spans(dim), Bases(dim));
    assert NoArrX(grid);
    assert NoArrX(FieldCoeffs(sym)) && NoArrX(MappingCoeffArgs(mapping)) && NoArrX(ConstantsOf(expr));
    FlattenCategories(MatRows(Rows(sym), Cols(sym)), Cols(sym));
    forall j | 0 <= j < |mats| ensures !mats[j].ArrX? {
      assert CategoryOf(mats[j]) == Categories(mats)[j];
    }
    NoArrXConcat(CoordinatesOf(expr), grid);
    NoArrXConcat(CoordinatesOf(expr) + grid, FieldCoeffs(sym));
    NoArrXConcat(CoordinatesOf(expr) + grid + FieldCoeffs(sym), MappingCoeffArgs(mapping));
    NoArrXConcat(CoordinatesOf(expr) + grid + FieldCoeffs(sym) + MappingCoeffArgs(mapping), mats);
    NoArrXConcat(ArrTs(dim), CoordinatesOf(expr) + grid + FieldCoeffs(sym) + MappingCoeffArgs(mapping) + mats);
    NoArrXConcat(ArrTs(dim) + (CoordinatesOf(expr) + grid + FieldCoeffs(sym) + MappingCoeffArgs(mapping) + mats), ConstantsOf(expr));
  }

  /** Lines 607-617 as written: `build_types_decorator` is not defined in the module, so
      the pyccel branch raises `NameError`. */
  function KernelDecorationAsWritten(backend: Backend, name: string, args: seq<Arg>): (r: Result<Decoration, PyError>)
    ensures r.Failure? <==> backend.name == "pyccel"
    ensures r.Failure? ==> r.error == NameError("build_types_decorator")
  {
    if backend.name == "pyccel" then Failure(NameError("build_types_decorator"))
    else if backend.name == "numba" then Success(JitDecorator)
    else if backend.name == "pythran" then Success(PythranHeader(name, args))
    else Success(NoDecoration)
  }

  /** Lines 607-617 with the types decorator available: one annotation per backend. */
  function KernelDecoration(backend: Backend, name: string, args: seq<Arg>): (r: Decoration)
    ensures r.TypesDecorator? <==> backend.name == "pyccel"
    ensures r.JitDecorator? <==> backend.name == "numba"
    ensures r.PythranHeader? <==> backend.name == "pythran"
    ensures r.TypesDecorator? ==> r.args == args
    ensures r.PythranHeader? ==> r.name == name && r.args == args
  {
    if backend.name == "pyccel" then TypesDecorator(args)
    else if backend.name == "numba" then JitDecorator
    else if backend.name == "pythran" then PythranHeader(name, args)
    else NoDecoration
  }

  /** As written, building a kernel for the pyccel backend stops with `NameError`. */
  lemma PyccelBackendRaises(name: string, args: seq<Arg>)
    ensures KernelDecorationAsWritten(Backend("pyccel"), name, args).Failure?
  {
  }

  /** On every other backend the corrected selection is what the source selects. */
  lemma DecorationAgreesOffPyccel(backend: Backend, name: string, args: seq<Arg>)
    requires backend.name != "pyccel"
    ensures KernelDecorationAsWritten(backend, name, args) == Success(KernelDecoration(backend, name, args))
  {
  }

  function KernelBody(expr: GltExpr, mapping: Option<SymMapping>, evalFields: seq<FieldEvaluator>,
                      evalMapping: Option<MappingEvaluator>): seq<Stmt>
  {
    var sym := expr.symbol;
    var dim := expr.ldim;
    var fs := FieldStrings(sym);
    PreludeHeadSpec(dim, Rows(sym), Cols(sym))
      + ZeroBuffers(if |fs| > 0 then FieldValueBuffers(sym) else [], dim)
      + ZeroBuffers(if mapping.Some? then MappingValueArgs(mapping) else [], dim)
      + (SubKernelCalls(evalFields, evalMapping, FieldCallData(sym, dim), MappingCallData(mapping, dim))
         + LoopNest(0, dim, |expr.spaceVariables| > 0, InnerBodySpec(fs, mapping, Rows(sym), Cols(sym), dim)))
  }

  /** A kernel without fields and without a mapping requests no sub-kernel and takes
      only `arr_t*`, the coordinates, the output buffers and the constants. */
  lemma FieldFreeKernel(expr: GltExpr, space: Space, nderiv: nat, isRationalMapping: Option<bool>, backend: Backend)
    requires WellFormed(expr.symbol) && FieldExprs(expr.symbol) == {}
    ensures FieldEvaluators(expr.symbol, None, backend) == []
    ensures DependenciesOf(FieldEvaluators(expr.symbol, None, backend),
                           MappingEvaluatorFor(space, None, nderiv, isRationalMapping, backend)) == []
    ensures KernelArgs(expr, None) == ArrTs(expr.ldim) + CoordinatesOf(expr)
                                      + GlobalMats(Rows(expr.symbol), Cols(expr.symbol)) + ConstantsOf(expr)
  {
    FieldStringsEmpty(expr.symbol);
    assert SpaceSet(expr.symbol) == {};
    assert FieldCoeffs(expr.symbol) == [];
  }

  // ---------------------------------------------------------------- the kernel object

  class GltKernel {
    const expr: GltExpr
    const spaces: (Space, Space)
    const name: string
    const mapping: Option<SymMapping>
    const isRationalMapping: Option<bool>
    const backend: Backend
    const nRows: nat
    const nCols: nat
    const coordinates: seq<Arg>
    const withCoordinates: bool
    const evalFields: seq<FieldEvaluator>
    const evalMapping: Option<MappingEvaluator>
    const dependencies: seq<Dependency>
    const maxNderiv: nat
    const basicArgs: seq<Arg>
    const globalMats: seq<Arg>
    const globalMatsTypes: seq<DType>
    const imports: seq<Import>
    const func: FunctionDef

    /** What `_initialize` establishes, field by field. */
    ghost predicate Valid() {
      var sym := expr.symbol;
      && WellFormed(sym)
      && nRows == Rows(sym) && nCols == Cols(sym)
      && coordinates == CoordinatesOf(expr) && withCoordinates == (|coordinates| > 0)
      && evalFields == FieldEvaluators(sym, mapping, backend)
      && IsMaxNderiv(sym, maxNderiv)
      && evalMapping == MappingEvaluatorFor(spaces.0, mapping, maxNderiv, isRationalMapping, backend)
      && dependencies == DependenciesOf(evalFields, evalMapping)
      && basicArgs == ArrTs(expr.ldim)
      && globalMats == GlobalMats(nRows, nCols)
      && globalMatsTypes == MatsTypes(sym)
      && imports == KernelImports(|FieldStrings(sym)| > 0, mapping.Some?, sym.mathAtoms)
      && func == FunctionDef(name, AsPositional(KernelArgs(expr, mapping)),
                             KernelBody(expr, mapping, evalFields, evalMapping),
                             KernelDecoration(backend, name, KernelArgs(expr, mapping)))
    }

    /** `GltKernel.__new__` followed by `_initialize`. */
    constructor(expr: GltExpr, spaces: (Space, Space), name: string, mapping: Option<SymMapping>,
                isRationalMapping: Option<bool>, backend: Backend)
      requires WellFormed(expr.symbol)
      ensures Valid()
      ensures this.expr == expr && this.spaces == spaces && this.name == name
      ensures this.mapping == mapping && this.isRationalMapping == isRationalMapping && this.backend == backend
    {
      var sym := expr.symbol;
      var dim := expr.ldim;
      var nR := Rows(sym);
      var nC := Cols(sym);
      var coords := CoordinatesOf(expr);
      var fs := FieldStrings(sym);

      var evs := BuildFieldEvaluators(sym, mapping, backend);
      var nderiv := MaxNderiv(sym);
      var mev := MappingEvaluatorFor(spaces.0, mapping, nderiv, isRationalMapping, backend);

      var prelude := PreludeHead(dim, nR, nC);
      var inner := InnerBody(fs, mapping, nR, nC, dim);
      var nest := BuildLoopNest(dim, |coords| > 0, inner);
      var calls := PrependSubKernelCalls(evs, mev, FieldCallData(sym, dim), MappingCallData(mapping, dim), nest);
      var body, imps := CompleteBody(prelude, calls, FieldValueBuffers(sym), |fs| > 0,
                                     MappingValueArgs(mapping), mapping.Some?, dim, sym.mathAtoms);

      var mats := OutputMats(nR, nC);
      var types := OutputTypes(sym);
      var args := ArrTs(dim)
        + (coords + (if |fs| > 0 || mapping.Some? then GridData(dim) else [])
           + FieldCoeffs(sym) + MappingCoeffArgs(mapping) + mats)
        + ConstantsOf(expr);

      this.expr := expr;
      this.spaces := spaces;
      this.name := name;
      this.mapping := mapping;
      this.isRationalMapping := isRationalMapping;
      this.backend := backend;
      nRows := nR;
      nCols := nC;
      coordinates := coords;
      withCoordinates := |coords| > 0;
      evalFields := evs;
      evalMapping := mev;
      dependencies := DependenciesOf(evs, mev);
      maxNderiv := nderiv;
      basicArgs := ArrTs(dim);
      globalMats := mats;
      globalMatsTypes := types;
      imports := imps;
      func := FunctionDef(name, AsPositional(args), body, KernelDecoration(backend, name, args));
    }

    function Constants(): seq<Arg> {
      ConstantsOf(expr)
    }

    /** `mapping_coeffs`: empty without a mapping sub-kernel. */
    function MappingCoeffs(): seq<Arg> {
      match evalMapping
      case None => []
      case Some(ev) => MappingCoeffArgs(Some(ev.mapping))
    }

    /** `mapping_values`: empty without a mapping sub-kernel. */
    function MappingValuesOf(): seq<Arg> {
      match evalMapping
      case None => []
      case Some(ev) => MappingValueArgs(Some(ev.mapping))
    }

    /** Both accessors report the kernel's own mapping, and are empty without one. */
    lemma MappingAccessors()
      requires Valid()
      ensures MappingCoeffs() == MappingCoeffArgs(mapping) && MappingValuesOf() == MappingValueArgs(mapping)
      ensures mapping.None? ==> MappingCoeffs() == [] && MappingValuesOf() == []
    {
    }

    /** `build_arguments`: `arr_t*` first, then `data`, then the constants. */
    function BuildArguments(data: seq<Arg>): (r: seq<Arg>)
      ensures |r| == |basicArgs| + |data| + |expr.constants|
      ensures r[..|basicArgs|] == basicArgs
      ensures r[|basicArgs|..|basicArgs| + |data|] == data
      ensures r[|basicArgs| + |data|..] == Constants()
    {
      var other := data;
      var other := if |expr.constants| > 0 then other + Constants() else other;
      basicArgs + other
    }
  }

  /** One sub-kernel per field space and one for the mapping: a kernel has dependencies
      exactly when its symbol involves fields or it has a mapping. */
  lemma DependenciesCount(k: GltKernel)
    requires k.Valid()
    ensures |k.dependencies| == |SpaceSet(k.expr.symbol)| + (if k.mapping.Some? then 1 else 0)
    ensures k.dependencies != [] <==> FieldExprs(k.expr.symbol) != {} || k.mapping.Some?
  {
    var sym := k.expr.symbol;
    FieldEvaluatorsOrder(sym, k.mapping, k.backend);
    FieldStringsEmpty(sym);
    if f :| f in FieldRefs(sym) {
      assert f.space in SpaceSet(sym);
    }
  }
}
