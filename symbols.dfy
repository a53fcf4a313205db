/**
 * The inputs of the generators, with the symbolic engine left opaque. What the
 * generators ask of the reduced symbol (its shape, and per cell whether it holds the
 * imaginary unit, its highest partial-derivative order and its field atoms) is data
 * here; so is what the field and mapping sub-kernel generators report.
 */
module Symbols {
  import opened Outcomes
  import opened Strings
  import opened Seqs

  /** A field-valued atom found by the atom scan (`F`, `dx(F)`, ...): its printed form,
      the name of the scalar field it involves and the name of that field's space. */
  datatype FieldAtom = FieldAtom(printed: string, field: string, space: string)

  /** A `ScalarField` atom of the symbol: the field's name and its space's name. */
  datatype FieldRef = FieldRef(name: string, space: string)

  /** One entry of the reduced symbol, seen through the queries the kernel builder makes. */
  datatype Cell = Cell(hasImaginaryUnit: bool, maxDerivative: nat, fieldAtoms: seq<FieldAtom>)

  /** A scalar expression, or a sympy matrix with its shape and entries. */
  datatype Shape =
    | Scalar(cell: Cell)
    | Matrix(nRows: nat, nCols: nat, entries: seq<seq<Cell>>)

  /**
   * The symbol after `gelatize`, `expand` and `evalf`. `fieldOrder` is the order in
   * which the set `expr.atoms(ScalarField)` happens to iterate; `mathAtoms` are the
   * names `math_atoms_as_str` reports.
   */
  datatype Symbol = Symbol(shape: Shape, fieldOrder: seq<FieldRef>, mathAtoms: seq<string>)

  /** The discretisation space: its name and the symbolic mapping of its domain. */
  datatype Space = Space(name: string, symbolicMapping: Option<SymMapping>)

  /** A symbolic mapping together with the element, coefficient and value names the
      mapping sub-kernel generator reports for it. */
  datatype SymMapping = SymMapping(name: string, elements: seq<string>, coeffs: seq<string>, values: seq<string>)

  /** The backend configuration; only its `name` entry is read. */
  datatype Backend = Backend(name: string)

  /** The symbolic GLT expression: its form's logical dimension, the names of the form's
      fields, its constants, its space variables, and its reduced symbol. */
  datatype GltExpr = GltExpr(ldim: nat, formFields: set<string>, constants: seq<string>,
                             spaceVariables: seq<string>, symbol: Symbol)

  function Rows(sym: Symbol): nat {
    match sym.shape
    case Scalar(_) => 1
    case Matrix(r, _, _) => r
  }

  function Cols(sym: Symbol): nat {
    match sym.shape
    case Scalar(_) => 1
    case Matrix(_, c, _) => c
  }

  /** The entries as a grid; a scalar is a 1x1 grid. */
  function Grid(sym: Symbol): seq<seq<Cell>> {
    match sym.shape
    case Scalar(c) => [[c]]
    case Matrix(_, _, e) => e
  }

  predicate Rectangular(sym: Symbol) {
    |Grid(sym)| == Rows(sym) && forall i :: 0 <= i < Rows(sym) ==> |Grid(sym)[i]| == Cols(sym)
  }

  function CellAt(sym: Symbol, i: nat, j: nat): Cell
    requires Rectangular(sym) && i < Rows(sym) && j < Cols(sym)
  {
    Grid(sym)[i][j]
  }

  /** The cells in row-major order. */
  function Cells(sym: Symbol): seq<Cell> {
    Flatten(Grid(sym))
  }

  function AtomsOf(cells: seq<Cell>): seq<FieldAtom> {
    if cells == [] then [] else cells[0].fieldAtoms + AtomsOf(cells[1..])
  }

  /** The field-valued atoms of the whole symbol (`atomic_expr_field`). */
  function FieldExprs(sym: Symbol): set<FieldAtom> {
    set a | a in AtomsOf(Cells(sym))
  }

  /** The scalar fields of the symbol (`expr.atoms(ScalarField)`). */
  function FieldRefs(sym: Symbol): set<FieldRef> {
    set a | a in FieldExprs(sym) :: FieldRef(a.field, a.space)
  }

  /** `fields_str`: the printed field atoms, sorted. */
  function FieldStrings(sym: Symbol): seq<string> {
    SortedSeq(set a | a in FieldExprs(sym) :: a.printed)
  }

  /** The distinct space names of the symbol's fields, sorted. */
  function SpaceNames(sym: Symbol): seq<string> {
    SortedSeq(SpaceSet(sym))
  }

  /** The space names of the symbol's fields. */
  function SpaceSet(sym: Symbol): set<string> {
    set f | f in FieldRefs(sym) :: f.space
  }

  /** What the symbolic engine guarantees of a reduced symbol: a rectangular shape, and
      `fieldOrder` an enumeration of its scalar fields without repetition. */
  ghost predicate WellFormed(sym: Symbol) {
    && Rectangular(sym)
    && |sym.fieldOrder| == |FieldRefs(sym)|
    && (forall f :: f in sym.fieldOrder <==> f in FieldRefs(sym))
    && (forall i, j :: 0 <= i < j < |sym.fieldOrder| ==> sym.fieldOrder[i] != sym.fieldOrder[j])
  }

  /** A symbol with fields has field strings, and one without has none. */
  lemma FieldStringsEmpty(sym: Symbol)
    ensures |FieldStrings(sym)| == 0 <==> FieldExprs(sym) == {}
    ensures FieldRefs(sym) == {} <==> FieldExprs(sym) == {}
  {
    var printed := set a | a in FieldExprs(sym) :: a.printed;
    if a :| a in FieldExprs(sym) {
      assert a.printed in printed;
      assert FieldRef(a.field, a.space) in FieldRefs(sym);
    }
  }
}
