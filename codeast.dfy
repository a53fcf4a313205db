/**
 * The generated pseudo-code: argument names tagged by what they stand for, and the
 * handful of statement forms the two generators emit.
 */
module CodeAst {
  import opened Outcomes
  import opened Strings
  import opened Symbols

  datatype DType = Float | Complex

  /** A name in the generated code. Axes are 0-based: `ArrT(0)` is `arr_t1`. */
  datatype Arg =
    | ArrT(axis: nat)                 // arr_t1 .. arr_td
    | ArrX(axis: nat)                 // arr_x1 .. arr_xd
    | T(axis: nat)                    // t1 .. td
    | X(axis: nat)                    // x1 .. xd
    | LoopIndex(axis: nat)            // i1 .. id
    | Length(axis: nat)               // k1 .. kd
    | Coordinate(name: string)        // a space variable of the expression
    | Degree(axis: nat)               // p1 .. pd
    | Span(axis: nat)                 // spans1 .. spansd
    | Basis(axis: nat)                // basis1 .. basisd
    | FieldCoeff(field: string)       // coeff_F, as the kernel declares it
    | FieldData(field: string)        // F._coeffs._data, as the interface passes it
    | FieldValues(expr: string)       // F_values
    | FieldValue(expr: string)        // F
    | MappingElement(name: string)
    | MappingCoeff(name: string)
    | MappingValues(name: string)
    | DetJacobian
    | OutputMat(row: nat, col: nat)   // symbol_{row}{col}
    | Constant(name: string)
    | TestSpace                       // W
    | BasisValues                     // basis_values
    | MappingObject                   // mapping
    | FieldObject(name: string)       // a field passed to the interface

  /** The argument categories whose order the kernel's declaration fixes. */
  datatype Category =
    | ArrTCat | CoordinateCat | DegreeCat | SpanCat | BasisCat
    | FieldCoeffCat | MappingCoeffCat | OutputCat | ConstantCat | OtherCat

  function CategoryOf(a: Arg): Category {
    match a
    case ArrT(_) => ArrTCat
    case Coordinate(_) => CoordinateCat
    case Degree(_) => DegreeCat
    case Span(_) => SpanCat
    case Basis(_) => BasisCat
    case FieldCoeff(_) => FieldCoeffCat
    case FieldData(_) => FieldCoeffCat
    case MappingCoeff(_) => MappingCoeffCat
    case OutputMat(_, _) => OutputCat
    case Constant(_) => ConstantCat
    case _ => OtherCat
  }

  function Categories(s: seq<Arg>): seq<Category> {
    seq(|s|, k requires 0 <= k < |s| => CategoryOf(s[k]))
  }

  /** `str(a)`: the keyword under which a caller passes an argument of the interface. */
  function Name(a: Arg): string {
    match a
    case Coordinate(n) => n
    case Constant(n) => n
    case FieldObject(n) => n
    case OutputMat(i, j) => "symbol_" + Decimal(i) + Decimal(j)
    case ArrT(k) => "arr_t" + Decimal(k + 1)
    case TestSpace => "W"
    case BasisValues => "basis_values"
    case MappingObject => "mapping"
    case _ => ""
  }

  /** A field sub-kernel request (`EvalArrayField`): the space name of its group and the
      field atoms it evaluates. */
  datatype FieldEvaluator = FieldEvaluator(space: string, exprs: set<FieldAtom>,
                                           mapping: Option<SymMapping>, backend: Backend)

  /** The mapping sub-kernel request (`EvalArrayMapping`). */
  datatype MappingEvaluator = MappingEvaluator(space: Space, mapping: SymMapping, nderiv: nat,
                                               isRationalMapping: Option<bool>, backend: Backend)

  datatype Dependency = FieldDependency(field: FieldEvaluator) | MappingDependency(mapping: MappingEvaluator)

  datatype Expr =
    | LenOf(a: Arg)                                       // len(a)
    | ZeroFloat                                           // 0.
    | NewZeros(shape: seq<Arg>)                           // zeros(lengths)
    | TypedZeros(shape: seq<Arg>, asTuple: bool, dtype: DType)  // zeros(k1, dtype=..) or zeros((k1,..,kd), dtype=..)
    | At(a: Arg, index: seq<Arg>)                         // a[i1, .., id]
    | CellValue(row: nat, col: nat)                       // the symbol's entry (row, col)
    | DetJacobianValue                                    // the mapping's det_jacobian
    | Attribute(base: Arg, attr: string)                  // W.degree, basis_values.spans, ...
    | MappingComponentData(component: nat)                // mapping._fields[i]._coeffs._data

  datatype Target =
    | ToVar(a: Arg)                                       // a = ...
    | ToTuple(items: seq<Arg>)                            // (a1, .., an) = ...
    | ToWhole(a: Arg)                                     // a[:, .., :] = ...
    | ToElement(a: Arg, index: seq<Arg>)                  // a[i1, .., id] = ...

  /** The routine a call goes to. */
  datatype Callee =
    | FieldSubKernel(field: FieldEvaluator)
    | MappingSubKernel(mapping: MappingEvaluator)
    | KernelFunction(name: string)

  datatype Stmt =
    | Assign(target: Target, value: Expr)
    | For(index: Arg, bound: Arg, body: seq<Stmt>)        // for index in range(bound)
    | Call(callee: Callee, args: seq<Arg>)                // for a sub-kernel: the tuple handed to its build_arguments
    | IfNil(a: Arg, body: seq<Stmt>)                      // if a is None: body
    | ReturnValue(a: Arg)
    | ReturnTuple(items: seq<Arg>)

  datatype Param = Positional(a: Arg) | NilDefault(a: Arg)

  datatype Decoration =
    | NoDecoration
    | TypesDecorator(args: seq<Arg>)
    | JitDecorator
    | PythranHeader(name: string, args: seq<Arg>)

  datatype Import = Import(name: string, package: string)

  datatype FunctionDef = FunctionDef(name: string, params: seq<Param>, body: seq<Stmt>, decoration: Decoration)

  function AsPositional(args: seq<Arg>): seq<Param> {
    seq(|args|, k requires 0 <= k < |args| => Positional(args[k]))
  }

  function Max(a: nat, b: nat): nat { if a < b then b else a }

  /** How deeply `For` statements nest in a statement list. */
  function Depth(s: seq<Stmt>): nat
    decreases s
  {
    if s == [] then 0 else Max(StmtDepth(s[0]), Depth(s[1..]))
  }

  function StmtDepth(st: Stmt): nat
    decreases st
  {
    match st
    case For(_, _, b) => 1 + Depth(b)
    case IfNil(_, b) => Depth(b)
    case _ => 0
  }

  /** The indices of the chain of loops reached by always entering the last statement,
      outermost first. */
  function LoopChain(s: seq<Stmt>): seq<Arg>
    decreases s
  {
    if s != [] && s[|s| - 1].For? then [s[|s| - 1].index] + LoopChain(s[|s| - 1].body) else []
  }
}
