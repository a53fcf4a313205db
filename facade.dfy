/**
 * The facade (`DiscreteGltExpr`): checks what it is given, builds the kernel and the
 * interface under one tag, and assembles the arguments of a call to the interface.
 */
module Facade {
  import opened Outcomes
  import opened Symbols
  import opened CodeAst
  import opened Kernel
  import opened Interface

  datatype MappingKind = SplineKind | NurbsKind

  /** A discrete mapping of the domain, known by identity and kind. */
  datatype DiscreteMapping = DiscreteMapping(id: nat, kind: MappingKind)

  /** What the constructor may be given as its expression. */
  datatype ExprInput = SymbolicGlt(expr: GltExpr) | NotSymbolicGlt

  /** What the constructor may be given positionally. */
  datatype PositionalInput =
    | GeometryInput(mappings: seq<Option<DiscreteMapping>>)   // the values of `domain_h.mappings`
    | SpacesInput(spaces: seq<Space>)
    | OtherInput

  /** Runtime values handed to the interface. */
  datatype Value =
    | CallerValue(id: nat)
    | SpaceValue(space: Space)
    | BasisValuesOf(t1: Value, t2: Value, space: Space, nderiv: nat)   // CollocationBasisValues((t1, t2), Vh, nderiv)
    | MappingValue(mapping: DiscreteMapping)

  /** A call of the compiled interface: its definition, positional and keyword arguments. */
  datatype Invocation = Invocation(func: FunctionDef, positional: seq<Value>, keywords: map<string, Value>)

  /** Lines 34-36: a rational mapping is a NURBS mapping; no mapping is not rational. */
  function IsRationalMapping(mapping: Option<DiscreteMapping>): (r: bool)
    ensures r ==> mapping.Some?
    ensures mapping.Some? ==> (r <==> mapping.value.kind == NurbsKind)
  {
    if mapping.None? then false else mapping.value.kind.NurbsKind?
  }

  /** Lines 67-85: a kernel named `kernel_{tag}` and an interface named `interface_{tag}`
      wrapping exactly that kernel, both with the given mapping and the backend (by default
      the Python one). The rationality of the mapping is not passed on. */
  method CreateAst(expr: GltExpr, spaces: (Space, Space), tag: string, mapping: Option<SymMapping>,
                   backend: Option<Backend>, defaultBackend: Backend)
    returns (kernel: GltKernel, iface: GltInterface)
    requires WellFormed(expr.symbol)
    ensures kernel.Valid() && iface.Valid()
    ensures iface.kernel == kernel
    ensures kernel.name == "kernel_" + tag && iface.name == "interface_" + tag
    ensures kernel.expr == expr && kernel.spaces == spaces
    ensures kernel.mapping == mapping && iface.mapping == mapping
    ensures kernel.isRationalMapping == None
    ensures kernel.backend == iface.backend == (if backend.Some? then backend.value else defaultBackend)
  {
    var b := if backend.Some? then backend.value else defaultBackend;
    kernel := new GltKernel(expr, spaces, "kernel_" + tag, mapping, None, b);
    iface := new GltInterface(kernel, "interface_" + tag, mapping, None, b);
  }

  /** Lines 88-117: every "in" keyword is required and copied, every "inout" keyword is
      copied when supplied, and any other keyword is dropped. */
  method CheckArguments(inKeys: seq<string>, inoutKeys: seq<string>, kwargs: map<string, Value>)
    returns (r: Result<map<string, Value>, PyError>)
    ensures r.Failure? <==> exists i :: 0 <= i < |inKeys| && inKeys[i] !in kwargs
    ensures r.Failure? ==> r.error == KeyError("Unconsistent argument with interface")
    ensures r.Success? ==> forall k :: k in inKeys ==> k in r.value && r.value[k] == kwargs[k]
    ensures r.Success? ==> forall k :: k in inoutKeys ==> (k in r.value <==> k in kwargs)
    ensures r.Success? ==> forall k :: k in r.value ==> (k in inKeys || k in inoutKeys) && k in kwargs && r.value[k] == kwargs[k]
  {
    var checked: map<string, Value> := map[];
    for i := 0 to |inKeys|
      invariant forall j :: 0 <= j < i ==> inKeys[j] in kwargs
      invariant forall k :: k in checked <==> k in inKeys[..i]
      invariant forall k :: k in checked ==> k in kwargs && checked[k] == kwargs[k]
    {
      var key := inKeys[i];
      if key !in kwargs {
        return Failure(KeyError("Unconsistent argument with interface"));
      }
      checked := checked[key := kwargs[key]];
    }
    assert inKeys[..|inKeys|] == inKeys;
    for i := 0 to |inoutKeys|
      invariant forall k :: k in checked <==> k in inKeys || (k in inoutKeys[..i] && k in kwargs)
      invariant forall k :: k in checked ==> k in kwargs && checked[k] == kwargs[k]
    {
      var key := inoutKeys[i];
      if key in kwargs {
        checked := checked[key := kwargs[key]];
      }
    }
    assert inoutKeys[..|inoutKeys|] == inoutKeys;
    r := Success(checked);
  }

  function Names(args: seq<Arg>): seq<string> {
    seq(|args|, k requires 0 <= k < |args| => Name(args[k]))
  }

  /** `_check_arguments` over the names of the interface's "in" and "inout" arguments. */
  method CheckKeywords(inArgs: seq<Arg>, inoutArgs: seq<Arg>, kwargs: map<string, Value>)
    returns (r: Result<map<string, Value>, PyError>)
    ensures r.Failure? <==> exists i :: 0 <= i < |inArgs| && Name(inArgs[i]) !in kwargs
    ensures r.Failure? ==> r.error == KeyError("Unconsistent argument with interface")
    ensures r.Success? ==> forall i :: 0 <= i < |inArgs| ==> Name(inArgs[i]) in r.value
    ensures r.Success? ==> forall i :: 0 <= i < |inoutArgs| ==> (Name(inoutArgs[i]) in r.value <==> Name(inoutArgs[i]) in kwargs)
    ensures r.Success? ==> forall k :: k in r.value ==> (k in Names(inArgs) || k in Names(inoutArgs)) && k in kwargs && r.value[k] == kwargs[k]
  {
    var inKeys := Names(inArgs);
    var inoutKeys := Names(inoutArgs);
    assert forall i :: 0 <= i < |inArgs| ==> inKeys[i] == Name(inArgs[i]) && inKeys[i] in inKeys;
    assert forall i :: 0 <= i < |inoutArgs| ==> inoutKeys[i] == Name(inoutArgs[i]) && inoutKeys[i] in inoutKeys;
    r := CheckArguments(inKeys, inoutKeys, kwargs);
  }

  /** The leading positional arguments of a call: the two grids, the second space, the
      basis values when the form has fields or there is a mapping, then the mapping. */
  function LeadingArguments(t1: Value, t2: Value, space: Space, withBasisValues: bool,
                            mapping: Option<DiscreteMapping>): seq<Value>
  {
    [t1, t2, SpaceValue(space)]
      + (if withBasisValues then [BasisValuesOf(t1, t2, space, 1)] else [])
      + (if mapping.Some? then [MappingValue(mapping.value)] else [])
  }

  class DiscreteGltExpr {
    const expr: GltExpr
    const spaces: (Space, Space)
    const mapping: Option<DiscreteMapping>
    const isRationalMapping: bool
    const tag: string
    const kernel: GltKernel
    const interface: GltInterface

    ghost predicate Valid() {
      && isRationalMapping == IsRationalMapping(mapping)
      && kernel.Valid() && interface.Valid()
      && interface.kernel == kernel
      && kernel.name == "kernel_" + tag && interface.name == "interface_" + tag
      && kernel.expr == expr && kernel.spaces == spaces
      && kernel.mapping == spaces.0.symbolicMapping && interface.mapping == spaces.0.symbolicMapping
      && kernel.backend == interface.backend
    }

    /** `__init__` once its checks have passed: the domain's first mapping, its rationality,
        the spaces, and the kernel and interface built for the first space's symbolic mapping. */
    constructor(expr: GltExpr, mapping: Option<DiscreteMapping>, spaces: seq<Space>, tag: string,
                backend: Option<Backend>, defaultBackend: Backend)
      requires WellFormed(expr.symbol) && |spaces| == 2
      ensures Valid()
      ensures this.expr == expr && this.mapping == mapping && this.spaces == (spaces[0], spaces[1]) && this.tag == tag
      ensures kernel.backend == (if backend.Some? then backend.value else defaultBackend)
    {
      var isRational := false;
      if mapping.Some? {
        isRational := mapping.value.kind.NurbsKind?;
      }
      var k, i := CreateAst(expr, (spaces[0], spaces[1]), tag, spaces[0].symbolicMapping, backend, defaultBackend);
      this.expr := expr;
      this.mapping := mapping;
      isRationalMapping := isRational;
      this.spaces := (spaces[0], spaces[1]);
      this.tag := tag;
      kernel := k;
      interface := i;
    }

    /** Lines 119-143: check the keywords, unpack exactly two grids, then pass the grids,
        the second space, the basis values and the mapping, in that order. */
    method Evaluate(args: seq<Value>, kwargs: map<string, Value>) returns (r: Result<Invocation, PyError>)
      ensures (exists i :: 0 <= i < |interface.inArguments| && Name(interface.inArguments[i]) !in kwargs) ==>
                r == Failure(KeyError("Unconsistent argument with interface"))
      ensures (forall i :: 0 <= i < |interface.inArguments| ==> Name(interface.inArguments[i]) in kwargs) && |args| != 2 ==>
                r.Failure? && r.error.ValueError?
      ensures (forall i :: 0 <= i < |interface.inArguments| ==> Name(interface.inArguments[i]) in kwargs) && |args| == 2 ==>
                r.Success?
      ensures r.Success? ==> |args| == 2 && r.value.func == interface.func
      ensures r.Success? ==>
                r.value.positional == LeadingArguments(args[0], args[1], spaces.1, |expr.formFields| > 0 || mapping.Some?, mapping)
      ensures r.Success? ==> forall k :: k in r.value.keywords ==> k in kwargs && r.value.keywords[k] == kwargs[k]
      ensures r.Success? ==> forall i :: 0 <= i < |interface.inArguments| ==>
                Name(interface.inArguments[i]) in r.value.keywords
      ensures r.Success? ==> forall i :: 0 <= i < |interface.inoutArguments| ==>
                (Name(interface.inoutArguments[i]) in r.value.keywords <==> Name(interface.inoutArguments[i]) in kwargs)
      ensures r.Success? ==> forall k :: k in r.value.keywords ==>
                k in Names(interface.inArguments) || k in Names(interface.inoutArguments)
    {
      var checked := CheckKeywords(interface.inArguments, interface.inoutArguments, kwargs);
      if checked.Failure? {
        return Failure(checked.error);
      }
      var keywords := checked.value;
      if |args| != 2 {
        return Failure(ValueError("wrong number of values to unpack"));
      }
      var t1, t2 := args[0], args[1];
      var vh := spaces.1;
      var positional := args + [SpaceValue(vh)];
      if |expr.formFields| > 0 || mapping.Some? {
        positional := positional + [BasisValuesOf(t1, t2, vh, 1)];
      }
      if mapping.Some? {
        positional := positional + [MappingValue(mapping.value)];
      }
      r := Success(Invocation(interface.func, positional, keywords));
    }
  }

  /** Lines 18-48: the constructor's checks, in the order the source makes them, then the
      build. The spaces are unpacked into two by the kernel (glt.py of the AST package,
      line 182), after the first space's symbolic mapping is read. */
  method Create(expr: ExprInput, args: seq<PositionalInput>, tag: string, backend: Option<Backend>,
                defaultBackend: Backend)
    returns (r: Result<DiscreteGltExpr, PyError>)
    requires expr.SymbolicGlt? ==> WellFormed(expr.expr.symbol)
    ensures expr.NotSymbolicGlt? ==> r == Failure(TypeError("> Expecting a symbolic Glt expression"))
    ensures expr.SymbolicGlt? && args == [] ==> r == Failure(ValueError("> fem spaces must be given as a list/tuple"))
    ensures expr.SymbolicGlt? && args != [] && |args| != 2 ==> r == Failure(AssertionError)
    ensures expr.SymbolicGlt? && |args| == 2 && !args[0].GeometryInput? ==> r == Failure(AssertionError)
    ensures expr.SymbolicGlt? && |args| == 2 && args[0].GeometryInput? && args[0].mappings == [] ==> r == Failure(IndexError)
    ensures expr.SymbolicGlt? && |args| == 2 && args[0].GeometryInput? && args[0].mappings != [] ==>
              && (!args[1].SpacesInput? ==> r.Failure? && r.error.TypeError?)
              && (args[1].SpacesInput? && args[1].spaces == [] ==> r == Failure(IndexError))
              && (args[1].SpacesInput? && args[1].spaces != [] && |args[1].spaces| != 2 ==> r.Failure? && r.error.ValueError?)
    ensures r.Success? <==>
              && expr.SymbolicGlt? && |args| == 2 && args[0].GeometryInput? && args[0].mappings != []
              && args[1].SpacesInput? && |args[1].spaces| == 2
    ensures r.Success? ==> && r.value.Valid() && r.value.expr == expr.expr && r.value.tag == tag
                           && r.value.mapping == args[0].mappings[0] && r.value.spaces == (args[1].spaces[0], args[1].spaces[1])
                           && r.value.isRationalMapping == IsRationalMapping(args[0].mappings[0])
                           && r.value.kernel.backend == (if backend.Some? then backend.value else defaultBackend)
  {
    if expr.NotSymbolicGlt? {
      return Failure(TypeError("> Expecting a symbolic Glt expression"));
    }
    if args == [] {
      return Failure(ValueError("> fem spaces must be given as a list/tuple"));
    }
    if |args| != 2 {
      return Failure(AssertionError);
    }
    var domain := args[0];
    if !domain.GeometryInput? {
      return Failure(AssertionError);
    }
    if domain.mappings == [] {
      return Failure(IndexError);
    }
    var mapping := domain.mappings[0];
    if !args[1].SpacesInput? {
      return Failure(TypeError("object is not subscriptable"));
    }
    var spaces := args[1].spaces;
    if spaces == [] {
      return Failure(IndexError);
    }
    if |spaces| != 2 {
      return Failure(ValueError("wrong number of values to unpack"));
    }
    var d := new DiscreteGltExpr(expr.expr, mapping, spaces, tag, backend, defaultBackend);
    r := Success(d);
  }

  /** Which interface parameter a runtime value is meant for. */
  predicate Fits(v: Value, a: Arg) {
    match v
    case CallerValue(_) => a.ArrT?
    case SpaceValue(_) => a == TestSpace
    case BasisValuesOf(_, _, _, _) => a == BasisValues
    case MappingValue(_) => a == MappingObject
  }

  /** The leading arguments fit parameters laid out as `arr_t1, arr_t2, W`, then
      `basis_values` and `mapping` when present. */
  lemma LeadingFit(params: seq<Param>, rest: seq<Arg>, mats: seq<Arg>, t1: nat, t2: nat, space: Space,
                   withBasisValues: bool, mapping: Option<DiscreteMapping>)
    requires ParamsShape(params, [ArrT(0), ArrT(1)] + [TestSpace] + (if withBasisValues then [BasisValues] else [])
                                 + (if mapping.Some? then [MappingObject] else []) + rest, mats)
    ensures var positional := LeadingArguments(CallerValue(t1), CallerValue(t2), space, withBasisValues, mapping);
      && |positional| <= |params|
      && forall k :: 0 <= k < |positional| ==> params[k].Positional? && Fits(positional[k], params[k].a)
  {
    var lead := [ArrT(0), ArrT(1)] + [TestSpace] + (if withBasisValues then [BasisValues] else [])
                + (if mapping.Some? then [MappingObject] else []);
    var positional := LeadingArguments(CallerValue(t1), CallerValue(t2), space, withBasisValues, mapping);
    assert |positional| == |lead|;
    forall k | 0 <= k < |positional|
      ensures params[k].Positional? && Fits(positional[k], params[k].a)
    {
      assert params[k] == Positional((lead + rest)[k]);
      assert (lead + rest)[k] == lead[k];
    }
  }

  /** A two-dimensional form takes the grids `arr_t1, arr_t2`. */
  lemma TwoGrids()
    ensures ArrTs(2) == [ArrT(0), ArrT(1)]
  {
  }

  /** For a two-dimensional form whose domain mapping and symbolic mapping are both present
      or both absent, the positional arguments of a call fill the interface's leading
      parameters one for one: `arr_t1, arr_t2, W`, then `basis_values`, then `mapping`. */
  lemma EvaluateFillsLeadingParams(d: DiscreteGltExpr, t1: nat, t2: nat)
    requires d.Valid()
    requires d.expr.ldim == 2
    requires d.mapping.Some? == d.interface.mapping.Some?
    ensures var positional := LeadingArguments(CallerValue(t1), CallerValue(t2), d.spaces.1,
                                               |d.expr.formFields| > 0 || d.mapping.Some?, d.mapping);
      var params := d.interface.func.params;
      && |positional| <= |params|
      && forall k :: 0 <= k < |positional| ==> params[k].Positional? && Fits(positional[k], params[k].a)
  {
    var iface := d.interface;
    var kernel := iface.kernel;
    InterfaceSignatureLayout(iface);
    KernelCallFacts(kernel);
    TwoGrids();
    var withBasisValues := HasBasisValues(iface.fields, iface.mapping);
    assert |iface.fields| == |d.expr.formFields|;
    assert withBasisValues == (|d.expr.formFields| > 0 || d.mapping.Some?);
    var rest := kernel.Constants() + kernel.coordinates + FieldObjects(iface.fields);
    assert (if iface.mapping.Some? then [MappingObject] else []) == (if d.mapping.Some? then [MappingObject] else []);
    LeadingFit(iface.func.params, rest, kernel.globalMats, t1, t2, d.spaces.1, withBasisValues, d.mapping);
  }
}
