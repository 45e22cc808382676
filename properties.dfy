/** What the semantic rules attach to a parse-tree node (its `properties`
    dictionary), the data types they compute, and the way a rule reports an
    outcome: a `Check` that passed or failed with a message, or one of the
    Python exceptions a rule can raise on a tree of an unexpected shape. */
module Properties {
  import opened Wrappers

  /** A `data_type` value. Python keeps type names as strings; `Unset` is the
      `None` a node's `data_type` holds until a rule sets it. Values are built
      with `FromName`, so `Other` never carries one of the four known names. */
  datatype DataType = Unset | Int | Double | Bool | Void | Other(name: string)

  /** The data type a type keyword's text names. */
  function FromName(s: string): (t: DataType)
    ensures t != Unset
    ensures t == Int <==> s == "int"
    ensures t == Double <==> s == "double"
    ensures t == Bool <==> s == "bool"
    ensures t == Void <==> s == "void"
  {
    if s == "int" then Int
    else if s == "double" then Double
    else if s == "bool" then Bool
    else if s == "void" then Void
    else Other(s)
  }

  /** How Python's `%s` prints a `data_type` value: `None` for `Unset`. */
  function Str(t: DataType): (s: string)
    ensures t != Unset && (t.Other? ==> FromName(t.name) == t) ==> FromName(s) == t
  {
    match t
    case Unset => "None"
    case Int => "int"
    case Double => "double"
    case Bool => "bool"
    case Void => "void"
    case Other(name) => name
  }

  /** Python truthiness of a `data_type` value: `None` and `''` are false. */
  predicate Truthy(t: DataType)
  {
    t != Unset && t != Other("")
  }

  /** `var_type` of a `VarCall`: 'var', 'array' or 'call'. */
  datatype VarKind = VarRef | ArrayRef | CallRef

  /** One `(data_type, ident)` pair of a parameter list. */
  datatype Param = Param(dataType: DataType, ident: string)

  /** A node's `properties` dictionary, with a field per key the semantic rules
      use; a key that is absent is `None` (or `false` for `keep_temp`, which is
      only read with `.get`). `symbols` is the local symbol table of a function node;
      no rule creates it, so it is `None` until the caller provides one. */
  datatype Attrs = Attrs(
    dataType: DataType,
    ident: Option<string>,
    varType: Option<VarKind>,
    keepTemp: bool,
    functionName: Option<string>,
    argTypes: Option<seq<DataType>>,
    returnType: Option<DataType>,
    name: Option<string>,
    paraList: Option<seq<Param>>,
    symbols: Option<map<string, DataType>>)

  /** The properties of a new node: `{'data_type': None, 'arg': None}`. */
  const NoAttrs: Attrs := Attrs(Unset, None, None, false, None, None, None, None, None, None)

  /** The properties of node n: those recorded for it, or a new node's. */
  function AttrsOf(props: map<nat, Attrs>, n: nat): Attrs
  {
    if n in props then props[n] else NoAttrs
  }

  /** Why a semantic rule or a code generator stopped: a rule's own
      `Check.Error(msg)`, or an exception Python raises on an unexpected tree
      (missing key, index or attribute, failed `assert`, a value spread with
      `*` that is not a list, a local read before any assignment). */
  datatype Fault =
    | RuleError(msg: string)
    | KeyError(key: string)
    | IndexError
    | AttributeError(attribute: string)
    | AssertionError
    | TypeError
    | UnboundLocalError(local: string)

  /** The verdict of a rule with the state it leaves: `Check.Pass()` is `Ok`. */
  type Check<S> = Result<S, Fault>
}
