/** The attribute-grammar type checker of definition.py: its grammar table,
    and one semantic rule per non-terminal that computes the node's
    `properties` from its children's and keeps the symbol tables.
    A rule is a function of the checker's state, the parse tree and a node;
    it is the hook the parser calls when the node is processed. */
module Definition {
  import opened Wrappers
  import opened Properties
  import Syntax
  import Scanner

  type Tree = Syntax.Tree

  /** The kinds of the `TOKEN` table, in table order. */
  const TokenKinds: seq<string> :=
    ["comment", "string", "space", "type_key", "bool_value", "cond_key", "key",
     "double_value", "integer_value", "op", "ident"]

  function D(first: string, rhs: seq<string>): Syntax.Derivation
  {
    Syntax.Derivation(first, rhs)
  }

  function E(empty: bool, derivations: seq<Syntax.Derivation>): Syntax.Entry
  {
    Syntax.Entry(Some(empty), derivations)
  }

  /** `SYNTAX`: non-terminal -> whether it may derive "" and its derivations,
      each with the token that triggers it. */
  const Grammar: Syntax.Grammar := map[
    "Program" := E(false, [D("ANY", ["Decls", "Functions"])]),
    "Functions" := E(true, [D("def", ["Function", "Functions"])]),
    "Function" := E(false, [D("ANY", ["def", "ident", "(", "ParaList", ")", "FunctionBody"])]),
    "ParaList" := E(true, [D("type_key", ["Type", "ident", "ParaListRight"])]),
    "ParaListRight" := E(true, [D(",", [",", "Type", "ident", "ParaListRight"])]),
    "FunctionBody" := E(false, [D("{", ["{", "Decls", "Stmts", "}"]),
                                D("->", ["FunctionType", "{", "Decls", "Stmts", "}"])]),
    "FunctionType" := E(false, [D("ANY", ["->", "Type"])]),
    "Block" := E(false, [D("ANY", ["{", "Stmts", "}"])]),
    "Decls" := E(true, [D("type_key", ["Decl", "Decls"])]),
    "Decl" := E(false, [D("ANY", ["Type", "ident", ";"])]),
    "Type" := E(false, [D("ANY", ["type_key", "TypeRight"])]),
    "TypeRight" := E(true, [D("[", ["[", "integer_value", "]", "TypeRight"])]),
    "Stmts" := E(true, [D("ident", ["Stmt", "Stmts"]), D("key", ["Stmt", "Stmts"]),
                        D("cond_key", ["Stmt", "Stmts"]), D("{", ["Stmt", "Stmts"])]),
    "Stmt" := E(false, [D("ident", ["Assign", ";"]), D("read", ["read", "Var", ";"]),
                        D("print", ["print", "Expr", ";"]), D("eval", ["eval", "Expr", ";"]),
                        D("if", ["if", "(", "Expr", ")", "Stmt", "Else"]),
                        D("while", ["while", "(", "Expr", ")", "Stmt"]),
                        D("do", ["do", "Stmt", "while", "(", "Expr", ")", ";"]),
                        D("for", ["for", "(", "Assign", ";", "Expr", ";", "Assign", ")", "Stmt"]),
                        D("break", ["break", ";"]), D("continue", ["continue", ";"]),
                        D("return", ["return", "ReturnValue"]), D("{", ["Block"]), D("ANY", ["Expr"])]),
    "ReturnValue" := E(false, [D(";", [";"]), D("ANY", ["Expr", ";"])]),
    "Assign" := E(false, [D("ANY", ["Var", "=", "Expr"])]),
    "Else" := E(true, [D("else", ["else", "Stmt"])]),
    "VarCall" := E(false, [D("ANY", ["ident", "VarCallRight"])]),
    "VarCallRight" := E(true, [D("[", ["VarRight"]), D("(", ["ArgListWrapper"])]),
    "Var" := E(false, [D("ANY", ["ident", "VarRight"])]),
    "VarRight" := E(true, [D("[", ["[", "Expr", "]", "VarRight"])]),
    "ArgListWrapper" := E(false, [D("ANY", ["(", "ArgList", ")"])]),
    "ArgList" := E(true, [D("ANY", ["Expr", "ArgListRight"])]),
    "ArgListRight" := E(true, [D(",", [",", "Expr", "ArgListRight"])]),
    "Expr" := E(false, [D("ANY", ["Join", "ExprRight"])]),
    "ExprRight" := E(true, [D("||", ["||", "Join", "ExprRight"])]),
    "Join" := E(false, [D("ANY", ["Equality", "JoinRight"])]),
    "JoinRight" := E(true, [D("&&", ["&&", "Equality"])]),
    "Equality" := E(false, [D("ANY", ["Rel", "EqualityRight"])]),
    "EqualityRight" := E(true, [D("==", ["==", "Rel", "EqualityRight"]), D("!=", ["!=", "Rel", "EqualityRight"])]),
    "Rel" := E(false, [D("ANY", ["Arith", "RelRight"])]),
    "RelRight" := E(true, [D("<", ["<", "Arith", "RelRight"]), D("<=", ["<=", "Arith", "RelRight"]),
                           D(">", [">", "Arith", "RelRight"]), D(">=", [">=", "Arith", "RelRight"])]),
    "Arith" := E(false, [D("ANY", ["Term", "ArithRight"])]),
    "ArithRight" := E(true, [D("+", ["+", "Term", "ArithRight"]), D("-", ["-", "Term", "ArithRight"])]),
    "Term" := E(false, [D("ANY", ["Unary", "TermRight"])]),
    "TermRight" := E(true, [D("*", ["*", "Unary", "TermRight"]), D("/", ["/", "Unary", "TermRight"])]),
    "Unary" := E(false, [D("+", ["+", "Unary"]), D("-", ["-", "Unary"]), D("!", ["!", "Unary"]),
                         D("(", ["ParExpr"]), D("ANY", ["Oprand"])]),
    "ParExpr" := E(false, [D("ANY", ["(", "Expr", ")"])]),
    "Oprand" := E(false, [D("ident", ["VarCall"]), D("integer_value", ["integer_value"]),
                          D("double_value", ["double_value"]), D("bool_value", ["bool_value"])])
  ]

  /** The table has no `Start` entry, the symbol the parser roots every tree
      at, so the parser fails on any input with this table. */
  lemma StartMissing()
    ensures "Start" !in Grammar && "Program" in Grammar
  {
  }

  /** An argument list is never empty: its one derivation fires on any
      token, so `f()` does not parse. */
  lemma ArgListNeverEmpty(token: Syntax.Token)
    ensures Syntax.FirstTrigger(Grammar["ArgList"].derivations, token, TokenKinds) == Some(0)
    ensures Grammar["ArgList"].derivations[0].rhs == ["Expr", "ArgListRight"]
  {
  }

  // ----- The checker's state -----

  /** An entry of `symbols['_functions']`: the parameter types and, once known,
      the return type. */
  datatype FnInfo = FnInfo(parameters: seq<DataType>, returnType: Option<DataType>)

  /** The state the rules share: the global `symbols` table, its
      `'_functions'` entry (`None` while the key is absent), every node's
      `properties`, and `node.function`, the enclosing function node of the
      nodes inside one. Identifiers cannot begin with `_`, so the
      `'_functions'` key never meets a variable name and is kept apart here. */
  datatype Env = Env(
    globals: map<string, DataType>,
    functions: Option<map<string, FnInfo>>,
    props: map<nat, Attrs>,
    enclosing: map<nat, nat>)

  function At(env: Env, n: nat): Attrs
  {
    AttrsOf(env.props, n)
  }

  function Put(env: Env, n: nat, a: Attrs): (env': Env)
    ensures At(env', n) == a
  {
    env.(props := env.props[n := a])
  }

  /** env' differs from env in the properties of the nodes in ns at most. */
  ghost predicate OnlyProps(env: Env, env': Env, ns: set<nat>)
  {
    && env'.globals == env.globals && env'.functions == env.functions && env'.enclosing == env.enclosing
    && forall k :: k !in ns ==> At(env', k) == At(env, k)
  }

  // ----- Reading the tree the way the rules do -----

  /** `node.children`. */
  function Children(t: Tree, n: nat): Result<seq<nat>, Fault>
  {
    if n < |t.nodes| then Ok(t.nodes[n].children) else Err(IndexError)
  }

  /** `node.children[k]`, a negative k counting from the end. */
  function Child(t: Tree, n: nat, k: int): (r: Result<nat, Fault>)
    ensures r.Ok? ==> n < |t.nodes| && r.value in t.nodes[n].children
  {
    if n >= |t.nodes| then Err(IndexError)
    else
      var cs := t.nodes[n].children;
      if 0 <= k < |cs| then Ok(cs[k])
      else if -|cs| <= k < 0 then Ok(cs[|cs| + k])
      else Err(IndexError)
  }

  /** `node.deriv_tuple[0]`. */
  function Key(t: Tree, n: nat): Result<string, Fault>
  {
    if n < |t.nodes| && |t.nodes[n].deriv| > 0 then Ok(t.nodes[n].deriv[0]) else Err(IndexError)
  }

  /** `node.token`; a node without one makes `.string` or `.token_type` fail. */
  function TokenOf(t: Tree, n: nat, attribute: string): Result<Syntax.Token, Fault>
  {
    if n in t.tokens then Ok(t.tokens[n]) else Err(AttributeError(attribute))
  }

  /** `node.children[k].token.string`. */
  function ChildText(t: Tree, n: nat, k: int): Result<string, Fault>
  {
    var c :- Child(t, n, k);
    var token :- TokenOf(t, c, "string");
    Ok(token.text)
  }

  /** `node.function`, as a Python truth test sees it. */
  function Function(env: Env, n: nat): Option<nat>
  {
    if n in env.enclosing then Some(env.enclosing[n]) else None
  }

  /** `d[key]` of a property that is absent until a rule sets it. */
  function Need<T>(v: Option<T>, key: string): Result<T, Fault>
  {
    if v.Some? then Ok(v.value) else Err(KeyError(key))
  }

  // ----- Symbol tables -----

  /** `table.get(x)`. */
  function Get(table: map<string, DataType>, x: string): DataType
  {
    if x in table then table[x] else Unset
  }

  /** `if table.get(x):` */
  predicate Bound(table: map<string, DataType>, x: string)
  {
    Truthy(Get(table, x))
  }

  /** `MergeSymbols`: `{**symbols, **function_symbols}`: a name the function
      defines hides a global one of the same name. */
  function Merge(globals: map<string, DataType>, locals: map<string, DataType>): (m: map<string, DataType>)
    ensures m.Keys == globals.Keys + locals.Keys
    ensures forall x :: Get(m, x) == if x in locals then locals[x] else Get(globals, x)
  {
    globals + locals
  }

  /** The table a `Var`/`VarCall` node resolves names in: the globals, merged
      with the enclosing function's `symbols` when there is one. */
  function Visible(env: Env, n: nat): Result<map<string, DataType>, Fault>
  {
    match Function(env, n)
    case None => Ok(Merge(env.globals, map[]))
    case Some(f) =>
      var locals :- Need(At(env, f).symbols, "symbols");
      Ok(Merge(env.globals, locals))
  }

  /** Name resolution as `Var` and `VarCall` do it. */
  function Resolve(table: map<string, DataType>, x: string): (r: Result<DataType, string>)
    ensures r.Ok? <==> Bound(table, x)
    ensures r.Ok? ==> r.value == table[x]
  {
    if Bound(table, x) then Ok(table[x]) else Err("Variable " + x + " not defined")
  }

  /** A local name wins over a global one; a name only the globals define is
      found there; a name neither defines is an error. */
  lemma LocalShadowsGlobal(globals: map<string, DataType>, locals: map<string, DataType>, x: string)
    ensures x in locals ==> Resolve(Merge(globals, locals), x) == Resolve(locals, x)
    ensures x !in locals ==> Resolve(Merge(globals, locals), x) == Resolve(globals, x)
    ensures Resolve(Merge(globals, locals), x).Err? <==> !Bound(locals, x) && (x in locals || !Bound(globals, x))
  {
    var m := Merge(globals, locals);
    assert Get(m, x) == if x in locals then locals[x] else Get(globals, x);
  }

  /** The insertion `Decl` makes: refused when the name is already bound. */
  function Declare(table: map<string, DataType>, x: string, t: DataType): (r: Result<map<string, DataType>, string>)
    ensures r.Err? <==> Bound(table, x)
    ensures r.Ok? ==> r.value.Keys == table.Keys + {x}
    ensures r.Ok? ==> Get(r.value, x) == t && forall y :: y != x ==> Get(r.value, y) == Get(table, y)
  {
    if Bound(table, x) then Err("Duplicate definition for variable " + x) else Ok(table[x := t])
  }

  /** After a declaration with a type, the name resolves to that type and a
      second declaration of it fails; other names resolve as before. */
  lemma DeclareThenResolve(table: map<string, DataType>, x: string, t: DataType, y: string)
    requires Declare(table, x, t).Ok? && Truthy(t)
    ensures Resolve(Declare(table, x, t).value, x) == Ok(t)
    ensures Declare(Declare(table, x, t).value, x, t).Err?
    ensures y != x ==> Resolve(Declare(table, x, t).value, y) == Resolve(table, y)
  {
    var m := Declare(table, x, t).value;
    assert Get(m, x) == t;
    if y != x {
      assert Get(m, y) == Get(table, y);
    }
  }

  /** The table `Decl` inserts into: the enclosing function's `symbols`, or
      the global table outside a function. */
  function Active(env: Env, n: nat): Result<map<string, DataType>, Fault>
  {
    match Function(env, n)
    case None => Ok(env.globals)
    case Some(f) => Need(At(env, f).symbols, "symbols")
  }

  /** Replaces the table `Active` reads. */
  function WithActive(env: Env, n: nat, table: map<string, DataType>): (env': Env)
    ensures Active(env', n) == Ok(table)
    ensures env'.functions == env.functions && env'.enclosing == env.enclosing
    ensures Function(env, n).Some? ==> env'.globals == env.globals
    ensures Function(env, n).None? ==> env'.props == env.props
  {
    match Function(env, n)
    case None => env.(globals := table)
    case Some(f) => Put(env, f, At(env, f).(symbols := Some(table)))
  }

  // ----- Functions and calls -----

  /** `tuple(p[0] for p in para_list)`. */
  function ParamTypes(ps: seq<Param>): (ts: seq<DataType>)
    ensures |ts| == |ps| && forall i :: 0 <= i < |ps| ==> ts[i] == ps[i].dataType
  {
    seq(|ps|, i requires 0 <= i < |ps| => ps[i].dataType)
  }

  /** The registration `ParaList` makes once a function's parameters are
      known: refused when the name is registered already. */
  function Register(functions: map<string, FnInfo>, name: string, ps: seq<Param>): (r: Result<map<string, FnInfo>, string>)
    ensures r.Err? <==> name in functions
    ensures r.Ok? ==> r.value == functions[name := FnInfo(ParamTypes(ps), None)]
  {
    if name in functions then Err("Function " + name + ": Duplicate definition")
    else Ok(functions[name := FnInfo(ParamTypes(ps), None)])
  }

  /** Records a registered function's return type. */
  function SetReturn(functions: map<string, FnInfo>, name: string, t: DataType): (r: Result<map<string, FnInfo>, Fault>)
    ensures r.Ok? <==> name in functions
    ensures r.Ok? ==> r.value.Keys == functions.Keys && r.value[name] == functions[name].(returnType := Some(t))
    ensures r.Ok? ==> forall g :: g in functions && g != name ==> r.value[g] == functions[g]
  {
    if name in functions then Ok(functions[name := functions[name].(returnType := Some(t))])
    else Err(KeyError(name))
  }

  /** Python's `repr` of a tuple of type names, as the call error prints it. */
  function Repr(ts: seq<DataType>): string
  {
    if |ts| == 0 then "()"
    else if |ts| == 1 then "(" + Quoted(ts[0]) + ",)"
    else "(" + Items(ts) + ")"
  }

  function Quoted(t: DataType): string
  {
    if t == Unset then "None" else "'" + Str(t) + "'"
  }

  function Items(ts: seq<DataType>): string
  {
    if |ts| == 0 then ""
    else if |ts| == 1 then Quoted(ts[0])
    else Quoted(ts[0]) + ", " + Items(ts[1..])
  }

  /** The type of a call, as `VarCall` finds it: the function must be
      registered, its parameter types must be the argument types exactly, and
      its return type must be known. */
  function CallType(functions: map<string, FnInfo>, name: string, args: seq<DataType>): (r: Result<DataType, Fault>)
    ensures r.Ok? <==> name in functions && functions[name].parameters == args && functions[name].returnType.Some?
    ensures r.Ok? ==> r.value == functions[name].returnType.value
    ensures name !in functions ==> r == Err(RuleError(name + ": No such function"))
    ensures name in functions && functions[name].parameters != args ==> r.Err? && r.error.RuleError?
  {
    if name !in functions then Err(RuleError(name + ": No such function"))
    else
      var info := functions[name];
      if info.parameters != args then
        Err(RuleError("Wrong Argument Type: " + Repr(info.parameters) + " required but " + Repr(args) + " given"))
      else Need(info.returnType, "return_type")
  }

  /** A function registered with some parameters and then given a return type
      is called successfully exactly with arguments of the parameters' types,
      and the call has that return type; a second registration fails. */
  lemma CallAfterDefinition(functions: map<string, FnInfo>, name: string, ps: seq<Param>, t: DataType, args: seq<DataType>)
    requires name !in functions
    ensures Register(functions, name, ps).Ok?
    ensures Register(Register(functions, name, ps).value, name, ps).Err?
    ensures var r := SetReturn(Register(functions, name, ps).value, name, t);
            r.Ok? && (CallType(r.value, name, args).Ok? <==> args == ParamTypes(ps))
    ensures var r := SetReturn(Register(functions, name, ps).value, name, t);
            args == ParamTypes(ps) ==> CallType(r.value, name, args) == Ok(t)
  {
  }

  /** A call to a function whose return type is not yet known, such as a
      recursive call in a body without a declared type, fails with a missing
      key even when its arguments match. */
  lemma CallBeforeReturnKnown(functions: map<string, FnInfo>, name: string, ps: seq<Param>)
    requires name !in functions
    ensures CallType(Register(functions, name, ps).value, name, ParamTypes(ps)) == Err(KeyError("return_type"))
  {
  }

  /** The loop of `ParaList` that enters each parameter into the function's
      table, in order. */
  function BindParams(table: map<string, DataType>, ps: seq<Param>): map<string, DataType>
    decreases |ps|
  {
    if |ps| == 0 then table
    else BindParams(table, ps[..|ps| - 1])[ps[|ps| - 1].ident := ps[|ps| - 1].dataType]
  }

  /** The type of the last parameter named x, if any parameter has that name. */
  function LastParam(ps: seq<Param>, x: string): (r: Option<DataType>)
    ensures r.None? <==> forall i :: 0 <= i < |ps| ==> ps[i].ident != x
    ensures r.Some? ==> exists i :: 0 <= i < |ps| && ps[i].ident == x && ps[i].dataType == r.value &&
                                    forall j :: i < j < |ps| ==> ps[j].ident != x
    decreases |ps|, 0
  {
    if |ps| == 0 then None
    else if ps[|ps| - 1].ident == x then Some(ps[|ps| - 1].dataType)
    else
      LastParamSkip(ps, x);
      LastParam(ps[..|ps| - 1], x)
  }

  /** A last parameter of another name does not change the lookup's
      guarantees: they carry over from the list without it. */
  lemma LastParamSkip(ps: seq<Param>, x: string)
    requires |ps| > 0 && ps[|ps| - 1].ident != x
    ensures var r := LastParam(ps[..|ps| - 1], x);
            && (r.None? <==> forall i :: 0 <= i < |ps| ==> ps[i].ident != x)
            && (r.Some? ==> exists i :: 0 <= i < |ps| && ps[i].ident == x && ps[i].dataType == r.value &&
                                        forall j :: i < j < |ps| ==> ps[j].ident != x)
    decreases |ps| - 1, 1
  {
    var q := ps[..|ps| - 1];
    var r := LastParam(q, x);
    if r.Some? {
      var i :| 0 <= i < |q| && q[i].ident == x && q[i].dataType == r.value &&
               forall j :: i < j < |q| ==> q[j].ident != x;
      assert ps[i] == q[i];
      forall j | i < j < |ps|
        ensures ps[j].ident != x
      {
        if j < |q| {
          assert ps[j] == q[j];
        }
      }
    } else {
      forall i | 0 <= i < |ps|
        ensures ps[i].ident != x
      {
        if i < |q| {
          assert ps[i] == q[i];
        }
      }
    }
  }

  /** A later parameter of a name overwrites an earlier one; names no
      parameter has keep their entry. */
  lemma {:induction false} BindParamsMeaning(table: map<string, DataType>, ps: seq<Param>, x: string)
    ensures Get(BindParams(table, ps), x) == match LastParam(ps, x) case Some(t) => t case None => Get(table, x)
    decreases |ps|
  {
    if |ps| > 0 {
      BindParamsMeaning(table, ps[..|ps| - 1], x);
    }
  }

  /** `for para_type, para_name in para_list: symbols[para_name] = para_type`. */
  method InsertParameters(table: map<string, DataType>, ps: seq<Param>) returns (m: map<string, DataType>)
    ensures m == BindParams(table, ps)
  {
    m := table;
    var i := 0;
    while i < |ps|
      invariant 0 <= i <= |ps|
      invariant m == BindParams(table, ps[..i])
    {
      assert ps[..i + 1][..i] == ps[..i];
      m := m[ps[i].ident := ps[i].dataType];
      i := i + 1;
    }
    assert ps[..i] == ps;
  }

  // ----- Type decisions -----

  /** `bool` alone in arithmetic counts as `int`. */
  function Promote(t: DataType): DataType
  {
    if t == Bool then Int else t
  }

  /** `SetNumberType`: the type of `item Right` where the right node holds
      `op item' Right'` (hasRight) or nothing. */
  function NumberType(item: DataType, right: DataType, hasRight: bool): DataType
  {
    if item == Void then Void
    else if hasRight && right == Void then Void
    else if hasRight then (if item == Double then Double else right)
    else Promote(item)
  }

  /** The type a `Term`/`Arith` node gets for the operand types of its chain
      `item0 op item1 op ... itemk`, the rule of each right node applied from
      the last one back. */
  function ChainType(items: seq<DataType>): DataType
    requires |items| > 0
    decreases |items|
  {
    if |items| == 1 then NumberType(items[0], Unset, false)
    else NumberType(items[0], ChainType(items[1..]), true)
  }

  /** A `void` operand anywhere makes the chain `void`; otherwise a `double`
      anywhere makes it `double`; otherwise it has the last operand's type,
      `bool` read as `int`. */
  lemma {:induction false} ChainTypeMeaning(items: seq<DataType>)
    requires |items| > 0
    ensures ChainType(items) ==
              if Void in items then Void
              else if Double in items then Double
              else Promote(items[|items| - 1])
    decreases |items|
  {
    if |items| > 1 {
      ChainTypeMeaning(items[1..]);
      assert items == [items[0]] + items[1..];
      assert items[|items| - 1] == items[1..][|items[1..]| - 1];
    }
  }

  /** `SetBoolType`: with an operator (`right` holds the type of the operand
      after it) the node is `bool`, or `void` if either side is; without one
      it has its item's type. */
  function BoolType(item: DataType, right: Option<DataType>): (t: DataType)
    ensures right.Some? ==> (t == Void <==> item == Void || right.value == Void)
    ensures right.Some? ==> t == Void || t == Bool
    ensures right.None? ==> t == item
  {
    match right
    case Some(r) => if r == Void || item == Void then Void else Bool
    case None => item
  }

  /** `Unary`: op is the first symbol of the derivation used. */
  function UnaryType(op: string, operand: DataType): (r: Result<DataType, string>)
    ensures operand == Void ==> r == Ok(Void)
    ensures operand != Void && op == "!" ==> (r.Ok? <==> operand == Bool)
    ensures operand != Void && op == "Oprand" ==> r == Ok(operand)
    ensures r.Err? ==> op == "!"
  {
    if operand == Void then Ok(Void)
    else if op == "!" then
      (if operand == Bool then Ok(Bool) else Err("Not Operator: bool oprand required"))
    else if op == "Oprand" then Ok(operand)
    else if operand == Double then Ok(Double)
    else Ok(Int)
  }

  /** `+`, `-` and a parenthesised expression give a number (or `void`), and
      applying a sign twice gives what applying it once does; `!` keeps `bool`. */
  lemma UnaryMeaning(op: string, operand: DataType)
    requires op != "!" && op != "Oprand"
    ensures UnaryType(op, operand).Ok?
    ensures UnaryType(op, operand).value in {Int, Double, Void}
    ensures UnaryType(op, operand).value == Double <==> operand == Double
    ensures UnaryType(op, UnaryType(op, operand).value) == UnaryType(op, operand)
    ensures UnaryType("!", Bool) == Ok(Bool)
  {
  }

  /** A condition of `if`, `while`, `do` or `for` must be `bool` or `int`. */
  predicate Condition(t: DataType)
  {
    t == Bool || t == Int
  }

  /** `check_function_type`: current is the function node's
      `properties.get('return_type')`; a truthy one pins the type, otherwise
      this return sets it. The result is the function's return type after. */
  function PinReturn(current: Option<DataType>, t: DataType): (r: Result<DataType, string>)
    ensures current.Some? && Truthy(current.value) ==> (r.Ok? <==> t == current.value)
    ensures r.Ok? ==> r.value == t
  {
    if current.Some? && Truthy(current.value) then
      if current.value != t then Err(Str(t) + ": return type conflict") else Ok(current.value)
    else Ok(t)
  }

  /** The return statements of one function, in order, checked one after
      another from a function without a return type. */
  function PinAll(current: Option<DataType>, ts: seq<DataType>): Result<Option<DataType>, string>
    decreases |ts|
  {
    if |ts| == 0 then Ok(current)
    else
      match PinReturn(current, ts[0])
      case Err(e) => Err(e)
      case Ok(t) => PinAll(Some(t), ts[1..])
  }

  /** The first return pins the function's type: a sequence of returns (each
      of a real type) passes exactly when all have the first one's type. */
  lemma {:induction false} ReturnsAgree(ts: seq<DataType>)
    requires |ts| > 0 && forall i :: 0 <= i < |ts| ==> Truthy(ts[i])
    ensures PinAll(None, ts).Ok? <==> forall i :: 0 <= i < |ts| ==> ts[i] == ts[0]
    ensures PinAll(None, ts).Ok? ==> PinAll(None, ts).value == Some(ts[0])
  {
    PinnedStays(ts[0], ts[1..]);
    if forall i :: 0 <= i < |ts| ==> ts[i] == ts[0] {
      assert forall i :: 0 <= i < |ts[1..]| ==> ts[1..][i] == ts[0];
    } else {
      var i :| 0 <= i < |ts| && ts[i] != ts[0];
      assert ts[1..][i - 1] != ts[0];
    }
  }

  lemma {:induction false} PinnedStays(t: DataType, ts: seq<DataType>)
    requires Truthy(t)
    ensures PinAll(Some(t), ts).Ok? <==> forall i :: 0 <= i < |ts| ==> ts[i] == t
    ensures PinAll(Some(t), ts).Ok? ==> PinAll(Some(t), ts).value == Some(t)
    decreases |ts|
  {
    if |ts| > 0 {
      PinnedStays(t, ts[1..]);
      assert forall i :: 1 <= i < |ts| ==> ts[i] == ts[1..][i - 1];
    }
  }

  /** `Function`: the return type the body carries, if any, must be the
      type the return statements pinned, `void` when none did. */
  function DetectedReturn(declared: Option<DataType>, pinned: Option<DataType>): (r: Result<DataType, string>)
    ensures (pinned.None? || !Truthy(pinned.value)) && r.Ok? ==> r.value == Void
    ensures pinned.Some? && Truthy(pinned.value) && r.Ok? ==> r.value == pinned.value
    ensures declared.Some? && Truthy(declared.value) ==> (r.Ok? <==> declared.value == if pinned.Some? && Truthy(pinned.value) then pinned.value else Void)
    ensures (declared.None? || !Truthy(declared.value)) ==> r.Ok?
  {
    var detected := if pinned.Some? && Truthy(pinned.value) then pinned.value else Void;
    if declared.Some? && Truthy(declared.value) && declared.value != detected then
      Err("Return type conflict: Defined=" + Str(declared.value) + ", Detected=" + Str(detected))
    else Ok(detected)
  }

  /** `token2data` of `Oprand`. */
  function LiteralType(kind: string): (r: Result<DataType, Fault>)
    ensures r.Ok? <==> kind in {"integer_value", "bool_value", "double_value"}
    ensures r.Ok? ==> r.value in {Int, Bool, Double}
  {
    if kind == "integer_value" then Ok(Int)
    else if kind == "bool_value" then Ok(Bool)
    else if kind == "double_value" then Ok(Double)
    else Err(KeyError(kind))
  }

  // ----- The rules -----

  /** `node.parent`; a node without one makes `.syntax_item` fail. */
  function Parent(t: Tree, n: nat): (r: Result<nat, Fault>)
    ensures r.Ok? ==> n < |t.nodes| && r.value < |t.nodes| && t.nodes[n].parent == Some(r.value)
  {
    if n >= |t.nodes| then Err(IndexError)
    else match t.nodes[n].parent
      case None => Err(AttributeError("syntax_item"))
      case Some(p) => if p < |t.nodes| then Ok(p) else Err(IndexError)
  }

  /** `node.function` where the rule uses it without a truth test first. */
  function FunctionNode(env: Env, n: nat, attribute: string): (r: Result<nat, Fault>)
    ensures r.Ok? <==> Function(env, n).Some?
    ensures r.Ok? ==> Function(env, n) == Some(r.value)
  {
    match Function(env, n)
    case None => Err(AttributeError(attribute))
    case Some(f) => Ok(f)
  }

  function Last(s: seq<nat>): nat
    requires |s| > 0
  {
    s[|s| - 1]
  }

  /** RULE.Type: the node has the type its keyword names. */
  function TypeRule(env: Env, t: Tree, n: nat): (r: Check<Env>)
    ensures r.Ok? <==> ChildText(t, n, 0).Ok?
    ensures r.Ok? ==> OnlyProps(env, r.value, {n}) && At(r.value, n).dataType == FromName(ChildText(t, n, 0).value)
    ensures r.Ok? ==> At(r.value, n).dataType != Unset
  {
    var name :- ChildText(t, n, 0);
    Ok(Put(env, n, At(env, n).(dataType := FromName(name))))
  }

  /** RULE.Decl: binds the identifier to the type in the active table, and
      refuses a name that table already binds. */
  function DeclRule(env: Env, t: Tree, n: nat): (r: Check<Env>)
    ensures r.Ok? ==> Child(t, n, 0).Ok? && ChildText(t, n, 1).Ok? && Active(env, n).Ok?
    ensures r.Ok? ==>
              var x := ChildText(t, n, 1).value;
              var dt := At(env, Child(t, n, 0).value).dataType;
              && !Bound(Active(env, n).value, x)
              && Active(r.value, n) == Ok(Active(env, n).value[x := dt])
              && At(r.value, n).ident == Some(x) && At(r.value, n).dataType == dt
              && r.value.functions == env.functions && r.value.enclosing == env.enclosing
    ensures Child(t, n, 0).Ok? && ChildText(t, n, 1).Ok? && Active(env, n).Ok? ==>
              (r.Err? <==> Bound(Active(env, n).value, ChildText(t, n, 1).value))
    ensures r.Err? && r.error.RuleError? ==>
              ChildText(t, n, 1).Ok? && r.error.msg == "Duplicate definition for variable " + ChildText(t, n, 1).value
  {
    var c0 :- Child(t, n, 0);
    var x :- ChildText(t, n, 1);
    var dt := At(env, c0).dataType;
    var env1 := Put(env, n, At(env, n).(dataType := dt, ident := Some(x)));
    assert Active(env1, n) == Active(env, n);
    var table :- Active(env1, n);
    match Declare(table, x, dt)
    case Err(msg) => Err(RuleError(msg))
    case Ok(table') => Ok(WithActive(env1, n, table'))
  }

  /** RULE.Var: the variable takes the type the visible tables give it. */
  function VarRule(env: Env, t: Tree, n: nat): (r: Check<Env>)
    ensures r.Ok? <==> Visible(env, n).Ok? && ChildText(t, n, 0).Ok? && Bound(Visible(env, n).value, ChildText(t, n, 0).value)
    ensures r.Ok? ==>
              var x := ChildText(t, n, 0).value;
              OnlyProps(env, r.value, {n}) && At(r.value, n).ident == Some(x) &&
              Resolve(Visible(env, n).value, x) == Ok(At(r.value, n).dataType)
  {
    var table :- Visible(env, n);
    var x :- ChildText(t, n, 0);
    match Resolve(table, x)
    case Err(msg) => Err(RuleError(msg))
    case Ok(dt) => Ok(Put(env, n, At(env, n).(dataType := dt, ident := Some(x))))
  }

  /** RULE.VarCall: a variable is resolved as `Var` does; a call needs a
      registered function whose parameter types are the argument types, and
      has its return type. */
  function VarCallRule(env: Env, t: Tree, n: nat): (r: Check<Env>)
    ensures r.Ok? ==> OnlyProps(env, r.value, {n}) && Visible(env, n).Ok? && ChildText(t, n, 0).Ok? && Child(t, n, 1).Ok?
    ensures r.Ok? ==> At(r.value, n).varType == At(env, Child(t, n, 1).value).varType && At(r.value, n).varType.Some?
    ensures r.Ok? && At(r.value, n).varType == Some(VarRef) ==>
              Resolve(Visible(env, n).value, ChildText(t, n, 0).value) == Ok(At(r.value, n).dataType)
    ensures r.Ok? && At(r.value, n).varType == Some(CallRef) ==>
              && env.functions.Some? && At(env, Child(t, n, 1).value).argTypes.Some?
              && CallType(env.functions.value, ChildText(t, n, 0).value, At(env, Child(t, n, 1).value).argTypes.value)
                 == Ok(At(r.value, n).dataType)
              && At(r.value, n).functionName == Some(ChildText(t, n, 0).value) && At(r.value, n).keepTemp
  {
    var table :- Visible(env, n);
    var x :- ChildText(t, n, 0);
    var c1 :- Child(t, n, 1);
    var kind :- Need(At(env, c1).varType, "var_type");
    var a := At(env, n).(varType := Some(kind));
    match kind
    case VarRef =>
      (match Resolve(table, x)
       case Err(msg) => Err(RuleError(msg))
       case Ok(dt) => Ok(Put(env, n, a.(dataType := dt, ident := Some(x)))))
    case ArrayRef => Ok(Put(env, n, a))
    case CallRef =>
      var fs :- Need(env.functions, "_functions");
      if x !in fs then Err(RuleError(x + ": No such function"))
      else
        var args :- Need(At(env, c1).argTypes, "arg_types");
        var dt :- CallType(fs, x, args);
        Ok(Put(env, n, a.(keepTemp := true, functionName := Some(x), dataType := dt)))
  }

  /** RULE.VarCallRight: which of a variable, an array element and a call
      the identifier is, with a call's argument types. */
  function VarCallRightRule(env: Env, t: Tree, n: nat): (r: Check<Env>)
    ensures r.Ok? ==> OnlyProps(env, r.value, {n}) && n < |t.nodes| && At(r.value, n).varType.Some?
    ensures r.Ok? ==> (At(r.value, n).varType == Some(VarRef) <==> t.nodes[n].children == [])
    ensures r.Ok? && At(r.value, n).varType == Some(CallRef) ==>
              Child(t, n, 0).Ok? && At(r.value, n).argTypes == At(env, Child(t, n, 0).value).argTypes
  {
    var cs :- Children(t, n);
    if |cs| == 0 then Ok(Put(env, n, At(env, n).(varType := Some(VarRef))))
    else
      var key :- Key(t, n);
      if key == "VarRight" then Ok(Put(env, n, At(env, n).(varType := Some(ArrayRef))))
      else if key == "ArgListWrapper" then
        var args :- Need(At(env, cs[0]).argTypes, "arg_types");
        Ok(Put(env, n, At(env, n).(varType := Some(CallRef), argTypes := Some(args))))
      else Err(AssertionError)
  }

  /** RULE.ArgListWrapper: the argument types of the list inside. */
  function ArgListWrapperRule(env: Env, t: Tree, n: nat): (r: Check<Env>)
    ensures r.Ok? ==> OnlyProps(env, r.value, {n}) && Child(t, n, 1).Ok?
    ensures r.Ok? ==> At(r.value, n).argTypes == At(env, Child(t, n, 1).value).argTypes && At(r.value, n).argTypes.Some?
  {
    var c1 :- Child(t, n, 1);
    var args :- Need(At(env, c1).argTypes, "arg_types");
    Ok(Put(env, n, At(env, n).(argTypes := Some(args))))
  }

  /** RULE.ArgList and RULE.ArgListRight: the type of the expression at child
      k followed by the types the rest of the list collected; `()` for an
      empty list. */
  function ArgsRule(env: Env, t: Tree, n: nat, k: nat): (r: Check<Env>)
    ensures r.Ok? ==> OnlyProps(env, r.value, {n}) && n < |t.nodes| && At(r.value, n).argTypes.Some?
    ensures r.Ok? && t.nodes[n].children == [] ==> At(r.value, n).argTypes == Some([])
    ensures r.Ok? && t.nodes[n].children != [] ==>
              Child(t, n, k).Ok? && Child(t, n, -1).Ok? && At(env, Child(t, n, -1).value).argTypes.Some? &&
              At(r.value, n).argTypes.value ==
                [At(env, Child(t, n, k).value).dataType] + At(env, Child(t, n, -1).value).argTypes.value
  {
    var cs :- Children(t, n);
    if |cs| == 0 then Ok(Put(env, n, At(env, n).(argTypes := Some([]))))
    else
      var e :- Child(t, n, k);
      var right := cs[|cs| - 1];
      var rest :- Need(At(env, right).argTypes, "arg_types");
      Ok(Put(env, n, At(env, n).(argTypes := Some([At(env, e).dataType] + rest))))
  }

  /** RULE.Oprand: a variable or call passes its type through and keeps its
      temporary; a literal has the type of its token kind. */
  function OprandRule(env: Env, t: Tree, n: nat): (r: Check<Env>)
    ensures r.Ok? ==> OnlyProps(env, r.value, {n}) && Key(t, n).Ok? && Child(t, n, 0).Ok?
    ensures r.Ok? && Key(t, n).value == "VarCall" ==>
              At(r.value, n).dataType == At(env, Child(t, n, 0).value).dataType && At(r.value, n).keepTemp
    ensures r.Ok? && Key(t, n).value != "VarCall" ==>
              TokenOf(t, Child(t, n, 0).value, "token_type").Ok? &&
              LiteralType(TokenOf(t, Child(t, n, 0).value, "token_type").value.kind) == Ok(At(r.value, n).dataType)
  {
    var key :- Key(t, n);
    var c0 :- Child(t, n, 0);
    if key == "VarCall" then Ok(Put(env, n, At(env, n).(dataType := At(env, c0).dataType, keepTemp := true)))
    else
      var token :- TokenOf(t, c0, "token_type");
      var dt :- LiteralType(token.kind);
      Ok(Put(env, n, At(env, n).(dataType := dt)))
  }

  /** RULE.ParExpr: the type of the expression inside. */
  function ParExprRule(env: Env, t: Tree, n: nat): (r: Check<Env>)
    ensures r.Ok? <==> Child(t, n, 1).Ok?
    ensures r.Ok? ==> OnlyProps(env, r.value, {n}) && At(r.value, n).keepTemp &&
                      At(r.value, n).dataType == At(env, Child(t, n, 1).value).dataType
  {
    var c1 :- Child(t, n, 1);
    Ok(Put(env, n, At(env, n).(dataType := At(env, c1).dataType, keepTemp := true)))
  }

  /** RULE.Unary: the type `UnaryType` gives for the derivation's first
      symbol and the operand's type. */
  function UnaryRule(env: Env, t: Tree, n: nat): (r: Check<Env>)
    ensures r.Ok? ==> OnlyProps(env, r.value, {n}) && Key(t, n).Ok? && Child(t, n, -1).Ok? &&
                      UnaryType(Key(t, n).value, At(env, Child(t, n, -1).value).dataType) == Ok(At(r.value, n).dataType)
    ensures Key(t, n).Ok? && Child(t, n, -1).Ok? ==>
              (r.Err? <==> UnaryType(Key(t, n).value, At(env, Child(t, n, -1).value).dataType).Err?)
  {
    var op :- Key(t, n);
    var c :- Child(t, n, -1);
    var operand := At(env, c);
    match UnaryType(op, operand.dataType)
    case Err(msg) => Err(RuleError(msg))
    case Ok(dt) =>
      var keep := At(env, n).keepTemp || ((op == "Oprand" || op == "ParExpr") && operand.keepTemp);
      Ok(Put(env, n, At(env, n).(dataType := dt, keepTemp := keep)))
  }

  /** `SetNumberType(node, item, right)`. */
  function SetNumberType(env: Env, t: Tree, n: nat, item: nat, right: nat): (r: Check<Env>)
    ensures r.Ok? <==> right < |t.nodes|
    ensures r.Ok? ==>
              OnlyProps(env, r.value, {n}) &&
              At(r.value, n).dataType == NumberType(At(env, item).dataType, At(env, right).dataType, t.nodes[right].children != [])
  {
    var rightChildren :- Children(t, right);
    var it := At(env, item).dataType;
    var dt := NumberType(it, At(env, right).dataType, |rightChildren| > 0);
    var voided := it == Void || (|rightChildren| > 0 && At(env, right).dataType == Void);
    var keep := At(env, n).keepTemp || (!voided && At(env, item).keepTemp);
    Ok(Put(env, n, At(env, n).(dataType := dt, keepTemp := keep)))
  }

  /** RULE.Term and RULE.Arith: the first operand and the rest of the chain. */
  function ChainHeadRule(env: Env, t: Tree, n: nat): (r: Check<Env>)
    ensures r.Ok? ==> Child(t, n, 0).Ok? && Child(t, n, -1).Ok? && OnlyProps(env, r.value, {n})
    ensures r.Ok? ==> r == SetNumberType(env, t, n, Child(t, n, 0).value, Child(t, n, -1).value)
  {
    var item :- Child(t, n, 0);
    var right := Last(t.nodes[n].children);
    SetNumberType(env, t, n, item, right)
  }

  /** RULE.TermRight and RULE.ArithRight: `op operand Right`, or nothing. */
  function ChainRightRule(env: Env, t: Tree, n: nat): (r: Check<Env>)
    ensures r.Ok? && n < |t.nodes| && t.nodes[n].children == [] ==> r.value == env
    ensures r.Ok? ==> OnlyProps(env, r.value, {n})
    ensures r.Ok? && n < |t.nodes| && t.nodes[n].children != [] ==>
              Child(t, n, 1).Ok? && Child(t, n, -1).Ok? && r == SetNumberType(env, t, n, Child(t, n, 1).value, Child(t, n, -1).value)
  {
    var cs :- Children(t, n);
    if |cs| > 0 then
      var item :- Child(t, n, 1);
      SetNumberType(env, t, n, item, cs[|cs| - 1])
    else Ok(env)
  }

  /** The nodes a rule on n may write besides n: its children. */
  function ChildSet(t: Tree, n: nat): set<nat>
  {
    if n < |t.nodes| then set c | c in t.nodes[n].children else {}
  }

  /** `SetBoolType(node)`, the rule of `Rel`, `Equality` and `Join`: the
      node's type is `BoolType` of its first child and, when the right child
      holds an operator, of the operand after it. */
  function SetBoolType(env: Env, t: Tree, n: nat): (r: Check<Env>)
    ensures r.Ok? ==> n < |t.nodes| && OnlyProps(env, r.value, {n} + ChildSet(t, n))
    ensures r.Ok? && t.nodes[n].children == [] ==> r.value == env
    ensures r.Ok? && t.nodes[n].children != [] ==>
              && |t.nodes[n].children| >= 2
              && var item := t.nodes[n].children[0];
                 var right := t.nodes[n].children[1];
                 right < |t.nodes| &&
                 if t.nodes[right].children == [] then
                   At(r.value, n).dataType == BoolType(At(env, item).dataType, None)
                 else
                   Child(t, right, 1).Ok? &&
                   At(r.value, n).dataType == BoolType(At(env, item).dataType, Some(At(env, Child(t, right, 1).value).dataType))
  {
    var cs :- Children(t, n);
    if |cs| == 0 then Ok(env)
    else
      var right :- Child(t, n, 1);
      var item := cs[0];
      var rightChildren :- Children(t, right);
      if |rightChildren| > 0 then
        var operand :- Child(t, right, 1);
        var dt := BoolType(At(env, item).dataType, Some(At(env, operand).dataType));
        var env1 := Put(env, n, At(env, n).(dataType := dt));
        var env2 := Put(env1, item, At(env1, item).(keepTemp := true));
        var env3 := Put(env2, right, At(env2, right).(keepTemp := true));
        Ok(Put(env3, n, At(env3, n).(keepTemp := true)))
      else
        var keep := At(env, n).keepTemp || At(env, item).keepTemp;
        Ok(Put(env, n, At(env, n).(dataType := At(env, item).dataType, keepTemp := keep)))
  }

  /** The type an `Expr` node gets before the void check. */
  function ExprTyped(env: Env, t: Tree, n: nat): Check<Env>
  {
    var p :- Parent(t, n);
    var env1 := if t.nodes[p].item == "ParExpr" then Put(env, n, At(env, n).(keepTemp := true)) else env;
    SetBoolType(env1, t, n)
  }

  /** RULE.Expr: a `void` expression is an error unless its statement is
      `eval`. */
  function ExprRule(env: Env, t: Tree, n: nat): (r: Check<Env>)
    ensures r.Ok? ==> ExprTyped(env, t, n) == r && Parent(t, n).Ok?
    ensures ExprTyped(env, t, n).Ok? && Parent(t, n).Ok? && t.nodes[Parent(t, n).value].deriv != [] ==>
              (r.Ok? <==> At(ExprTyped(env, t, n).value, n).dataType != Void || t.nodes[Parent(t, n).value].deriv[0] == "eval")
    ensures r.Err? && r.error.RuleError? ==> r.error.msg == "Void expression in calculation"
  {
    var env' :- ExprTyped(env, t, n);
    var p := t.nodes[n].parent.value;
    if |t.nodes[p].deriv| == 0 then Err(AssertionError)
    else if At(env', n).dataType == Void && t.nodes[p].deriv[0] != "eval" then Err(RuleError("Void expression in calculation"))
    else Ok(env')
  }

  /** `check_bool_expr` on child k of a statement. */
  function CheckCondition(env: Env, t: Tree, n: nat, k: nat, key: string): (r: Check<Env>)
    ensures r.Ok? <==> Child(t, n, k).Ok? && Condition(At(env, Child(t, n, k).value).dataType)
    ensures r.Ok? ==> r.value == env
  {
    var c :- Child(t, n, k);
    if Condition(At(env, c).dataType) then Ok(env) else Err(RuleError(key + ": bool expression required"))
  }

  /** RULE.Stmt: conditions must be `bool` or `int`; a `return` must be in a
      function and agree with the function's return type, which the first
      `return` sets. */
  function StmtRule(env: Env, t: Tree, n: nat): (r: Check<Env>)
    ensures r.Ok? ==> Key(t, n).Ok?
    ensures r.Ok? && Key(t, n).value != "return" ==> r.value == env
    ensures Key(t, n).Ok? && Key(t, n).value in {"if", "while"} ==> r == CheckCondition(env, t, n, 2, Key(t, n).value)
    ensures Key(t, n).Ok? && Key(t, n).value in {"do", "for"} ==> r == CheckCondition(env, t, n, 4, Key(t, n).value)
    ensures Key(t, n).Ok? && Key(t, n).value == "return" && Child(t, n, 1).Ok? && Function(env, n).None? ==>
              r == Err(RuleError("Return statement not in function"))
    ensures r.Ok? && Key(t, n).value == "return" ==>
              && Child(t, n, 1).Ok? && Function(env, n).Some?
              && var f := Function(env, n).value;
                 OnlyProps(env, r.value, {f}) &&
                 PinReturn(At(env, f).returnType, At(env, Child(t, n, 1).value).dataType) == Ok(At(env, Child(t, n, 1).value).dataType) &&
                 At(r.value, f).returnType == Some(At(env, Child(t, n, 1).value).dataType)
  {
    var key :- Key(t, n);
    if key == "if" || key == "while" then CheckCondition(env, t, n, 2, key)
    else if key == "do" || key == "for" then CheckCondition(env, t, n, 4, key)
    else if key == "return" then
      var c1 :- Child(t, n, 1);
      var rt := At(env, c1).dataType;
      match Function(env, n)
      case None => Err(RuleError("Return statement not in function"))
      case Some(f) =>
        match PinReturn(At(env, f).returnType, rt)
        case Err(msg) => Err(RuleError(msg))
        case Ok(pinned) => Ok(Put(env, f, At(env, f).(returnType := Some(pinned))))
    else Ok(env)
  }

  /** RULE.ReturnValue: the returned expression's type, `void` for a bare
      `return;`. */
  function ReturnValueRule(env: Env, t: Tree, n: nat): (r: Check<Env>)
    ensures r.Ok? ==> OnlyProps(env, r.value, {n}) && Key(t, n).Ok?
    ensures r.Ok? && Key(t, n).value != "Expr" ==> At(r.value, n).dataType == Void
    ensures r.Ok? && Key(t, n).value == "Expr" ==>
              Child(t, n, 0).Ok? && At(r.value, n).dataType == At(env, Child(t, n, 0).value).dataType
  {
    var key :- Key(t, n);
    if key == "Expr" then
      var c0 :- Child(t, n, 0);
      Ok(Put(env, n, At(env, n).(dataType := At(env, c0).dataType)))
    else Ok(Put(env, n, At(env, n).(dataType := Void)))
  }

  /** RULE.FunctionBody as written: it means a body with `-> Type` to carry
      the declared type, but it tests the first symbol of the recorded
      right-hand side against `->`, which no right-hand side of
      `FunctionBody` starts with (see `FunctionBodyRuleInert`). */
  function FunctionBodyRule(env: Env, t: Tree, n: nat): (r: Check<Env>)
    ensures r.Ok? ==> OnlyProps(env, r.value, {n}) && Key(t, n).Ok?
    ensures r.Ok? && Key(t, n).value != "->" ==> r.value == env
    ensures r.Ok? && Key(t, n).value == "->" ==>
              Child(t, n, 0).Ok? && At(r.value, n).returnType == At(env, Child(t, n, 0).value).returnType && At(r.value, n).returnType.Some?
  {
    var key :- Key(t, n);
    if key == "->" then
      var c0 :- Child(t, n, 0);
      var rt :- Need(At(env, c0).returnType, "return_type");
      Ok(Put(env, n, At(env, n).(returnType := Some(rt))))
    else Ok(env)
  }

  /** The two right-hand sides of `FunctionBody`, without and with a
      declared return type. */
  const PlainBody: seq<string> := ["{", "Decls", "Stmts", "}"]
  const ArrowBody: seq<string> := ["FunctionType", "{", "Decls", "Stmts", "}"]

  /** `->` triggers the second derivation but starts neither right-hand side. */
  lemma FunctionBodyShapes()
    ensures "FunctionBody" in Grammar
    ensures Grammar["FunctionBody"].derivations == [D("{", PlainBody), D("->", ArrowBody)]
    ensures forall d :: d in Grammar["FunctionBody"].derivations ==> d.rhs != [] && d.rhs[0] != "->"
  {
  }

  /** On any body the parser builds, the rule as written changes nothing. */
  lemma FunctionBodyRuleInert(env: Env, t: Tree, n: nat)
    requires n < |t.nodes| && (t.nodes[n].deriv == PlainBody || t.nodes[n].deriv == ArrowBody)
    ensures FunctionBodyRule(env, t, n) == Ok(env)
  {
    assert Key(t, n) == Ok(t.nodes[n].deriv[0]);
  }

  /** A body `-> int { }` whose `FunctionType` child recorded `int` loses
      it: the body carries no type, so `Function` detects `void` and reports
      no conflict, where the declared `int` should have been refused. */
  lemma DeclaredTypeLost(env: Env, t: Tree, n: nat)
    requires n < |t.nodes| && t.nodes[n].deriv == ArrowBody && At(env, n).returnType.None?
    requires Child(t, n, 0).Ok? && At(env, Child(t, n, 0).value).returnType == Some(Int)
    ensures FunctionBodyRule(env, t, n).Ok?
    ensures At(FunctionBodyRule(env, t, n).value, n).returnType.None?
    ensures DetectedReturn(At(FunctionBodyRule(env, t, n).value, n).returnType, None) == Ok(Void)
    ensures DetectedReturn(Some(Int), None).Err?
  {
    FunctionBodyRuleInert(env, t, n);
  }

  /** RULE.FunctionBody as intended: a body whose right-hand side starts
      with `FunctionType` carries that child's declared return type. */
  function FunctionBodyRuleCorrected(env: Env, t: Tree, n: nat): (r: Check<Env>)
    ensures r.Ok? ==> OnlyProps(env, r.value, {n}) && Key(t, n).Ok?
    ensures r.Ok? && Key(t, n).value != "FunctionType" ==> r.value == env
    ensures r.Ok? && Key(t, n).value == "FunctionType" ==>
              Child(t, n, 0).Ok? && At(r.value, n).returnType == At(env, Child(t, n, 0).value).returnType && At(r.value, n).returnType.Some?
  {
    var key :- Key(t, n);
    if key == "FunctionType" then
      var c0 :- Child(t, n, 0);
      var rt :- Need(At(env, c0).returnType, "return_type");
      Ok(Put(env, n, At(env, n).(returnType := Some(rt))))
    else Ok(env)
  }

  /** With the corrected rule a declared type reaches `Function`: the body
      carries it, and `DetectedReturn` accepts exactly when it equals the
      type the return statements pinned, `void` when none did. */
  lemma DeclaredTypeChecked(env: Env, t: Tree, n: nat, dt: DataType, pinned: Option<DataType>)
    requires n < |t.nodes| && t.nodes[n].deriv == ArrowBody
    requires Child(t, n, 0).Ok? && At(env, Child(t, n, 0).value).returnType == Some(dt) && Truthy(dt)
    ensures FunctionBodyRuleCorrected(env, t, n).Ok?
    ensures var body := FunctionBodyRuleCorrected(env, t, n).value;
            && At(body, n).returnType == Some(dt)
            && (DetectedReturn(At(body, n).returnType, pinned).Ok? <==>
                  dt == if pinned.Some? && Truthy(pinned.value) then pinned.value else Void)
  {
    assert Key(t, n) == Ok("FunctionType");
  }

  /** RULE.FunctionType: records the declared return type on the node and
      on the function's registration. */
  function FunctionTypeRule(env: Env, t: Tree, n: nat): (r: Check<Env>)
    ensures r.Ok? ==> Child(t, n, 1).Ok? && Function(env, n).Some? && env.functions.Some? && r.value.functions.Some?
    ensures r.Ok? ==>
              var dt := At(env, Child(t, n, 1).value).dataType;
              var name := ChildText(t, Function(env, n).value, 1);
              && name.Ok?
              && At(r.value, n).returnType == Some(dt)
              && (forall k :: k != n ==> At(r.value, k) == At(env, k))
              && r.value.globals == env.globals && r.value.enclosing == env.enclosing
              && SetReturn(env.functions.value, name.value, dt) == Ok(r.value.functions.value)
  {
    var c1 :- Child(t, n, 1);
    var dt := At(env, c1).dataType;
    var env1 := Put(env, n, At(env, n).(returnType := Some(dt)));
    var f :- FunctionNode(env1, n, "children");
    var name :- ChildText(t, f, 1);
    var fs :- Need(env1.functions, "_functions");
    var fs' :- SetReturn(fs, name, dt);
    Ok(env1.(functions := Some(fs')))
  }

  /** RULE.Function: the return type the body's statements pinned (`void`
      without any) must equal the one the body carries, if any, and becomes
      the function's. The body carries a declared type only under
      `FunctionBodyRuleCorrected`. */
  function FunctionRule(env: Env, t: Tree, n: nat): (r: Check<Env>)
    ensures r.Ok? ==> ChildText(t, n, 1).Ok? && Child(t, n, -1).Ok? && env.functions.Some? && r.value.functions.Some?
    ensures r.Ok? ==>
              var name := ChildText(t, n, 1).value;
              var detected := DetectedReturn(At(env, Child(t, n, -1).value).returnType, At(env, n).returnType);
              && detected.Ok?
              && At(r.value, n).returnType == Some(detected.value) && At(r.value, n).name == Some(name)
              && SetReturn(env.functions.value, name, detected.value) == Ok(r.value.functions.value)
              && OnlyProps(env.(functions := r.value.functions), r.value, {n})
    ensures ChildText(t, n, 1).Ok? && Child(t, n, -1).Ok? ==>
              (DetectedReturn(At(env, Child(t, n, -1).value).returnType, At(env, n).returnType).Err? ==> r.Err? && r.error.RuleError?)
  {
    var name :- ChildText(t, n, 1);
    var body :- Child(t, n, -1);
    match DetectedReturn(At(env, body).returnType, At(env, n).returnType)
    case Err(msg) => Err(RuleError(msg))
    case Ok(detected) =>
      var c3 :- Child(t, n, 3);
      var ps :- Need(At(env, c3).paraList, "para_list");
      var env1 := Put(env, n, At(env, n).(name := Some(name), paraList := Some(ps), returnType := Some(detected)));
      var fs :- Need(env1.functions, "_functions");
      if name !in fs then Err(AssertionError)
      else Ok(env1.(functions := Some(fs[name := fs[name].(returnType := Some(detected))])))
  }

  /** The parameters a `ParaList` (k = 0) or `ParaListRight` (k = 1) node
      lists: the type and name at children k and k+1, then the rest's. */
  function ParamsOf(env: Env, t: Tree, n: nat, k: nat): (r: Result<seq<Param>, Fault>)
    ensures r.Ok? ==> n < |t.nodes|
    ensures r.Ok? && t.nodes[n].children == [] ==> r.value == []
    ensures r.Ok? && t.nodes[n].children != [] ==>
              Child(t, n, k).Ok? && ChildText(t, n, k + 1).Ok? && Child(t, n, -1).Ok? &&
              At(env, Child(t, n, -1).value).paraList.Some? &&
              r.value == [Param(At(env, Child(t, n, k).value).dataType, ChildText(t, n, k + 1).value)] +
                          At(env, Child(t, n, -1).value).paraList.value
  {
    var cs :- Children(t, n);
    if |cs| == 0 then Ok([])
    else
      var c :- Child(t, n, k);
      var x :- ChildText(t, n, k + 1);
      var rest :- Need(At(env, cs[|cs| - 1]).paraList, "para_list");
      Ok([Param(At(env, c).dataType, x)] + rest)
  }

  /** RULE.ParaListRight. */
  function ParaListRightRule(env: Env, t: Tree, n: nat): (r: Check<Env>)
    ensures r.Ok? <==> ParamsOf(env, t, n, 1).Ok?
    ensures r.Ok? ==> OnlyProps(env, r.value, {n}) && At(r.value, n).paraList == Some(ParamsOf(env, t, n, 1).value)
  {
    var ps :- ParamsOf(env, t, n, 1);
    Ok(Put(env, n, At(env, n).(paraList := Some(ps))))
  }

  /** Enters parameters into the enclosing function's table; with no
      parameters the table is not looked at. */
  function BindInto(env: Env, n: nat, ps: seq<Param>): (r: Check<Env>)
    ensures |ps| == 0 ==> r == Ok(env)
    ensures |ps| > 0 && r.Ok? ==>
              && Function(env, n).Some?
              && var f := Function(env, n).value;
                 At(env, f).symbols.Some? && At(r.value, f).symbols == Some(BindParams(At(env, f).symbols.value, ps)) &&
                 OnlyProps(env, r.value, {f}) && At(r.value, f) == At(env, f).(symbols := At(r.value, f).symbols)
  {
    if |ps| == 0 then Ok(env)
    else
      var f :- FunctionNode(env, n, "properties");
      var locals :- Need(At(env, f).symbols, "symbols");
      Ok(Put(env, f, At(env, f).(symbols := Some(BindParams(locals, ps)))))
  }

  /** RULE.ParaList: records the parameters, enters them into the function's
      table and registers the function with their types; a name already
      registered is an error. */
  function ParaListRule(env: Env, t: Tree, n: nat): (r: Check<Env>)
    ensures r.Ok? ==> ParamsOf(env, t, n, 0).Ok? && Function(env, n).Some? && env.functions.Some?
    ensures r.Ok? ==>
              var ps := ParamsOf(env, t, n, 0).value;
              var name := ChildText(t, Function(env, n).value, 1);
              && name.Ok? && name.value !in env.functions.value
              && r.value.functions == Some(env.functions.value[name.value := FnInfo(ParamTypes(ps), None)])
              && At(r.value, n).paraList == Some(ps)
              && r.value.globals == env.globals && r.value.enclosing == env.enclosing
    ensures r.Err? && r.error.RuleError? ==>
              && Function(env, n).Some? && ChildText(t, Function(env, n).value, 1).Ok? && env.functions.Some?
              && ChildText(t, Function(env, n).value, 1).value in env.functions.value
  {
    var ps :- ParamsOf(env, t, n, 0);
    var env1 := Put(env, n, At(env, n).(paraList := Some(ps)));
    var env2 :- BindInto(env1, n, ps);
    assert Function(env2, n) == Function(env, n) && env2.functions == env.functions;
    var f :- FunctionNode(env2, n, "children");
    var name :- ChildText(t, f, 1);
    var fs :- Need(env2.functions, "_functions");
    match Register(fs, name, ps)
    case Err(msg) => Err(RuleError(msg))
    case Ok(fs') =>
      assert At(env2, n).paraList == Some(ps);
      Ok(env2.(functions := Some(fs')))
  }

  // ----- Dispatch -----

  /** The non-terminals `RULE` has a method for. */
  const RuleNames: set<string> :=
    {"Type", "Decl", "Var", "VarCall", "VarCallRight", "ArgListWrapper", "ArgList", "ArgListRight",
     "Oprand", "ParExpr", "Unary", "Term", "TermRight", "Arith", "ArithRight", "Rel", "Equality",
     "Join", "Expr", "Stmt", "ReturnValue", "FunctionBody", "FunctionType", "Function",
     "ParaListRight", "ParaList"}

  /** `hasattr(RULE, node.syntax_item)`. */
  predicate HasRule(item: string)
  {
    item in RuleNames
  }

  /** `getattr(RULE, node.syntax_item)(symbols, node)`. */
  function Apply(env: Env, t: Tree, n: nat): (r: Check<Env>)
    ensures n < |t.nodes| && !HasRule(t.nodes[n].item) ==> r == Ok(env)
    ensures r.Ok? ==> n < |t.nodes| && r.value.enclosing == env.enclosing
    ensures r.Ok? && r.value.globals != env.globals ==> t.nodes[n].item == "Decl" && Function(env, n).None?
    ensures r.Ok? && r.value.functions != env.functions ==> t.nodes[n].item in {"ParaList", "FunctionType", "Function"}
  {
    if n >= |t.nodes| then Err(IndexError)
    else
      match t.nodes[n].item
      case "Type" => TypeRule(env, t, n)
      case "Decl" => DeclRule(env, t, n)
      case "Var" => VarRule(env, t, n)
      case "VarCall" => VarCallRule(env, t, n)
      case "VarCallRight" => VarCallRightRule(env, t, n)
      case "ArgListWrapper" => ArgListWrapperRule(env, t, n)
      case "ArgList" => ArgsRule(env, t, n, 0)
      case "ArgListRight" => ArgsRule(env, t, n, 1)
      case "Oprand" => OprandRule(env, t, n)
      case "ParExpr" => ParExprRule(env, t, n)
      case "Unary" => UnaryRule(env, t, n)
      case "Term" => ChainHeadRule(env, t, n)
      case "TermRight" => ChainRightRule(env, t, n)
      case "Arith" => ChainHeadRule(env, t, n)
      case "ArithRight" => ChainRightRule(env, t, n)
      case "Rel" => SetBoolType(env, t, n)
      case "Equality" => SetBoolType(env, t, n)
      case "Join" => SetBoolType(env, t, n)
      case "Expr" => ExprRule(env, t, n)
      case "Stmt" => StmtRule(env, t, n)
      case "ReturnValue" => ReturnValueRule(env, t, n)
      case "FunctionBody" => FunctionBodyRuleCorrected(env, t, n)
      case "FunctionType" => FunctionTypeRule(env, t, n)
      case "Function" => FunctionRule(env, t, n)
      case "ParaListRight" => ParaListRightRule(env, t, n)
      case "ParaList" => ParaListRule(env, t, n)
      case _ => Ok(env)
  }

  /** The rules as the parser's hook. */
  const Rules: Syntax.Hooks<Env> := Syntax.Hooks(HasRule, Apply)

  /** Every symbol with a rule has an entry in the table. */
  lemma RulesInGrammar(x: string)
    ensures HasRule(x) ==> x in Grammar
  {
  }

  /** Every symbol with a rule is a non-terminal. */
  lemma RulesAreNonTerminals(x: string)
    ensures HasRule(x) ==> Syntax.ItemTypeOf(x, TokenKinds) == Syntax.NonTerminal
  {
  }

  /** The parser run with this table and these rules rejects every input:
      the tree's root symbol `Start` has no entry. An empty input fails
      before the table is consulted. */
  method CheckProgram(code: string, rules: seq<Scanner.TokenRule>, env: Env, fuel: nat)
    returns (r: Result<Syntax.TreeBuilder<Env>, Syntax.ParseError>)
    requires Scanner.MatchersWellBehaved(rules)
    ensures r.Err?
    ensures r.error == Syntax.NoTokens <==> code == []
  {
    StartMissing();
    var scanned, leaves;
    scanned, leaves, r := Syntax.GetSyntaxTree(code, rules, Grammar, Rules, env, fuel);
  }
}
