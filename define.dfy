/** The older checker of define.py: a `Start -> Block` grammar and rules
    over one flat symbol table, without functions, calls or `void`. Tree
    access and the decisions the two checkers share come from `Definition`;
    the lemmas here say where the older rules agree with the newer ones. */
module Define {
  import opened Wrappers
  import opened Properties
  import Syntax
  import Definition

  type Tree = Syntax.Tree

  /** The checker's state: the one `symbols` table and every node's
      `properties`. */
  datatype State = State(symbols: map<string, DataType>, props: map<nat, Attrs>)

  function At(s: State, n: nat): Attrs
  {
    AttrsOf(s.props, n)
  }

  /** Sets node n's data type, leaving everything else as it was. */
  function Typed(s: State, n: nat, t: DataType): (s': State)
    ensures s'.symbols == s.symbols && At(s', n) == At(s, n).(dataType := t)
    ensures forall k :: k != n ==> At(s', k) == At(s, k)
  {
    s.(props := s.props[n := At(s, n).(dataType := t)])
  }

  /** `SYNTAX`. `Oprand` is the one entry without an `'empty'` key. */
  const Grammar: Syntax.Grammar := map[
    "Start" := Definition.E(false, [Definition.D("ANY", ["Block"])]),
    "Block" := Definition.E(false, [Definition.D("ANY", ["{", "Decls", "Stmts", "}"])]),
    "Decls" := Definition.E(true, [Definition.D("type_key", ["Decl", "Decls"])]),
    "Decl" := Definition.E(false, [Definition.D("ANY", ["Type", "ident", ";"])]),
    "Type" := Definition.E(false, [Definition.D("ANY", ["type_key", "TypeRight"])]),
    "TypeRight" := Definition.E(true, [Definition.D("[", ["[", "integer_value", "]", "TypeRight"])]),
    "Stmts" := Definition.E(true, [Definition.D("ident", ["Stmt", "Stmts"]), Definition.D("cond_key", ["Stmt", "Stmts"]),
                                   Definition.D("{", ["Stmt", "Stmts"])]),
    "Stmt" := Definition.E(false, [Definition.D("ident", ["Assign", ";"]),
                                   Definition.D("if", ["if", "(", "Expr", ")", "Stmt", "Else"]),
                                   Definition.D("while", ["while", "(", "Expr", ")", "Stmt"]),
                                   Definition.D("do", ["do", "Stmt", "while", "(", "Expr", ")", ";"]),
                                   Definition.D("for", ["for", "(", "Assign", ";", "Expr", ";", "Assign", ")", "Stmt"]),
                                   Definition.D("break", ["break", ";"]), Definition.D("{", ["Block"])]),
    "Assign" := Definition.E(false, [Definition.D("ANY", ["Var", "=", "Expr", "AssignRight"])]),
    "AssignRight" := Definition.E(true, [Definition.D("=", ["=", "Expr"])]),
    "Else" := Definition.E(true, [Definition.D("else", ["else", "Stmt"])]),
    "Var" := Definition.E(false, [Definition.D("ANY", ["ident", "VarRight"])]),
    "VarRight" := Definition.E(true, [Definition.D("[", ["[", "Expr", "]", "VarRight"])]),
    "Expr" := Definition.E(false, [Definition.D("ANY", ["Join", "ExprRight"])]),
    "ExprRight" := Definition.E(true, [Definition.D("||", ["||", "Join"])]),
    "Join" := Definition.E(false, [Definition.D("ANY", ["Equality", "JoinRight"])]),
    "JoinRight" := Definition.E(true, [Definition.D("&&", ["&&", "Equality"])]),
    "Equality" := Definition.E(false, [Definition.D("ANY", ["Rel", "EqualityRight"])]),
    "EqualityRight" := Definition.E(true, [Definition.D("==", ["==", "Rel", "EqualityRight"]),
                                           Definition.D("!=", ["!=", "Rel", "EqualityRight"])]),
    "Rel" := Definition.E(false, [Definition.D("ANY", ["Arith", "RelRight"])]),
    "RelRight" := Definition.E(true, [Definition.D("<", ["<", "Arith", "RelRight"]), Definition.D("<=", ["<=", "Arith", "RelRight"]),
                                      Definition.D(">", [">", "Arith", "RelRight"]), Definition.D(">=", [">=", "Arith", "RelRight"])]),
    "Arith" := Definition.E(false, [Definition.D("ANY", ["Term", "ArithRight"])]),
    "ArithRight" := Definition.E(true, [Definition.D("+", ["+", "Term", "ArithRight"]), Definition.D("-", ["-", "Term", "ArithRight"])]),
    "Term" := Definition.E(false, [Definition.D("ANY", ["Unary", "TermRight"])]),
    "TermRight" := Definition.E(true, [Definition.D("*", ["*", "Unary", "TermRight"]), Definition.D("/", ["/", "Unary", "TermRight"])]),
    "Unary" := Definition.E(false, [Definition.D("+", ["+", "Unary"]), Definition.D("-", ["-", "Unary"]),
                                    Definition.D("!", ["!", "Unary"]), Definition.D("(", ["ParExpr"]),
                                    Definition.D("ANY", ["Oprand"])]),
    "ParExpr" := Definition.E(false, [Definition.D("ANY", ["(", "Expr", ")"])]),
    "Oprand" := Syntax.Entry(None, [Definition.D("ident", ["Var"]), Definition.D("integer_value", ["integer_value"]),
                                    Definition.D("double_value", ["double_value"]), Definition.D("bool_value", ["bool_value"])])
  ]

  /** The table starts at `Start -> Block`, the parser's root symbol. */
  lemma StartsWithBlock()
    ensures "Start" in Grammar && Grammar["Start"].derivations == [Definition.D("ANY", ["Block"])]
  {
  }

  /** `Oprand` has no `'empty'` key: a token none of its derivations takes,
      and an `Oprand` left open at the end of the input, both stop the parser
      with a missing key rather than a syntax error. */
  lemma OprandLacksEmpty(token: Syntax.Token, last: Syntax.Token)
    requires token.kind !in {"ident", "integer_value", "double_value", "bool_value"}
    requires token.text !in {"ident", "integer_value", "double_value", "bool_value"}
    ensures Syntax.FirstTrigger(Grammar["Oprand"].derivations, token, Definition.TokenKinds).None?
    ensures Grammar["Oprand"].empty.None?
    ensures Syntax.UnwindError(Grammar, Definition.TokenKinds, "Oprand", last) == Syntax.MissingKey("empty")
  {
    Syntax.FirstTriggerMeaning(Grammar["Oprand"].derivations, token, Definition.TokenKinds);
  }

  // ----- Decisions, compared with the newer checker's -----

  /** The insertion `Decl` makes, with this checker's message. */
  function Declare(table: map<string, DataType>, x: string, t: DataType): (r: Result<map<string, DataType>, string>)
    ensures r.Err? <==> Definition.Bound(table, x)
    ensures r.Ok? ==> r.value == table[x := t]
  {
    if Definition.Bound(table, x) then Err("Identifier " + x + " already defined") else Ok(table[x := t])
  }

  /** Declarations are accepted and refused exactly as the newer checker does
      in its global table, with the same resulting table. */
  lemma DeclareAgrees(table: map<string, DataType>, x: string, t: DataType)
    ensures Declare(table, x, t).Ok? <==> Definition.Declare(table, x, t).Ok?
    ensures Declare(table, x, t).Ok? ==> Declare(table, x, t).value == Definition.Declare(table, x, t).value
  {
    var m := table[x := t];
    if Declare(table, x, t).Ok? {
      assert forall y :: Definition.Get(m, y) == Definition.Get(Definition.Declare(table, x, t).value, y);
    }
  }

  /** `Unary` without the `void` case. */
  function UnaryType(op: string, operand: DataType): (r: Result<DataType, string>)
    ensures op == "!" ==> (r.Ok? <==> operand == Bool)
    ensures op == "Oprand" ==> r == Ok(operand)
    ensures op != "!" && op != "Oprand" ==> r.Ok? && r.value in {Int, Double} && (r.value == Double <==> operand == Double)
  {
    if op == "!" then
      (if operand == Bool then Ok(Bool) else Err("Not Operator: bool oprand required"))
    else if op == "Oprand" then Ok(operand)
    else if operand == Double then Ok(Double)
    else Ok(Int)
  }

  /** On a non-`void` operand the two checkers type a unary expression alike;
      on a `void` one the newer checker stays `void` where this one errs on
      `!` and gives `int` under a sign. */
  lemma UnaryAgrees(op: string, operand: DataType)
    ensures operand != Void ==> UnaryType(op, operand) == Definition.UnaryType(op, operand)
    ensures operand == Void && op == "!" ==> UnaryType(op, operand).Err? && Definition.UnaryType(op, operand) == Ok(Void)
    ensures operand == Void && op != "!" && op != "Oprand" ==> UnaryType(op, operand) == Ok(Int)
  {
  }

  /** `SetNumberType` without the `void` case. */
  function NumberType(item: DataType, right: DataType, hasRight: bool): DataType
  {
    if hasRight then (if item == Double then Double else right)
    else Definition.Promote(item)
  }

  /** The type of an operator chain with these operand types. */
  function ChainType(items: seq<DataType>): DataType
    requires |items| > 0
    decreases |items|
  {
    if |items| == 1 then NumberType(items[0], Unset, false)
    else NumberType(items[0], ChainType(items[1..]), true)
  }

  /** A `double` anywhere makes the chain `double`; otherwise it has the last
      operand's type, `bool` read as `int`. Without `void` operands this is
      the newer checker's type. */
  lemma {:induction false} ChainAgrees(items: seq<DataType>)
    requires |items| > 0
    ensures ChainType(items) == if Double in items then Double else Definition.Promote(items[|items| - 1])
    ensures Void !in items ==> ChainType(items) == Definition.ChainType(items)
    decreases |items|
  {
    Definition.ChainTypeMeaning(items);
    if |items| > 1 {
      ChainAgrees(items[1..]);
      assert items == [items[0]] + items[1..];
      assert items[|items| - 1] == items[1..][|items[1..]| - 1];
    }
  }

  /** `SetBoolType` without the `void` case: `bool` with an operator. */
  function BoolType(item: DataType, hasOperator: bool): (t: DataType)
    ensures hasOperator ==> t == Bool
    ensures !hasOperator ==> t == item
  {
    if hasOperator then Bool else item
  }

  /** Where no side is `void` the two checkers agree; an operator with a
      `void` side is `bool` here and `void` in the newer checker. */
  lemma BoolAgrees(item: DataType, right: Option<DataType>)
    ensures item != Void && (right.None? || right.value != Void) ==> BoolType(item, right.Some?) == Definition.BoolType(item, right)
    ensures right.Some? && (item == Void || right.value == Void) ==> BoolType(item, true) == Bool && Definition.BoolType(item, right) == Void
  {
  }

  // ----- The rules -----

  /** RULE.Type. */
  function TypeRule(s: State, t: Tree, n: nat): (r: Check<State>)
    ensures r.Ok? <==> Definition.ChildText(t, n, 0).Ok?
    ensures r.Ok? ==> r.value == Typed(s, n, FromName(Definition.ChildText(t, n, 0).value)) && At(r.value, n).dataType != Unset
  {
    var name :- Definition.ChildText(t, n, 0);
    Ok(Typed(s, n, FromName(name)))
  }

  /** RULE.Decl: enters the identifier into the one table unless it is
      bound; the node's own properties are not written. */
  function DeclRule(s: State, t: Tree, n: nat): (r: Check<State>)
    ensures r.Ok? ==> Definition.Child(t, n, 0).Ok? && Definition.ChildText(t, n, 1).Ok?
    ensures r.Ok? ==>
              var x := Definition.ChildText(t, n, 1).value;
              !Definition.Bound(s.symbols, x) &&
              r.value == s.(symbols := s.symbols[x := At(s, Definition.Child(t, n, 0).value).dataType])
    ensures Definition.Child(t, n, 0).Ok? && Definition.ChildText(t, n, 1).Ok? ==>
              (r.Err? <==> Definition.Bound(s.symbols, Definition.ChildText(t, n, 1).value))
  {
    var c0 :- Definition.Child(t, n, 0);
    var x :- Definition.ChildText(t, n, 1);
    match Declare(s.symbols, x, At(s, c0).dataType)
    case Err(msg) => Err(RuleError(msg))
    case Ok(table) => Ok(s.(symbols := table))
  }

  /** RULE.Var: the variable's type from the table. */
  function VarRule(s: State, t: Tree, n: nat): (r: Check<State>)
    ensures r.Ok? <==> Definition.ChildText(t, n, 0).Ok? && Definition.Bound(s.symbols, Definition.ChildText(t, n, 0).value)
    ensures r.Ok? ==> r.value == Typed(s, n, s.symbols[Definition.ChildText(t, n, 0).value])
  {
    var x :- Definition.ChildText(t, n, 0);
    match Definition.Resolve(s.symbols, x)
    case Err(msg) => Err(RuleError(msg))
    case Ok(dt) => Ok(Typed(s, n, dt))
  }

  /** RULE.Oprand: a variable passes its type through, a literal has its
      token kind's. */
  function OprandRule(s: State, t: Tree, n: nat): (r: Check<State>)
    ensures r.Ok? ==> Definition.Key(t, n).Ok? && Definition.Child(t, n, 0).Ok?
    ensures r.Ok? && Definition.Key(t, n).value == "Var" ==>
              r.value == Typed(s, n, At(s, Definition.Child(t, n, 0).value).dataType)
    ensures r.Ok? && Definition.Key(t, n).value != "Var" ==>
              && Definition.TokenOf(t, Definition.Child(t, n, 0).value, "token_type").Ok?
              && var kind := Definition.TokenOf(t, Definition.Child(t, n, 0).value, "token_type").value.kind;
                 Definition.LiteralType(kind).Ok? && r.value == Typed(s, n, Definition.LiteralType(kind).value)
  {
    var key :- Definition.Key(t, n);
    var c0 :- Definition.Child(t, n, 0);
    if key == "Var" then Ok(Typed(s, n, At(s, c0).dataType))
    else
      var token :- Definition.TokenOf(t, c0, "token_type");
      var dt :- Definition.LiteralType(token.kind);
      Ok(Typed(s, n, dt))
  }

  /** RULE.ParExpr. */
  function ParExprRule(s: State, t: Tree, n: nat): (r: Check<State>)
    ensures r.Ok? <==> Definition.Child(t, n, 1).Ok?
    ensures r.Ok? ==> r.value == Typed(s, n, At(s, Definition.Child(t, n, 1).value).dataType)
  {
    var c1 :- Definition.Child(t, n, 1);
    Ok(Typed(s, n, At(s, c1).dataType))
  }

  /** RULE.Unary. */
  function UnaryRule(s: State, t: Tree, n: nat): (r: Check<State>)
    ensures r.Ok? ==>
              && Definition.Key(t, n).Ok? && Definition.Child(t, n, -1).Ok?
              && var dt := UnaryType(Definition.Key(t, n).value, At(s, Definition.Child(t, n, -1).value).dataType);
                 dt.Ok? && r.value == Typed(s, n, dt.value)
    ensures Definition.Key(t, n).Ok? && Definition.Child(t, n, -1).Ok? ==>
              (r.Err? <==> UnaryType(Definition.Key(t, n).value, At(s, Definition.Child(t, n, -1).value).dataType).Err?)
  {
    var op :- Definition.Key(t, n);
    var c :- Definition.Child(t, n, -1);
    match UnaryType(op, At(s, c).dataType)
    case Err(msg) => Err(RuleError(msg))
    case Ok(dt) => Ok(Typed(s, n, dt))
  }

  /** `SetNumberType(node, item, right)`. */
  function SetNumberType(s: State, t: Tree, n: nat, item: nat, right: nat): (r: Check<State>)
    ensures r.Ok? <==> right < |t.nodes|
    ensures r.Ok? ==> r.value == Typed(s, n, NumberType(At(s, item).dataType, At(s, right).dataType, t.nodes[right].children != []))
  {
    var rightChildren :- Definition.Children(t, right);
    Ok(Typed(s, n, NumberType(At(s, item).dataType, At(s, right).dataType, |rightChildren| > 0)))
  }

  /** RULE.Term and RULE.Arith. */
  function ChainHeadRule(s: State, t: Tree, n: nat): (r: Check<State>)
    ensures r.Ok? ==> Definition.Child(t, n, 0).Ok? && Definition.Child(t, n, -1).Ok?
    ensures r.Ok? ==> r == SetNumberType(s, t, n, Definition.Child(t, n, 0).value, Definition.Child(t, n, -1).value)
  {
    var item :- Definition.Child(t, n, 0);
    SetNumberType(s, t, n, item, Definition.Last(t.nodes[n].children))
  }

  /** RULE.TermRight and RULE.ArithRight. */
  function ChainRightRule(s: State, t: Tree, n: nat): (r: Check<State>)
    ensures r.Ok? && n < |t.nodes| && t.nodes[n].children == [] ==> r.value == s
    ensures r.Ok? && n < |t.nodes| && t.nodes[n].children != [] ==>
              Definition.Child(t, n, 1).Ok? && Definition.Child(t, n, -1).Ok? &&
              r == SetNumberType(s, t, n, Definition.Child(t, n, 1).value, Definition.Child(t, n, -1).value)
  {
    var cs :- Definition.Children(t, n);
    if |cs| > 0 then
      var item :- Definition.Child(t, n, 1);
      SetNumberType(s, t, n, item, cs[|cs| - 1])
    else Ok(s)
  }

  /** `SetBoolType(node)`, the rule of `Rel`, `Equality`, `Join` and
      `Expr`. */
  function SetBoolType(s: State, t: Tree, n: nat): (r: Check<State>)
    ensures r.Ok? ==> n < |t.nodes|
    ensures r.Ok? && t.nodes[n].children == [] ==> r.value == s
    ensures r.Ok? && t.nodes[n].children != [] ==>
              && |t.nodes[n].children| >= 2 && t.nodes[n].children[1] < |t.nodes|
              && r.value == Typed(s, n, BoolType(At(s, t.nodes[n].children[0]).dataType,
                                                 t.nodes[t.nodes[n].children[1]].children != []))
  {
    var cs :- Definition.Children(t, n);
    if |cs| == 0 then Ok(s)
    else
      var right :- Definition.Child(t, n, 1);
      var rightChildren :- Definition.Children(t, right);
      Ok(Typed(s, n, BoolType(At(s, cs[0]).dataType, |rightChildren| > 0)))
  }

  /** RULE.Stmt: conditions must be `bool` or `int`. */
  function StmtRule(s: State, t: Tree, n: nat): (r: Check<State>)
    ensures r.Ok? ==> r.value == s && Definition.Key(t, n).Ok?
    ensures r.Ok? && Definition.Key(t, n).value in {"if", "while"} ==>
              Definition.Child(t, n, 2).Ok? && Definition.Condition(At(s, Definition.Child(t, n, 2).value).dataType)
    ensures r.Ok? && Definition.Key(t, n).value in {"do", "for"} ==>
              Definition.Child(t, n, 4).Ok? && Definition.Condition(At(s, Definition.Child(t, n, 4).value).dataType)
    ensures r.Err? && r.error.RuleError? ==> r.error.msg == "if: bool expression required"
  {
    var key :- Definition.Key(t, n);
    var k := if key == "if" || key == "while" then 2 else if key == "do" || key == "for" then 4 else 0;
    if k == 0 then Ok(s)
    else
      var c :- Definition.Child(t, n, k);
      if Definition.Condition(At(s, c).dataType) then Ok(s) else Err(RuleError("if: bool expression required"))
  }

  /** The non-terminals this `RULE` has a method for. */
  const RuleNames: set<string> :=
    {"Type", "Decl", "Var", "Oprand", "ParExpr", "Unary", "Term", "TermRight", "Arith", "ArithRight",
     "Rel", "Equality", "Join", "Expr", "Stmt"}

  predicate HasRule(item: string)
  {
    item in RuleNames
  }

  /** `getattr(RULE, node.syntax_item)(symbols, node)`. Only `Decl` changes
      the table, and no rule changes any node's properties but its own. */
  function Apply(s: State, t: Tree, n: nat): (r: Check<State>)
    ensures n < |t.nodes| && !HasRule(t.nodes[n].item) ==> r == Ok(s)
    ensures r.Ok? ==> n < |t.nodes|
    ensures r.Ok? && r.value.symbols != s.symbols ==> t.nodes[n].item == "Decl"
    ensures r.Ok? ==> forall k :: k != n ==> At(r.value, k) == At(s, k)
  {
    if n >= |t.nodes| then Err(IndexError)
    else
      match t.nodes[n].item
      case "Type" => TypeRule(s, t, n)
      case "Decl" => DeclRule(s, t, n)
      case "Var" => VarRule(s, t, n)
      case "Oprand" => OprandRule(s, t, n)
      case "ParExpr" => ParExprRule(s, t, n)
      case "Unary" => UnaryRule(s, t, n)
      case "Term" => ChainHeadRule(s, t, n)
      case "TermRight" => ChainRightRule(s, t, n)
      case "Arith" => ChainHeadRule(s, t, n)
      case "ArithRight" => ChainRightRule(s, t, n)
      case "Rel" => SetBoolType(s, t, n)
      case "Equality" => SetBoolType(s, t, n)
      case "Join" => SetBoolType(s, t, n)
      case "Expr" => SetBoolType(s, t, n)
      case "Stmt" => StmtRule(s, t, n)
      case _ => Ok(s)
  }

  /** The rules as the parser's hook. */
  const Rules: Syntax.Hooks<State> := Syntax.Hooks(HasRule, Apply)
}
