/** The predictive parser. Pending tree nodes sit on an explicit stack; a
    non-terminal on top expands by the first derivation whose trigger matches
    the token, a nullable one may take the empty derivation, and a terminal
    consumes the token. Completion flags propagate to the parent, and the
    semantic-rule hook fires bottom-up once per node as it completes.

    The tree is an arena: a node is an index into `nodes`, its `children` and
    `parent` are indices, and the root is node 0. The grammar table and the
    rule hooks are parameters; the hooks keep whatever the rules compute
    (node properties, symbol tables) in a state of their own. */
module Syntax {
  import opened Wrappers
  import opened Properties
  import Scanner

  type Token = Scanner.Token

  // ---------------------------------------------------------------------
  // Grammar symbols and the grammar table

  datatype ItemType = NonTerminal | TokenType | Literal

  /** The token kinds named by the scanner's rule table, in order. */
  function Kinds(rules: seq<Scanner.TokenRule>): (kinds: seq<string>)
    ensures |kinds| == |rules|
    ensures forall i :: 0 <= i < |rules| ==> kinds[i] == rules[i].kind
  {
    seq(|rules|, i requires 0 <= i < |rules| => rules[i].kind)
  }

  predicate IsUpper(c: char)
  {
    'A' <= c <= 'Z'
  }

  /** The classification `get_syntax_item_type` computes: a non-terminal
      starts with an upper-case letter; otherwise a symbol naming a token kind
      is a token-type item and anything else a literal string. */
  function ItemTypeOf(item: string, kinds: seq<string>): ItemType
  {
    if |item| > 0 && IsUpper(item[0]) then NonTerminal
    else if item in kinds then TokenType
    else Literal
  }

  /** `get_syntax_item_type`, with its search of the token kinds. */
  method GetSyntaxItemType(item: string, kinds: seq<string>) returns (t: ItemType)
    ensures t == ItemTypeOf(item, kinds)
  {
    if |item| > 0 && IsUpper(item[0]) {
      return NonTerminal;
    }
    var i := 0;
    while i < |kinds|
      invariant i <= |kinds|
      invariant item !in kinds[..i]
    {
      if item == kinds[i] {
        return TokenType;
      }
      i := i + 1;
    }
    return Literal;
  }

  /** One `(first, deriv_tuple)` pair: a trigger and a right-hand side. */
  datatype Derivation = Derivation(first: string, rhs: seq<string>)

  /** One non-terminal's entry: the 'empty' key (`None` when the entry lacks
      it) and its derivations in order. */
  datatype Entry = Entry(empty: Option<bool>, derivations: seq<Derivation>)

  type Grammar = map<string, Entry>

  /** A symbol fits the token when it names the token's kind (a token-type
      symbol) or spells its text (any other). */
  predicate TakesToken(item: string, token: Token, kinds: seq<string>)
  {
    if ItemTypeOf(item, kinds) == TokenType then item == token.kind else item == token.text
  }

  /** A derivation's trigger selects it for the token: 'ANY' always does,
      any other trigger when it fits the token. */
  predicate Triggers(first: string, token: Token, kinds: seq<string>)
  {
    first == "ANY" || TakesToken(first, token, kinds)
  }

  /** The index of the first derivation whose trigger selects the token. */
  function FirstTrigger(derivations: seq<Derivation>, token: Token, kinds: seq<string>): (c: Option<nat>)
    ensures c.Some? ==> c.value < |derivations|
  {
    if derivations == [] then None
    else if Triggers(derivations[0].first, token, kinds) then Some(0)
    else match FirstTrigger(derivations[1..], token, kinds)
      case None => None
      case Some(j) => Some(j + 1)
  }

  /** `FirstTrigger` finds the first selecting derivation, and none exactly
      when no derivation selects the token. */
  lemma {:induction false} FirstTriggerMeaning(derivations: seq<Derivation>, token: Token, kinds: seq<string>)
    ensures var c := FirstTrigger(derivations, token, kinds);
            && (c.Some? ==>
                  && c.value < |derivations|
                  && Triggers(derivations[c.value].first, token, kinds)
                  && forall j :: 0 <= j < c.value ==> !Triggers(derivations[j].first, token, kinds))
            && (c.None? <==> forall j :: 0 <= j < |derivations| ==> !Triggers(derivations[j].first, token, kinds))
  {
    if derivations != [] && !Triggers(derivations[0].first, token, kinds) {
      FirstTriggerMeaning(derivations[1..], token, kinds);
      assert forall j :: 1 <= j < |derivations| ==> derivations[j] == derivations[1..][j - 1];
    }
  }

  /** The expansion loop of `process_token`: the first derivation in table
      order whose trigger selects it, if any. */
  method ChooseDerivation(derivations: seq<Derivation>, token: Token, kinds: seq<string>)
    returns (choice: Option<nat>)
    ensures choice.Some? ==>
              && choice.value < |derivations|
              && Triggers(derivations[choice.value].first, token, kinds)
              && forall j :: 0 <= j < choice.value ==> !Triggers(derivations[j].first, token, kinds)
    ensures choice.None? ==> forall j :: 0 <= j < |derivations| ==> !Triggers(derivations[j].first, token, kinds)
    ensures choice == FirstTrigger(derivations, token, kinds)
  {
    FirstTriggerMeaning(derivations, token, kinds);
    var i := 0;
    while i < |derivations|
      invariant i <= |derivations|
      invariant forall j :: 0 <= j < i ==> !Triggers(derivations[j].first, token, kinds)
    {
      var first := derivations[i].first;
      var expanded := false;
      if first == "ANY" {
        expanded := true;
      } else {
        var t := GetSyntaxItemType(first, kinds);
        if t == TokenType {
          expanded := first == token.kind;
        } else {
          expanded := first == token.text;
        }
      }
      if expanded {
        return Some(i);
      }
      i := i + 1;
    }
    return None;
  }

  // ---------------------------------------------------------------------
  // The arena of tree nodes

  /** A `SyntaxTreeNode`'s structure: its symbol, children, parent and the
      derivation it expanded by. Its token and completion flag live beside the
      arena (`Tree.tokens`, the builder's `done`) and its properties in the
      rule hooks' state. */
  datatype Node = Node(item: string, children: seq<nat>, parent: Option<nat>, deriv: seq<string>)

  function NewNode(item: string, parent: Option<nat>): Node
  {
    Node(item, [], parent, [])
  }

  /** What a semantic rule sees of the tree: the nodes and the tokens matched
      by terminal nodes. */
  datatype Tree = Tree(nodes: seq<Node>, tokens: map<nat, Token>)

  function Parents(ns: seq<Node>): (ps: seq<Option<nat>>)
    ensures |ps| == |ns| && forall i :: 0 <= i < |ns| ==> ps[i] == ns[i].parent
  {
    seq(|ns|, i requires 0 <= i < |ns| => ns[i].parent)
  }

  /** Node a is n or lies on n's chain of parents. */
  ghost predicate IsAncestorOrSelf(ps: seq<Option<nat>>, a: nat, n: nat)
    decreases n
  {
    || a == n
    || (n < |ps| && ps[n].Some? && ps[n].value < n && IsAncestorOrSelf(ps, a, ps[n].value))
  }

  /** The arena is a tree rooted at node 0: every other node has a parent
      with a smaller index that lists it as a child, and every child names
      its parent back. */
  ghost predicate Shape(ns: seq<Node>)
  {
    && |ns| >= 1
    && ns[0].parent == None
    && (forall i :: 0 < i < |ns| ==> ParentLinked(ns, i))
    && (forall i, k :: 0 <= i < |ns| && 0 <= k < |ns[i].children| ==> ChildLinked(ns, i, k))
  }

  /** Node i has a parent before it, which lists i among its children. */
  ghost predicate ParentLinked(ns: seq<Node>, i: nat)
    requires i < |ns|
  {
    ns[i].parent.Some? && ns[i].parent.value < i && i in ns[ns[i].parent.value].children
  }

  /** The k-th child of node i comes after it and names i as its parent. */
  ghost predicate ChildLinked(ns: seq<Node>, i: nat, k: nat)
    requires i < |ns| && k < |ns[i].children|
  {
    i < ns[i].children[k] < |ns| && ns[ns[i].children[k]].parent == Some(i)
  }

  ghost predicate AllChildrenDone(ns: seq<Node>, done: set<nat>, i: nat)
    requires i < |ns|
  {
    forall k :: 0 <= k < |ns[i].children| ==> ns[i].children[k] in done
  }

  /** Processed nodes are nodes of the arena, and their children are processed. */
  ghost predicate Sound(ns: seq<Node>, done: set<nat>)
  {
    && (forall i :: i in done ==> i < |ns|)
    && (forall i :: i in done && i < |ns| ==> AllChildrenDone(ns, done, i))
  }

  /** A node with children, all of them processed, is processed, except
      possibly node p. */
  ghost predicate CompleteExcept(ns: seq<Node>, done: set<nat>, p: int)
  {
    forall i :: 0 <= i < |ns| && i != p && ns[i].children != [] && AllChildrenDone(ns, done, i) ==> i in done
  }

  ghost predicate Complete(ns: seq<Node>, done: set<nat>)
  {
    CompleteExcept(ns, done, -1)
  }

  /** Pending nodes are distinct, not yet expanded, matched or processed. */
  ghost predicate StackFresh(ns: seq<Node>, done: set<nat>, tokens: map<nat, Token>, stack: seq<nat>)
  {
    && (forall j :: 0 <= j < |stack| ==>
          && stack[j] < |ns|
          && ns[stack[j]].children == []
          && ns[stack[j]].deriv == []
          && stack[j] !in done
          && stack[j] !in tokens)
    && (forall j, k :: 0 <= j < k < |stack| ==> stack[j] != stack[k])
  }

  /** Only processed leaves of the arena carry a token. */
  ghost predicate TokensOk(ns: seq<Node>, done: set<nat>, tokens: map<nat, Token>)
  {
    forall i :: i in tokens ==> i < |ns| && i in done && ns[i].children == []
  }

  /** The log of fired rules: each node at most once, each processed and
      with a rule, and every child with a rule fired before its parent. */
  ghost predicate FiredOk(ns: seq<Node>, done: set<nat>, fired: seq<nat>, hasRule: string -> bool)
  {
    && (forall j, k :: 0 <= j < k < |fired| ==> fired[j] != fired[k])
    && (forall k :: 0 <= k < |fired| ==> fired[k] < |ns| && fired[k] in done && hasRule(ns[fired[k]].item))
    && (forall k, j :: 0 <= k < |fired| && fired[k] < |ns| && 0 <= j < |ns[fired[k]].children| ==>
          ChildFiredBefore(ns, fired, hasRule, k, ns[fired[k]].children[j]))
  }

  ghost predicate ChildFiredBefore(ns: seq<Node>, fired: seq<nat>, hasRule: string -> bool, k: nat, c: nat)
    requires k < |fired|
  {
    c < |ns| && hasRule(ns[c].item) ==> c in fired[..k]
  }

  /** Every processed node with a rule has had it fired. */
  ghost predicate NonePending(ns: seq<Node>, done: set<nat>, fired: seq<nat>, hasRule: string -> bool)
  {
    forall i :: i in done && i < |ns| && hasRule(ns[i].item) ==> i in fired
  }

  /** The processed nodes with a rule not yet fired all lie on n's parent chain. */
  ghost predicate PendingOnly(ns: seq<Node>, done: set<nat>, fired: seq<nat>, hasRule: string -> bool, n: nat)
  {
    forall i :: i in done && i < |ns| && hasRule(ns[i].item) && i !in fired ==>
      IsAncestorOrSelf(Parents(ns), i, n)
  }

  lemma {:induction false} AncestorIndex(ps: seq<Option<nat>>, a: nat, n: nat)
    requires IsAncestorOrSelf(ps, a, n)
    ensures a <= n
    decreases n
  {
    if a != n {
      AncestorIndex(ps, a, ps[n].value);
    }
  }

  /** Every node below a processed node is processed. */
  lemma {:induction false} ProcessedDescendant(ns: seq<Node>, done: set<nat>, a: nat, n: nat)
    requires Shape(ns) && Sound(ns, done) && n < |ns|
    requires IsAncestorOrSelf(Parents(ns), a, n) && a in done
    ensures n in done
    decreases n
  {
    if a != n {
      assert ParentLinked(ns, n);
      var p := ns[n].parent.value;
      ProcessedDescendant(ns, done, a, p);
      assert AllChildrenDone(ns, done, p);
      var k :| 0 <= k < |ns[p].children| && ns[p].children[k] == n;
    }
  }

  /** Marking p processed when all its children are keeps the tree sound and
      moves the one possible incompleteness to p's parent. */
  lemma MarkDone(ns: seq<Node>, done: set<nat>, p: nat)
    requires Shape(ns) && Sound(ns, done) && p < |ns| && p !in done
    requires CompleteExcept(ns, done, p) && AllChildrenDone(ns, done, p)
    ensures Sound(ns, done + {p})
    ensures ns[p].parent.Some? ==>
              && ns[p].parent.value !in done
              && CompleteExcept(ns, done + {p}, ns[p].parent.value)
    ensures ns[p].parent.None? ==> Complete(ns, done + {p})
  {
    var done' := done + {p};
    forall i | i in done' && i < |ns| ensures AllChildrenDone(ns, done', i) {
      if i != p {
        assert AllChildrenDone(ns, done, i);
      }
    }
    var q := if ns[p].parent.Some? then ns[p].parent.value else -1;
    if ns[p].parent.Some? {
      assert ParentLinked(ns, p);
      var k :| 0 <= k < |ns[q].children| && ns[q].children[k] == p;
      assert q !in done;
    }
    forall i | 0 <= i < |ns| && i != q && ns[i].children != [] && AllChildrenDone(ns, done', i)
      ensures i in done'
    {
      if i != p {
        forall j | 0 <= j < |ns[i].children| ensures ns[i].children[j] in done {
          assert ChildLinked(ns, i, j);
        }
        assert AllChildrenDone(ns, done, i);
      }
    }
  }

  /** A node above another has children. */
  lemma {:induction false} ProperAncestorHasChildren(ns: seq<Node>, a: nat, n: nat)
    requires Shape(ns) && n < |ns| && IsAncestorOrSelf(Parents(ns), a, n) && a != n
    ensures a < |ns| && ns[a].children != []
    decreases n
  {
    assert ParentLinked(ns, n);
    var p := ns[n].parent.value;
    if a != p {
      ProperAncestorHasChildren(ns, a, p);
    }
  }

  /** Completing node n and its chain keeps the stack of pending leaves
      unprocessed, the tokens on processed leaves and the log of fired rules;
      the rules now pending lie on n's chain. */
  lemma PropagationKeeps(ns: seq<Node>, before: set<nat>, after: set<nat>, tokens: map<nat, Token>,
                         stack: seq<nat>, fired: seq<nat>, hasRule: string -> bool, n: nat)
    requires Shape(ns) && n < |ns| && n !in stack && n in after && before <= after
    requires forall i :: i in after - before ==> IsAncestorOrSelf(Parents(ns), i, n)
    requires StackFresh(ns, before, tokens, stack) && TokensOk(ns, before + {n}, tokens)
    requires FiredOk(ns, before, fired, hasRule) && NonePending(ns, before, fired, hasRule)
    ensures StackFresh(ns, after, tokens, stack) && TokensOk(ns, after, tokens)
    ensures FiredOk(ns, after, fired, hasRule) && PendingOnly(ns, after, fired, hasRule, n)
  {
    forall j | 0 <= j < |stack| ensures stack[j] !in after {
      if stack[j] in after {
        ProperAncestorHasChildren(ns, stack[j], n);
      }
    }
  }

  /** Below an unprocessed node nothing is pending. */
  lemma UndoneNonePending(ns: seq<Node>, done: set<nat>, fired: seq<nat>, hasRule: string -> bool, n: nat)
    requires Shape(ns) && Sound(ns, done) && n < |ns| && n !in done
    requires PendingOnly(ns, done, fired, hasRule, n)
    ensures NonePending(ns, done, fired, hasRule)
  {
    forall i | i in done && i < |ns| && hasRule(ns[i].item) ensures i in fired {
      if i !in fired {
        ProcessedDescendant(ns, done, i, n);
      }
    }
  }

  /** At the root, once its own rule is settled, nothing is pending. */
  lemma RootNonePending(ns: seq<Node>, done: set<nat>, fired: seq<nat>, hasRule: string -> bool, n: nat)
    requires Shape(ns) && n < |ns| && ns[n].parent.None?
    requires PendingOnly(ns, done, fired, hasRule, n) && (n in fired || !hasRule(ns[n].item))
    ensures NonePending(ns, done, fired, hasRule)
  {
    assert !ParentLinked(ns, n);
  }

  /** Moving from n to its parent p keeps the fired nodes off the chain,
      n itself included. */
  lemma ClimbKeepsUnfired(ps: seq<Option<nat>>, fired: seq<nat>, n: nat, p: nat)
    requires n < |ps| && ps[n] == Some(p) && p < n
    requires forall k :: 0 <= k < |fired| ==> fired[k] == n || !IsAncestorOrSelf(ps, fired[k], n)
    ensures forall k :: 0 <= k < |fired| ==> !IsAncestorOrSelf(ps, fired[k], p)
  {
    forall k | 0 <= k < |fired| ensures !IsAncestorOrSelf(ps, fired[k], p) {
      if fired[k] == n && IsAncestorOrSelf(ps, n, p) {
        AncestorIndex(ps, n, p);
      }
    }
  }

  /** After firing n's rule, the pending nodes lie on its parent's chain. */
  lemma FireStep(ns: seq<Node>, done: set<nat>, fired: seq<nat>, hasRule: string -> bool, n: nat)
    requires Shape(ns) && n < |ns| && PendingOnly(ns, done, fired, hasRule, n)
    requires ns[n].parent.Some?
    requires n in fired || !hasRule(ns[n].item)
    ensures PendingOnly(ns, done, fired, hasRule, ns[n].parent.value)
  {
  }

  /** Firing the rule of a processed node n whose pending nodes lie on its
      chain keeps the log well formed: its children with rules have fired. */
  lemma FireKeepsLog(ns: seq<Node>, done: set<nat>, fired: seq<nat>, hasRule: string -> bool, n: nat)
    requires Shape(ns) && Sound(ns, done) && n < |ns| && n in done && hasRule(ns[n].item)
    requires FiredOk(ns, done, fired, hasRule) && PendingOnly(ns, done, fired, hasRule, n)
    requires forall k :: 0 <= k < |fired| ==> !IsAncestorOrSelf(Parents(ns), fired[k], n)
    ensures FiredOk(ns, done, fired + [n], hasRule)
  {
    var fired' := fired + [n];
    assert IsAncestorOrSelf(Parents(ns), n, n);
    assert AllChildrenDone(ns, done, n);
    forall k, j | 0 <= k < |fired'| && fired'[k] < |ns| && 0 <= j < |ns[fired'[k]].children|
      ensures ChildFiredBefore(ns, fired', hasRule, k, ns[fired'[k]].children[j])
    {
      var c := ns[fired'[k]].children[j];
      if k < |fired| {
        assert fired'[..k] == fired[..k];
        assert ChildFiredBefore(ns, fired, hasRule, k, c);
      } else if hasRule(ns[c].item) {
        assert fired'[..k] == fired;
        if c !in fired {
          assert ChildLinked(ns, n, j);
          AncestorIndex(Parents(ns), c, n);
        }
      }
    }
  }

  /** The indices of the nodes an expansion by `rhs` creates, in the order
      they are pushed: one per symbol, the last symbol first. */
  function Pushed(base: nat, m: nat): (ids: seq<nat>)
    ensures |ids| == m && forall j :: 0 <= j < m ==> ids[j] == base + j
  {
    seq(m, j requires 0 <= j < m => base + j)
  }

  /** The children list an expansion leaves: since each new node is inserted
      at the front, child k is the node created for `rhs[k]`, which was
      pushed (m - 1 - k)-th. */
  function ChildIds(base: nat, m: nat): (ids: seq<nat>)
    ensures |ids| == m && forall k :: 0 <= k < m ==> ids[k] == base + m - 1 - k
  {
    seq(m, k requires 0 <= k < m => base + m - 1 - k)
  }

  /** The new nodes of an expansion of n by `rhs`, in creation order. */
  function Spawned(rhs: seq<string>, n: nat): (created: seq<Node>)
    ensures |created| == |rhs|
    ensures forall j :: 0 <= j < |rhs| ==> created[j] == NewNode(rhs[|rhs| - 1 - j], Some(n))
  {
    seq(|rhs|, j requires 0 <= j < |rhs| => NewNode(rhs[|rhs| - 1 - j], Some(n)))
  }

  /** Expanding a fresh node n by `rhs`: the old nodes but n are unchanged,
      n gets the new children, the new nodes are fresh children of n. */
  ghost predicate Expanded(ns: seq<Node>, ns': seq<Node>, n: nat, rhs: seq<string>)
  {
    && n < |ns|
    && ns' == ns[n := ns[n].(children := ChildIds(|ns|, |rhs|), deriv := rhs)] + Spawned(rhs, n)
  }

  /** Child k of an expanded node is the new node for `rhs[k]`. */
  lemma ExpandedChildren(ns: seq<Node>, ns': seq<Node>, n: nat, rhs: seq<string>)
    requires Expanded(ns, ns', n, rhs)
    ensures |ns'[n].children| == |rhs|
    ensures forall k :: 0 <= k < |rhs| ==> ns'[n].children[k] < |ns'| && ns'[ns'[n].children[k]] == NewNode(rhs[k], Some(n))
  {
    forall k | 0 <= k < |rhs| ensures ns'[ns'[n].children[k]] == NewNode(rhs[k], Some(n)) {
      var c := |ns| + |rhs| - 1 - k;
      assert ns'[n].children[k] == c;
      assert ns'[c] == Spawned(rhs, n)[|rhs| - 1 - k];
    }
  }

  /** An expansion keeps the arena a tree. */
  lemma ExpandKeepsShape(ns: seq<Node>, ns': seq<Node>, n: nat, rhs: seq<string>)
    requires Shape(ns) && Expanded(ns, ns', n, rhs) && ns[n].children == []
    ensures Shape(ns')
  {
    var base := |ns|;
    forall i | 0 < i < |ns'| ensures ParentLinked(ns', i) {
      if i < base {
        assert ns'[i].parent == ns[i].parent;
        assert ParentLinked(ns, i);
        var p := ns[i].parent.value;
        assert p != n;
        assert ns'[p] == ns[p];
      } else {
        assert ns'[i].parent == Some(n);
        assert ChildIds(base, |rhs|)[base + |rhs| - 1 - i] == i;
      }
    }
    forall i, k | 0 <= i < |ns'| && 0 <= k < |ns'[i].children| ensures ChildLinked(ns', i, k) {
      if i != n {
        assert ns'[i] == ns[i];
        assert ChildLinked(ns, i, k);
        assert ns'[ns[i].children[k]].parent == ns[ns[i].children[k]].parent;
      }
    }
  }

  /** An expansion keeps the completion flags sound and complete. */
  lemma ExpandKeepsCompletion(ns: seq<Node>, ns': seq<Node>, done: set<nat>, n: nat, rhs: seq<string>)
    requires Sound(ns, done) && Complete(ns, done) && Expanded(ns, ns', n, rhs) && n !in done
    ensures Sound(ns', done) && Complete(ns', done)
  {
    var base := |ns|;
    if |rhs| > 0 {
      assert ns'[n].children[0] !in done;
    }
    forall i | 0 <= i < |ns'| && i != n && ns'[i].children != [] && AllChildrenDone(ns', done, i)
      ensures i in done
    {
      assert ns'[i] == ns[i];
      assert AllChildrenDone(ns, done, i);
    }
    forall i | i in done && i < |ns'| ensures AllChildrenDone(ns', done, i) {
      assert ns'[i] == ns[i];
      assert AllChildrenDone(ns, done, i);
    }
  }

  /** An expansion keeps the pending stack fresh, the tokens on processed
      leaves and the log of fired rules. */
  lemma ExpandKeepsRest(ns: seq<Node>, ns': seq<Node>, done: set<nat>, tokens: map<nat, Token>,
                        stack: seq<nat>, stack': seq<nat>, fired: seq<nat>, hasRule: string -> bool,
                        n: nat, rhs: seq<string>)
    requires Sound(ns, done) && StackFresh(ns, done, tokens, stack)
    requires TokensOk(ns, done, tokens) && FiredOk(ns, done, fired, hasRule) && NonePending(ns, done, fired, hasRule)
    requires Expanded(ns, ns', n, rhs) && n !in stack && n !in done
    requires stack' == stack + Pushed(|ns|, |rhs|)
    ensures StackFresh(ns', done, tokens, stack')
    ensures TokensOk(ns', done, tokens) && FiredOk(ns', done, fired, hasRule) && NonePending(ns', done, fired, hasRule)
  {
    assert forall i :: 0 <= i < |ns| && i != n ==> ns'[i] == ns[i];
    forall k, j | 0 <= k < |fired| && fired[k] < |ns'| && 0 <= j < |ns'[fired[k]].children|
      ensures ChildFiredBefore(ns', fired, hasRule, k, ns'[fired[k]].children[j])
    {
      assert ChildFiredBefore(ns, fired, hasRule, k, ns[fired[k]].children[j]);
    }
  }

  /** No node fired lies on the chain of an unprocessed node. */
  lemma UnfiredChain(ns: seq<Node>, done: set<nat>, fired: seq<nat>, hasRule: string -> bool, n: nat)
    requires Shape(ns) && Sound(ns, done) && FiredOk(ns, done, fired, hasRule) && n < |ns| && n !in done
    ensures forall k :: 0 <= k < |fired| ==> !IsAncestorOrSelf(Parents(ns), fired[k], n)
  {
    forall k | 0 <= k < |fired| ensures !IsAncestorOrSelf(Parents(ns), fired[k], n) {
      if IsAncestorOrSelf(Parents(ns), fired[k], n) {
        ProcessedDescendant(ns, done, fired[k], n);
      }
    }
  }

  /** Popping pending nodes keeps the rest of the stack fresh. */
  lemma PrefixStackFresh(ns: seq<Node>, done: set<nat>, tokens: map<nat, Token>, stack: seq<nat>, stack': seq<nat>)
    requires StackFresh(ns, done, tokens, stack) && stack' <= stack
    ensures StackFresh(ns, done, tokens, stack')
  {
    assert forall j :: 0 <= j < |stack'| ==> stack'[j] == stack[j];
  }

  /** What a rule-hook user supplies: which symbols have a rule, and the rule
      itself, which reads the tree and its own state and answers a `Check`. */
  datatype Hooks<!S> = Hooks(hasRule: string -> bool, rule: (S, Tree, nat) -> Check<S>)

  /** The exceptions `get_syntax_tree` can end with. */
  datatype ParseError =
    | InvalidToken(coor: Scanner.Coor)
    | InvalidSyntax(coor: Scanner.Coor)
    | SyntaxError(coor: Scanner.Coor, msg: string)
    | RuleFault(fault: Fault)
    | MissingKey(key: string)
    | EmptyStack
    | NoTokens
    | OutOfFuel

  /** The errors processing one token can raise, with the coordinates of
      that token where the error carries any. */
  predicate TokenError(e: ParseError, token: Token)
  {
    || e == InvalidSyntax(token.coor)
    || (e.SyntaxError? && e.coor == token.coor)
    || e.RuleFault?
    || e.MissingKey?
    || e == EmptyStack
  }

  /** A symbol the end-of-input unwinding may pop: a non-terminal whose
      entry allows the empty derivation. */
  predicate Nullable(grammar: Grammar, kinds: seq<string>, item: string)
  {
    ItemTypeOf(item, kinds) == NonTerminal && item in grammar && grammar[item].empty == Some(true)
  }

  /** The error the unwinding stops with on a symbol it cannot pop: a
      lookup of a missing entry or 'empty' key, otherwise `InvalidSyntax` at
      the last token. */
  function UnwindError(grammar: Grammar, kinds: seq<string>, item: string, last: Token): ParseError
  {
    if ItemTypeOf(item, kinds) != NonTerminal then InvalidSyntax(last.coor)
    else if item !in grammar then MissingKey(item)
    else if grammar[item].empty.None? then MissingKey("empty")
    else InvalidSyntax(last.coor)
  }

  /** Comments and white space are skipped, not parsed. */
  predicate Skipped(t: Token)
  {
    t.kind == "comment" || t.kind == "space"
  }

  /** The tokens the parser is given, in order. */
  function Significant(toks: seq<Token>): seq<Token>
  {
    if toks == [] then []
    else Significant(toks[..|toks| - 1]) + (if Skipped(toks[|toks| - 1]) then [] else [toks[|toks| - 1]])
  }

  /** The parsed tokens are exactly the ones not skipped, in their order. */
  lemma {:induction false} SignificantMeaning(toks: seq<Token>)
    ensures forall t :: t in Significant(toks) <==> t in toks && !Skipped(t)
    ensures |Significant(toks)| <= |toks|
  {
    if toks != [] {
      var init := toks[..|toks| - 1];
      SignificantMeaning(init);
      assert toks == init + [toks[|toks| - 1]];
    }
  }

  /** How one pass of `process_token` ends: it goes on with the same token,
      the token was taken by a terminal node, or an error stops the parse. */
  datatype Outcome = Again | Took(node: nat) | Stop(error: ParseError)

  /** The state `get_syntax_tree` keeps while it parses: the node arena, the
      tokens of matched nodes, the processed nodes, the stack of pending nodes
      and the rules' state. `fired` logs the nodes whose rule ran, in order. */
  class TreeBuilder<S> {
    const grammar: Grammar
    const kinds: seq<string>
    const hooks: Hooks<S>
    var nodes: seq<Node>
    var tokens: map<nat, Token>
    var done: set<nat>
    var stack: seq<nat>
    var state: S
    ghost var fired: seq<nat>

    ghost predicate Valid()
      reads this
    {
      && Shape(nodes)
      && Sound(nodes, done)
      && Complete(nodes, done)
      && StackFresh(nodes, done, tokens, stack)
      && TokensOk(nodes, done, tokens)
      && FiredOk(nodes, done, fired, hooks.hasRule)
      && NonePending(nodes, done, fired, hooks.hasRule)
    }

    /** The root `'Start'` alone on the stack. */
    constructor (grammar: Grammar, kinds: seq<string>, hooks: Hooks<S>, s0: S)
      ensures Valid()
      ensures this.grammar == grammar && this.kinds == kinds && this.hooks == hooks
      ensures nodes == [NewNode("Start", None)] && stack == [0] && state == s0
      ensures tokens == map[] && done == {} && fired == []
    {
      this.grammar := grammar;
      this.kinds := kinds;
      this.hooks := hooks;
      nodes := [NewNode("Start", None)];
      tokens := map[];
      done := {};
      stack := [0];
      state := s0;
      fired := [];
    }

    function View(): Tree
      reads this
    {
      Tree(nodes, tokens)
    }

    /** The `has_unprocessed` scan of `check_processed`. */
    method HasUnprocessed(p: nat) returns (b: bool)
      requires p < |nodes|
      ensures b <==> !AllChildrenDone(nodes, done, p)
    {
      var k := 0;
      while k < |nodes[p].children|
        invariant k <= |nodes[p].children|
        invariant forall j :: 0 <= j < k ==> nodes[p].children[j] in done
      {
        if nodes[p].children[k] !in done {
          return true;
        }
        k := k + 1;
      }
      return false;
    }

    /** `check_processed`: p becomes processed when none of its children is
        unprocessed, and then asks its parent the same. Nodes only become
        processed, and only on p's parent chain. */
    method CheckProcessed(p: nat)
      requires Shape(nodes) && Sound(nodes, done) && p < |nodes| && p !in done
      requires CompleteExcept(nodes, done, p)
      modifies this`done
      ensures Sound(nodes, done) && Complete(nodes, done)
      ensures old(done) <= done
      ensures forall i :: i in done - old(done) ==> IsAncestorOrSelf(Parents(nodes), i, p)
      decreases p
    {
      var hasUnprocessed := HasUnprocessed(p);
      if hasUnprocessed {
        return;
      }
      MarkDone(nodes, done, p);
      done := done + {p};
      if nodes[p].parent.Some? {
        assert ParentLinked(nodes, p);
        var q := nodes[p].parent.value;
        ghost var marked := done;
        CheckProcessed(q);
        forall i | i in done - old(done) ensures IsAncestorOrSelf(Parents(nodes), i, p) {
          if i != p {
            assert i in done - marked;
          }
        }
      }
    }

    /** `match_token` on a terminal node: a token-type item matches the
        token's kind, a literal its text; a match records the token, marks the
        node processed and lets completion propagate upward. */
    method MatchToken(n: nat, token: Token) returns (ok: bool)
      requires Valid() && n < |nodes| && n !in stack
      requires nodes[n].children == [] && n !in done && n !in tokens
      requires ItemTypeOf(nodes[n].item, kinds) != NonTerminal
      modifies this`done, this`tokens
      ensures ok <==> (if ItemTypeOf(nodes[n].item, kinds) == TokenType
                       then token.kind == nodes[n].item
                       else token.text == nodes[n].item)
      ensures !ok ==> done == old(done) && tokens == old(tokens)
      ensures ok ==> tokens == old(tokens)[n := token] && n in done && old(done) <= done
      ensures ok ==> forall i :: i in done - old(done) ==> IsAncestorOrSelf(Parents(nodes), i, n)
      ensures ok ==> Sound(nodes, done) && Complete(nodes, done) && StackFresh(nodes, done, tokens, stack)
      ensures ok ==> TokensOk(nodes, done, tokens) && FiredOk(nodes, done, fired, hooks.hasRule)
      ensures ok ==> PendingOnly(nodes, done, fired, hooks.hasRule, n)
    {
      var itemType := GetSyntaxItemType(nodes[n].item, kinds);
      if itemType == TokenType {
        ok := token.kind == nodes[n].item;
      } else {
        ok := token.text == nodes[n].item;
      }
      if ok {
        tokens := tokens[n := token];
        SetEmpty(n);
      }
    }

    /** `set_empty`: the node took the empty derivation; it is processed and
        completion propagates upward. */
    method SetEmpty(n: nat)
      requires Shape(nodes) && Sound(nodes, done) && Complete(nodes, done) && StackFresh(nodes, done, tokens, stack)
      requires FiredOk(nodes, done, fired, hooks.hasRule) && NonePending(nodes, done, fired, hooks.hasRule)
      requires n < |nodes| && n !in stack && nodes[n].children == [] && n !in done
      requires TokensOk(nodes, done + {n}, tokens)
      modifies this`done
      ensures n in done && old(done) <= done
      ensures forall i :: i in done - old(done) ==> IsAncestorOrSelf(Parents(nodes), i, n)
      ensures Sound(nodes, done) && Complete(nodes, done) && StackFresh(nodes, done, tokens, stack)
      ensures TokensOk(nodes, done, tokens) && FiredOk(nodes, done, fired, hooks.hasRule)
      ensures PendingOnly(nodes, done, fired, hooks.hasRule, n)
    {
      MarkDone(nodes, done, n);
      done := done + {n};
      if nodes[n].parent.Some? {
        assert ParentLinked(nodes, n);
        CheckProcessed(nodes[n].parent.value);
      }
      PropagationKeeps(nodes, old(done), done, tokens, stack, fired, hooks.hasRule, n);
    }

    /** The body of `set_properties` on a processed node: run its rule, if
        its symbol has one, on the tree and the rules' state. */
    method FireRule(n: nat, token: Token) returns (r: Result<(), ParseError>)
      requires Shape(nodes) && Sound(nodes, done) && n < |nodes| && n in done
      requires FiredOk(nodes, done, fired, hooks.hasRule) && PendingOnly(nodes, done, fired, hooks.hasRule, n)
      requires forall k :: 0 <= k < |fired| ==> !IsAncestorOrSelf(Parents(nodes), fired[k], n)
      modifies this`state, this`fired
      ensures !hooks.hasRule(nodes[n].item) ==> r.Ok? && fired == old(fired) && state == old(state)
      ensures hooks.hasRule(nodes[n].item) ==>
                match hooks.rule(old(state), View(), n)
                case Ok(s) => r.Ok? && state == s && fired == old(fired) + [n]
                case Err(RuleError(msg)) => r == Err(SyntaxError(token.coor, msg))
                case Err(f) => r == Err(RuleFault(f))
      ensures fired == old(fired) || fired == old(fired) + [n]
      ensures r.Ok? ==> FiredOk(nodes, done, fired, hooks.hasRule)
    {
      r := Ok(());
      if hooks.hasRule(nodes[n].item) {
        var check := hooks.rule(state, View(), n);
        if check.Err? {
          var e := if check.error.RuleError? then SyntaxError(token.coor, check.error.msg) else RuleFault(check.error);
          return Err(e);
        }
        FireKeepsLog(nodes, done, fired, hooks.hasRule, n);
        state := check.value;
        fired := fired + [n];
      }
    }

    /** `set_properties`: from n upward while nodes are processed, run each
        node's rule if its symbol has one; a failed check becomes a
        `SyntaxError` at the token being processed. The rules fired are new
        ones on n's chain, and when all succeed none is left pending. */
    method SetProperties(n: nat, token: Token) returns (r: Result<(), ParseError>)
      requires Shape(nodes) && Sound(nodes, done) && n < |nodes|
      requires FiredOk(nodes, done, fired, hooks.hasRule) && PendingOnly(nodes, done, fired, hooks.hasRule, n)
      requires forall k :: 0 <= k < |fired| ==> !IsAncestorOrSelf(Parents(nodes), fired[k], n)
      modifies this`state, this`fired
      ensures old(fired) <= fired
      ensures forall k :: |old(fired)| <= k < |fired| ==> IsAncestorOrSelf(Parents(nodes), fired[k], n)
      ensures r.Ok? ==> FiredOk(nodes, done, fired, hooks.hasRule) && NonePending(nodes, done, fired, hooks.hasRule)
      ensures r.Err? ==> (r.error.SyntaxError? && r.error.coor == token.coor) || r.error.RuleFault?
      decreases n
    {
      if n !in done {
        UndoneNonePending(nodes, done, fired, hooks.hasRule, n);
        return Ok(());
      }
      r := FireRule(n, token);
      if r.Err? {
        return;
      }
      if nodes[n].parent.Some? {
        assert ParentLinked(nodes, n);
        var p := nodes[n].parent.value;
        FireStep(nodes, done, fired, hooks.hasRule, n);
        ClimbKeepsUnfired(Parents(nodes), fired, n, p);
        r := SetProperties(p, token);
      } else {
        RootNonePending(nodes, done, fired, hooks.hasRule, n);
        r := Ok(());
      }
    }

    /** `push_children` followed by recording `deriv_tuple`: the node gets one
        new child per symbol of `rhs`, in order, and the children are pushed
        so that the leftmost one is on top of the stack. */
    method Expand(n: nat, rhs: seq<string>)
      requires Valid() && n < |nodes| && n !in stack
      requires nodes[n].children == [] && n !in done && n !in tokens
      modifies this`nodes, this`stack
      ensures nodes == old(nodes)[n := old(nodes)[n].(children := ChildIds(old(|nodes|), |rhs|), deriv := rhs)]
                       + Spawned(rhs, n)
      ensures stack == old(stack) + Pushed(old(|nodes|), |rhs|)
      ensures forall k :: 0 <= k < |rhs| ==> nodes[nodes[n].children[k]] == NewNode(rhs[k], Some(n))
      ensures |rhs| > 0 ==> stack[|stack| - 1] == nodes[n].children[0]
      ensures Valid()
    {
      ghost var ns := nodes;
      var base := |nodes|;
      var kids: seq<nat> := [];
      var created: seq<Node> := [];
      var pushed: seq<nat> := [];
      var j := 0;
      while j < |rhs|
        invariant j <= |rhs|
        invariant kids == ChildIds(base, j) && created == Spawned(rhs, n)[..j] && pushed == Pushed(base, j)
      {
        var m := base + j;
        kids := [m] + kids;
        created := created + [NewNode(rhs[|rhs| - 1 - j], Some(n))];
        pushed := pushed + [m];
        j := j + 1;
      }
      nodes := nodes[n := nodes[n].(children := kids, deriv := rhs)] + created;
      stack := stack + pushed;
      ExpandedChildren(ns, nodes, n, rhs);
      ExpandKeepsShape(ns, nodes, n, rhs);
      ExpandKeepsCompletion(ns, nodes, done, n, rhs);
      ExpandKeepsRest(ns, nodes, done, tokens, old(stack), stack, fired, hooks.hasRule, n, rhs);
    }

    /** The non-terminal branch of `process_token`: look up the symbol's
        entry, expand by the first selecting derivation, or else take the
        empty derivation when the entry allows it. */
    method Derive(n: nat, token: Token) returns (o: Outcome)
      requires Valid() && n < |nodes| && n !in stack
      requires nodes[n].children == [] && n !in done && n !in tokens
      modifies this`nodes, this`stack, this`done, this`state, this`fired
      ensures var item := old(nodes[n].item);
              item !in grammar ==> o == Stop(MissingKey(item))
      ensures var item := old(nodes[n].item);
              item in grammar && FirstTrigger(grammar[item].derivations, token, kinds).Some? ==>
                var rhs := grammar[item].derivations[FirstTrigger(grammar[item].derivations, token, kinds).value].rhs;
                && o == Again
                && Expanded(old(nodes), nodes, n, rhs)
                && stack == old(stack) + Pushed(old(|nodes|), |rhs|)
      ensures var item := old(nodes[n].item);
              item in grammar && FirstTrigger(grammar[item].derivations, token, kinds).None? ==>
                match grammar[item].empty
                case None => o == Stop(MissingKey("empty"))
                case Some(false) => o == Stop(InvalidSyntax(token.coor))
                case Some(true) => n in done && nodes == old(nodes) && (o.Again? || (o.Stop? && TokenError(o.error, token)))
      ensures o.Again? ==> Valid()
      ensures !o.Took?
      ensures o.Stop? ==> TokenError(o.error, token)
    {
      var item := nodes[n].item;
      if item !in grammar {
        return Stop(MissingKey(item));
      }
      var entry := grammar[item];
      var choice := ChooseDerivation(entry.derivations, token, kinds);
      if choice.Some? {
        Expand(n, entry.derivations[choice.value].rhs);
        return Again;
      }
      if entry.empty.None? {
        return Stop(MissingKey("empty"));
      }
      if !entry.empty.value {
        return Stop(InvalidSyntax(token.coor));
      }
      UnfiredChain(nodes, done, fired, hooks.hasRule, n);
      SetEmpty(n);
      var r := SetProperties(n, token);
      if r.Err? {
        return Stop(r.error);
      }
      return Again;
    }

    /** The terminal branch of `process_token`: the node must match the
        token, and then its completed chain fires its rules. */
    method Match(n: nat, token: Token) returns (o: Outcome)
      requires Valid() && n < |nodes| && n !in stack
      requires nodes[n].children == [] && n !in done && n !in tokens
      requires ItemTypeOf(nodes[n].item, kinds) != NonTerminal
      modifies this`done, this`tokens, this`state, this`fired
      ensures o.Took? ==> Valid() && o.node == n && tokens == old(tokens)[n := token] && n in done
      ensures !o.Again?
      ensures o.Stop? ==> TokenError(o.error, token)
      ensures TakesToken(nodes[n].item, token, kinds) <==> (o.Took? || (o.Stop? && o.error != InvalidSyntax(token.coor)))
    {
      UnfiredChain(nodes, done, fired, hooks.hasRule, n);
      var ok := MatchToken(n, token);
      if !ok {
        return Stop(InvalidSyntax(token.coor));
      }
      var r := SetProperties(n, token);
      if r.Err? {
        return Stop(r.error);
      }
      return Took(n);
    }

    /** One pass of `process_token`: pop the pending node, then derive it
        when it is a non-terminal and match it against the token otherwise. */
    method Step(token: Token) returns (o: Outcome)
      requires Valid()
      modifies this`nodes, this`stack, this`done, this`tokens, this`state, this`fired
      ensures o.Again? ==> Valid() && tokens == old(tokens)
      ensures o.Took? ==> Valid() && o.node !in old(tokens) && tokens == old(tokens)[o.node := token]
      ensures o.Stop? ==> TokenError(o.error, token)
      ensures old(stack) == [] ==> o == Stop(EmptyStack)
      // a token is only ever taken by the popped node, a terminal it fits
      ensures o.Took? ==>
                && old(stack) != [] && o.node == old(stack)[|old(stack)| - 1]
                && o.node < |nodes| && nodes == old(nodes)
                && ItemTypeOf(nodes[o.node].item, kinds) != NonTerminal
                && TakesToken(nodes[o.node].item, token, kinds)
      // a terminal on top is popped and matched: it takes the token exactly when it fits
      ensures old(stack) != [] ==>
                var top := old(stack)[|old(stack)| - 1];
                var item := old(nodes[top].item);
                ItemTypeOf(item, kinds) != NonTerminal ==>
                  && !o.Again? && stack == old(stack)[..|old(stack)| - 1] && nodes == old(nodes)
                  && (TakesToken(item, token, kinds) <==> (o.Took? || (o.Stop? && o.error != InvalidSyntax(token.coor))))
      // a non-terminal on top is popped and derived
      ensures old(stack) != [] ==>
                var top := old(stack)[|old(stack)| - 1];
                var item := old(nodes[top].item);
                ItemTypeOf(item, kinds) == NonTerminal ==>
                  && (item !in grammar ==> o == Stop(MissingKey(item)))
                  && (item in grammar && FirstTrigger(grammar[item].derivations, token, kinds).Some? ==>
                        var rhs := grammar[item].derivations[FirstTrigger(grammar[item].derivations, token, kinds).value].rhs;
                        && o == Again
                        && Expanded(old(nodes), nodes, top, rhs)
                        && stack == old(stack)[..|old(stack)| - 1] + Pushed(old(|nodes|), |rhs|))
                  && (item in grammar && FirstTrigger(grammar[item].derivations, token, kinds).None? ==>
                        match grammar[item].empty
                        case None => o == Stop(MissingKey("empty"))
                        case Some(false) => o == Stop(InvalidSyntax(token.coor))
                        case Some(true) => top in done && nodes == old(nodes) && !o.Took?)
    {
      if stack == [] {
        return Stop(EmptyStack);
      }
      var current := stack[|stack| - 1];
      stack := stack[..|stack| - 1];
      var itemType := GetSyntaxItemType(nodes[current].item, kinds);
      if itemType == NonTerminal {
        o := Derive(current, token);
      } else {
        o := Match(current, token);
      }
    }

    /** `process_token`: passes until a terminal node takes the token or an
        error stops the parse. The recursion of the source is a loop here,
        bounded by `fuel`. */
    method ProcessToken(token: Token, fuel: nat) returns (r: Result<nat, ParseError>)
      requires Valid()
      modifies this`nodes, this`stack, this`done, this`tokens, this`state, this`fired
      ensures r.Ok? ==> Valid() && r.value !in old(tokens) && tokens == old(tokens)[r.value := token]
      ensures r.Ok? ==>
                && r.value < |nodes| && ItemTypeOf(nodes[r.value].item, kinds) != NonTerminal
                && TakesToken(nodes[r.value].item, token, kinds)
      ensures r.Err? ==> TokenError(r.error, token) || r.error == OutOfFuel
      ensures fuel == 0 ==> r == Err(OutOfFuel)
      ensures fuel > 0 && old(stack) != [] ==>
                var item := old(nodes[stack[|stack| - 1]].item);
                ItemTypeOf(item, kinds) == NonTerminal && item !in grammar ==> r == Err(MissingKey(item))
    {
      ghost var missingTop := stack != [] &&
        var item := nodes[stack[|stack| - 1]].item;
        ItemTypeOf(item, kinds) == NonTerminal && item !in grammar;
      var f: nat := fuel;
      while true
        invariant Valid() && tokens == old(tokens) && f <= fuel
        invariant f == fuel ==> stack == old(stack) && nodes == old(nodes)
        invariant f < fuel ==> !missingTop
        decreases f
      {
        if f == 0 {
          return Err(OutOfFuel);
        }
        f := f - 1;
        var o := Step(token);
        match o {
          case Again =>
          case Took(n) => return Ok(n);
          case Stop(e) => return Err(e);
        }
      }
    }

    /** The tokens of `toks` that are parsed went, in order, to the nodes
        `leaves`, and no other node took a token. */
    ghost predicate TookAll(toks: seq<Token>, leaves: seq<nat>)
      reads this
    {
      && |leaves| == |Significant(toks)|
      && (forall j :: 0 <= j < |leaves| ==> leaves[j] in tokens && tokens[leaves[j]] == Significant(toks)[j])
      && (forall x :: x in tokens ==> x in leaves)
    }

    /** The end of `get_syntax_tree`: pop nullable non-terminals off the
        stack; the parse succeeds when the stack empties. */
    method Finish(last: Token) returns (r: Result<(), ParseError>)
      requires Valid()
      modifies this`stack
      ensures Valid()
      ensures stack <= old(stack)
      ensures forall j :: |stack| <= j < |old(stack)| ==> Nullable(grammar, kinds, nodes[old(stack)[j]].item)
      ensures r.Ok? <==> stack == []
      ensures r.Err? ==> r.error.InvalidSyntax? || r.error.MissingKey?
      ensures r.Err? ==>
                && stack != []
                && !Nullable(grammar, kinds, nodes[stack[|stack| - 1]].item)
                && r.error == UnwindError(grammar, kinds, nodes[stack[|stack| - 1]].item, last)
    {
      while stack != []
        invariant stack <= old(stack)
        invariant forall j :: |stack| <= j < |old(stack)| ==> Nullable(grammar, kinds, nodes[old(stack)[j]].item)
        decreases |stack|
      {
        var item := nodes[stack[|stack| - 1]].item;
        var itemType := GetSyntaxItemType(item, kinds);
        if itemType != NonTerminal {
          break;
        }
        if item !in grammar {
          PrefixStackFresh(nodes, done, tokens, old(stack), stack);
          return Err(MissingKey(item));
        }
        var empty := grammar[item].empty;
        if empty.None? {
          PrefixStackFresh(nodes, done, tokens, old(stack), stack);
          return Err(MissingKey("empty"));
        }
        if !empty.value {
          break;
        }
        stack := stack[..|stack| - 1];
      }
      PrefixStackFresh(nodes, done, tokens, old(stack), stack);
      if stack == [] {
        return Ok(());
      }
      return Err(InvalidSyntax(last.coor));
    }

    /** The token loop of `get_syntax_tree`: each token but comments and
        white space goes to `process_token`; `leaves[j]` is the node that
        took the j-th of them. */
    method ParseTokens(toks: seq<Token>, fuel: nat) returns (leaves: seq<nat>, r: Result<(), ParseError>)
      requires Valid() && tokens == map[]
      modifies this`nodes, this`stack, this`done, this`tokens, this`state, this`fired
      ensures r.Ok? ==> Valid() && TookAll(toks, leaves)
      ensures r.Err? ==> toks != [] && (r.error.OutOfFuel? || exists t :: t in toks && TokenError(r.error, t))
      ensures r.Err? ==> r.error != NoTokens && !r.error.InvalidToken?
      ensures old(stack) == [0] && old(nodes) == [NewNode("Start", None)] && "Start" !in grammar ==>
                r.Err? || (stack == [0] && nodes == old(nodes))
    {
      leaves := [];
      var i := 0;
      while i < |toks|
        invariant i <= |toks|
        invariant Valid()
        invariant TookAll(toks[..i], leaves)
        invariant old(stack) == [0] && old(nodes) == [NewNode("Start", None)] && "Start" !in grammar ==>
                    stack == [0] && nodes == old(nodes)
      {
        assert toks[..i + 1] == toks[..i] + [toks[i]];
        if Skipped(toks[i]) {
          i := i + 1;
          continue;
        }
        var taken := ProcessToken(toks[i], fuel);
        if taken.Err? {
          return leaves, Err(taken.error);
        }
        leaves := leaves + [taken.value];
        i := i + 1;
      }
      assert toks[..i] == toks;
      r := Ok(());
    }

    /** `get_syntax_tree` after scanning: parse the tokens the scanner
        yielded, raise its failure if it had one, and unwind the stack at
        the end of the input. */
    method Run(toks: seq<Token>, failure: Option<Scanner.Coor>, fuel: nat) returns (leaves: seq<nat>, r: Result<(), ParseError>)
      requires Valid() && tokens == map[] && stack == [0] && nodes == [NewNode("Start", None)]
      modifies this`nodes, this`stack, this`done, this`tokens, this`state, this`fired
      ensures r.Ok? ==> Valid() && stack == [] && TookAll(toks, leaves)
      ensures r == Err(NoTokens) <==> toks == [] && failure == None
      ensures failure.Some? ==> r.Err?
      ensures r.Err? && r.error.InvalidToken? ==> failure == Some(r.error.coor)
      ensures "Start" !in grammar ==> r.Err?
    {
      var parsed;
      leaves, parsed := ParseTokens(toks, fuel);
      if parsed.Err? {
        return leaves, Err(parsed.error);
      }
      if failure.Some? {
        return leaves, Err(InvalidToken(failure.value));
      }
      if toks == [] {
        return leaves, Err(NoTokens);
      }
      ghost var pending := stack;
      var unwound := Finish(toks[|toks| - 1]);
      if "Start" !in grammar {
        assert pending == [0];
        assert !Nullable(grammar, kinds, nodes[pending[0]].item);
      }
      if unwound.Err? {
        return leaves, Err(unwound.error);
      }
      r := Ok(());
    }
  }

  /** `get_syntax_tree`: scan the code, then parse. A scanning failure
      surfaces when the scanner reaches it, after the tokens before it were
      parsed; code without any token fails as the source does, on the
      unbound `last_token`. */
  method GetSyntaxTree<S>(code: string, rules: seq<Scanner.TokenRule>, grammar: Grammar, hooks: Hooks<S>,
                          s0: S, fuel: nat)
    returns (scanned: seq<Token>, leaves: seq<nat>, r: Result<TreeBuilder<S>, ParseError>)
    requires Scanner.MatchersWellBehaved(rules)
    ensures Scanner.Scanned(rules, code, scanned)
    ensures r.Ok? ==> Scanner.Texts(scanned) == code
    ensures r.Err? && r.error.InvalidToken? ==>
              && Scanner.Texts(scanned) != code
              && r.error.coor == Scanner.Coordinate(Scanner.Split(code), |Scanner.Texts(scanned)|)
    ensures r == Err(NoTokens) <==> code == []
    ensures "Start" !in grammar ==> r.Err?
    ensures r.Ok? ==>
              && r.value.Valid() && r.value.stack == [] && r.value.grammar == grammar && r.value.hooks == hooks
              && r.value.TookAll(scanned, leaves)
  {
    var failure;
    scanned, failure := Scanner.GetTokens(code, rules);
    var b := new TreeBuilder<S>(grammar, Kinds(rules), hooks, s0);
    var outcome;
    leaves, outcome := b.Run(scanned, failure, fuel);
    if outcome.Err? {
      return scanned, leaves, Err(outcome.error);
    }
    r := Ok(b);
  }
}
