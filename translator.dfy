/** The three-address code generator of translator.py: a post-order walk
    of the checked syntax tree that asks each node's `Produce` rule for its
    code, drawing temporaries from a LIFO pool and labels from a counter. */
module Translator {
  import opened Wrappers
  import opened Properties
  import Decimal
  import Syntax
  import Machine
  import Definition

  // ----- Operands and code lists -----

  /** An identifier in generated code. The source spells temporaries,
      argument slots and the return and result registers as strings with a
      prefix (`TEMP_PREFIX`, `ARG_PREFIX`, `RETVAL`, `GETVAL`, constants that
      machine.py does not define); here each is a constructor of its own,
      so a program's identifier is never taken for one of them. */
  datatype Name = Named(ident: string) | Temp(index: nat) | ArgSlot(slot: nat) | RetVal | GetVal

  /** The value of an immediate: a literal's source text, the int 0, the
      float 0.0 or the bool `False`. */
  datatype Literal = Text(text: string) | IntLit(i: int) | RealZero | BoolLit(b: bool)

  /** An `Argument`: a variable (`'ident'`) or an immediate (`'data'`), with
      its data type. */
  datatype Operand = Ident(dataType: DataType, name: Name) | Data(dataType: DataType, value: Literal)

  /** An argument of `new_inst`: an `Argument`, `None` (the `arg` of a node
      that has none), a data type, an identifier, or a label or function
      name. */
  datatype Arg = Opd(operand: Operand) | NoArg | TypeArg(dataType: DataType) | NameArg(name: Name) | Word(text: string)

  /** An element of a code list: an instruction, a `'break'` or `'continue'`
      marker waiting for its loop, or the code list of one call argument
      (`ArgListRight` returns a list of code lists). */
  datatype Elem = Inst(cmd: string, args: seq<Arg>) | BreakMark | ContinueMark | Group(code: seq<Elem>)

  function ArgOf(a: Option<Operand>): (r: Arg)
    ensures r.NoArg? <==> a.None?
  {
    if a.Some? then Opd(a.value) else NoArg
  }

  /** `DEFAULT_VAL[t]`: the initial value of a variable of type t. */
  function DefaultVal(t: DataType): (r: Result<Operand, Fault>)
    ensures r.Ok? <==> t in {Int, Double, Bool}
    ensures r.Ok? ==> r.value.Data? && r.value.dataType == t
    ensures r.Err? ==> r.error == KeyError(Str(t))
  {
    match t
    case Int => Ok(Data(Int, IntLit(0)))
    case Double => Ok(Data(Double, RealZero))
    case Bool => Ok(Data(Bool, BoolLit(false)))
    case _ => Err(KeyError(Str(t)))
  }

  const Main: string := "main"

  /** `expand_code_list`'s result: the code lists one after the other. */
  function Concat(codes: seq<seq<Elem>>): (r: seq<Elem>)
    ensures |codes| == 1 ==> r == codes[0]
    decreases |codes|
  {
    if |codes| == 0 then [] else Concat(codes[..|codes| - 1]) + codes[|codes| - 1]
  }

  lemma {:induction false} ConcatAppend(a: seq<seq<Elem>>, b: seq<seq<Elem>>)
    ensures Concat(a + b) == Concat(a) + Concat(b)
    decreases |b|
  {
    if |b| == 0 {
      assert a + b == a;
    } else {
      var init := b[..|b| - 1];
      assert (a + b)[..|a + b| - 1] == a + init;
      ConcatAppend(a, init);
      calc {
        Concat(a + b);
        Concat(a + init) + b[|b| - 1];
        Concat(a) + Concat(init) + b[|b| - 1];
        Concat(a) + Concat(b);
      }
    }
  }

  // ----- Labels -----

  /** `LABEL_PREFIX + str(i)`. */
  function Label(i: nat): string
  {
    "L" + Decimal.NatStr(i)
  }

  /** The number a label was made from, read back from its text. */
  function LabelNumber(l: string): Option<nat>
  {
    if |l| > 0 && l[0] == 'L' then Decimal.ParseDigits(l[1..]) else None
  }

  lemma LabelRoundTrip(i: nat)
    ensures LabelNumber(Label(i)) == Some(i)
  {
    assert Label(i)[1..] == Decimal.NatStr(i);
    Decimal.ParsePrinted(i);
  }

  // ----- The temporary and label allocator -----

  /** The allocator's state: `max_ident_index`, `max_label_index`,
      `released_idents_list` (a stack, top last) and the keys of
      `released_idents`. */
  datatype Pool = Pool(maxIdent: int, maxLabel: int, list: seq<Name>, released: set<Name>)

  /** The state `translate` starts from. */
  const FreshPool: Pool := Pool(-1, -1, [], {})

  ghost predicate NoDup<T>(s: seq<T>)
  {
    forall i, j :: 0 <= i < j < |s| ==> s[i] != s[j]
  }

  /** The stack and the dictionary hold the same temporaries, each once,
      and the counters have not gone below their start. */
  ghost predicate PoolOk(p: Pool)
  {
    && p.maxIdent >= -1
    && p.maxLabel >= -1
    && NoDup(p.list)
    && (forall x :: x in p.released <==> x in p.list)
    && (forall i :: 0 <= i < |p.list| ==> p.list[i].Temp?)
  }

  lemma FreshPoolOk()
    ensures PoolOk(FreshPool)
  {
  }

  /** `get_label`. */
  function NextLabel(p: Pool): (r: (string, Pool))
    requires p.maxLabel >= -1
    ensures r.1 == p.(maxLabel := p.maxLabel + 1)
  {
    (Label(p.maxLabel + 1), p.(maxLabel := p.maxLabel + 1))
  }

  /** A label differs from every label handed out before it. */
  lemma LabelsNeverRepeat(p: Pool, i: nat)
    requires p.maxLabel >= -1 && i <= p.maxLabel
    ensures NextLabel(p).0 != Label(i)
  {
    LabelRoundTrip(i);
    LabelRoundTrip(p.maxLabel + 1);
  }

  /** `get_ident`: the temporary released last, if any, else a new one. */
  function TakeIdent(p: Pool): (r: (Name, Pool))
    requires p.maxIdent >= -1
    ensures PoolOk(p) ==> r.0.Temp?
    ensures r.1.maxLabel == p.maxLabel
    ensures |p.list| > 0 ==> r.0 == p.list[|p.list| - 1] && r.1.list == p.list[..|p.list| - 1] && r.1.maxIdent == p.maxIdent
    ensures |p.list| == 0 ==> r.0 == Temp(p.maxIdent + 1) && r.1.maxIdent == p.maxIdent + 1 && r.1.list == []
    ensures r.1.released == p.released - {r.0} || r.1.released == p.released
  {
    if |p.list| > 0 then
      var x := p.list[|p.list| - 1];
      (x, p.(list := p.list[..|p.list| - 1], released := p.released - {x}))
    else
      (Temp(p.maxIdent + 1), p.(maxIdent := p.maxIdent + 1))
  }

  /** `release_ident`: a temporary goes on the stack unless it is there. */
  function Release(p: Pool, x: Name): (r: Pool)
    ensures r.released == p.released + {x}
    ensures x in p.released ==> r == p
    ensures x !in p.released ==> r == p.(list := p.list + [x], released := p.released + {x})
  {
    if x in p.released then p else p.(list := p.list + [x], released := p.released + {x})
  }

  /** `cancel_released_ident`: takes x back off the stack if it is on top. */
  function Cancel(p: Pool, x: Name): (r: Pool)
    ensures r.maxIdent == p.maxIdent && r.maxLabel == p.maxLabel
    ensures |p.list| > 0 && p.list[|p.list| - 1] == x ==> r.list == p.list[..|p.list| - 1] && r.released == p.released - {x}
    ensures !(|p.list| > 0 && p.list[|p.list| - 1] == x) ==> r == p
  {
    if |p.list| > 0 && p.list[|p.list| - 1] == x then
      p.(list := p.list[..|p.list| - 1], released := p.released - {x})
    else p
  }

  /** The allocator's operations keep the stack and the dictionary in step. */
  lemma PoolOkKept(p: Pool, x: Name)
    requires PoolOk(p)
    ensures PoolOk(TakeIdent(p).1)
    ensures x.Temp? ==> PoolOk(Release(p, x))
    ensures PoolOk(Cancel(p, x))
  {
    var l := p.list;
    if |l| > 0 {
      var y := l[|l| - 1];
      forall i | 0 <= i < |l| - 1
        ensures l[i] != y
      {
      }
    }
  }

  /** A temporary handed out is no longer among the released ones. */
  lemma TakenNotReleased(p: Pool)
    requires PoolOk(p)
    ensures TakeIdent(p).0 !in TakeIdent(p).1.released
  {
  }

  /** Last released, first reused: taking right after releasing a temporary
      that was not released hands it back and restores the pool. */
  lemma ReleaseThenTake(p: Pool, x: Name)
    requires PoolOk(p) && x.Temp? && x !in p.released
    ensures TakeIdent(Release(p, x)) == (x, p)
  {
    assert (p.list + [x])[..|p.list|] == p.list;
    assert p.released + {x} - {x} == p.released;
  }

  /** Cancelling a release that was just made restores the pool. */
  lemma CancelUndoesRelease(p: Pool, x: Name)
    requires PoolOk(p) && x !in p.released
    ensures Cancel(Release(p, x), x) == p
  {
    assert (p.list + [x])[..|p.list|] == p.list;
    assert p.released + {x} - {x} == p.released;
  }

  // ----- What new_inst releases -----

  /** Commands whose first argument is a destination `new_inst` does not
      release: `['mov', 'override', *CALCULATION]`. */
  const Exempt: set<string> := {"mov", "override"} + Machine.Calculations

  predicate IsTemp(a: Arg)
  {
    a.Opd? && a.operand.Ident? && a.operand.name.Temp?
  }

  /** The temporaries named by args, in order. */
  function TempsOf(args: seq<Arg>): (r: seq<Name>)
    ensures forall i :: 0 <= i < |r| ==> r[i].Temp?
    decreases |args|
  {
    if |args| == 0 then []
    else
      var last := args[|args| - 1];
      TempsOf(args[..|args| - 1]) + (if IsTemp(last) then [last.operand.name] else [])
  }

  /** The temporaries `new_inst(cmd, *args)` releases, in order. */
  function ReleasedBy(cmd: string, args: seq<Arg>): (r: seq<Name>)
    ensures forall i :: 0 <= i < |r| ==> r[i].Temp?
  {
    if |args| > 0 && cmd in Exempt then TempsOf(args[1..]) else TempsOf(args)
  }

  lemma {:induction false} TempsOfMeaning(args: seq<Arg>, x: Name)
    ensures x in TempsOf(args) <==> exists k :: 0 <= k < |args| && IsTemp(args[k]) && args[k].operand.name == x
    decreases |args|
  {
    if |args| > 0 {
      var init := args[..|args| - 1];
      TempsOfMeaning(init, x);
      if x in TempsOf(init) {
        var k :| 0 <= k < |init| && IsTemp(init[k]) && init[k].operand.name == x;
        assert args[k] == init[k];
      }
      if exists k :: 0 <= k < |args| && IsTemp(args[k]) && args[k].operand.name == x {
        var k :| 0 <= k < |args| && IsTemp(args[k]) && args[k].operand.name == x;
        if k < |init| {
          assert init[k] == args[k];
        }
      }
    }
  }

  /** `new_inst` releases exactly the temporaries among its arguments,
      leaving out the destination of `mov`, `override` and the calculations. */
  lemma ReleasedByMeaning(cmd: string, args: seq<Arg>, x: Name)
    ensures x in ReleasedBy(cmd, args) <==>
              exists k :: 0 <= k < |args| && (k > 0 || cmd !in Exempt) && IsTemp(args[k]) && args[k].operand.name == x
  {
    if |args| > 0 && cmd in Exempt {
      var rest := args[1..];
      TempsOfMeaning(rest, x);
      if x in TempsOf(rest) {
        var k :| 0 <= k < |rest| && IsTemp(rest[k]) && rest[k].operand.name == x;
        assert args[k + 1] == rest[k];
      }
      if exists k :: 0 <= k < |args| && (k > 0 || cmd !in Exempt) && IsTemp(args[k]) && args[k].operand.name == x {
        var k :| 0 <= k < |args| && (k > 0 || cmd !in Exempt) && IsTemp(args[k]) && args[k].operand.name == x;
        assert rest[k - 1] == args[k];
      }
    } else {
      TempsOfMeaning(args, x);
    }
  }

  /** The pool after releasing xs one after the other. */
  function ReleaseAll(p: Pool, xs: seq<Name>): (r: Pool)
    ensures r.maxIdent == p.maxIdent && r.maxLabel == p.maxLabel
    decreases |xs|
  {
    if |xs| == 0 then p else Release(ReleaseAll(p, xs[..|xs| - 1]), xs[|xs| - 1])
  }

  lemma {:induction false} ReleaseAllOk(p: Pool, xs: seq<Name>)
    requires PoolOk(p) && forall i :: 0 <= i < |xs| ==> xs[i].Temp?
    ensures PoolOk(ReleaseAll(p, xs))
    decreases |xs|
  {
    if |xs| > 0 {
      ReleaseAllOk(p, xs[..|xs| - 1]);
      PoolOkKept(ReleaseAll(p, xs[..|xs| - 1]), xs[|xs| - 1]);
    }
  }

  /** Arguments without temporaries name none. */
  lemma {:induction false} NoTempsOf(args: seq<Arg>)
    requires forall i :: 0 <= i < |args| ==> !IsTemp(args[i])
    ensures TempsOf(args) == []
    decreases |args|
  {
    if |args| > 0 {
      NoTempsOf(args[..|args| - 1]);
    }
  }

  /** An instruction without temporaries among its arguments leaves the
      pool as it was. */
  lemma NothingReleased(p: Pool, cmd: string, args: seq<Arg>)
    requires forall i :: 0 <= i < |args| ==> !IsTemp(args[i])
    ensures ReleaseAll(p, ReleasedBy(cmd, args)) == p
  {
    NoTempsOf(args);
    if |args| > 0 {
      NoTempsOf(args[1..]);
    }
  }

  // ----- Patching break and continue -----

  /** A marker becomes a jump to its loop's head or tail label; anything
      else is kept. */
  function Patch(e: Elem, continueLabel: string, breakLabel: string): (r: Elem)
    ensures r != BreakMark && r != ContinueMark
    ensures e != BreakMark && e != ContinueMark ==> r == e
    ensures e == BreakMark ==> r == Inst("goto", [Word(breakLabel)])
    ensures e == ContinueMark ==> r == Inst("goto", [Word(continueLabel)])
  {
    if e == ContinueMark then Inst("goto", [Word(continueLabel)])
    else if e == BreakMark then Inst("goto", [Word(breakLabel)])
    else e
  }

  /** The body code after `enable_jump`. */
  function Patched(code: seq<Elem>, continueLabel: string, breakLabel: string): (r: seq<Elem>)
    ensures |r| == |code|
    ensures forall i :: 0 <= i < |code| ==> r[i] == Patch(code[i], continueLabel, breakLabel)
  {
    seq(|code|, i requires 0 <= i < |code| => Patch(code[i], continueLabel, breakLabel))
  }

  predicate NoMarkers(code: seq<Elem>)
  {
    forall i :: 0 <= i < |code| ==> code[i] != BreakMark && code[i] != ContinueMark
  }

  /** A loop leaves no marker for an enclosing loop: the innermost loop
      around a `break` or `continue` is the one it jumps for, and patching
      again changes nothing. */
  lemma InnermostLoopWins(code: seq<Elem>, c1: string, b1: string, c2: string, b2: string)
    ensures NoMarkers(Patched(code, c1, b1))
    ensures Patched(Patched(code, c1, b1), c2, b2) == Patched(code, c1, b1)
  {
  }

  // ----- Label definitions in code -----

  /** The labels the `label` instructions of a code list define, in order,
      looking into argument code lists. */
  function LabelDefs(code: seq<Elem>): seq<string>
    decreases code
  {
    if |code| == 0 then [] else LabelDefs(code[..|code| - 1]) + ElemDefs(code[|code| - 1])
  }

  function ElemDefs(e: Elem): seq<string>
    decreases e
  {
    match e
    case Inst(cmd, args) => if cmd == "label" && |args| > 0 && args[0].Word? then [args[0].text] else []
    case Group(c) => LabelDefs(c)
    case _ => []
  }

  lemma {:induction false} LabelDefsAppend(a: seq<Elem>, b: seq<Elem>)
    ensures LabelDefs(a + b) == LabelDefs(a) + LabelDefs(b)
    decreases |b|
  {
    if |b| == 0 {
      assert a + b == a;
    } else {
      var init := b[..|b| - 1];
      assert (a + b)[..|a + b| - 1] == a + init;
      assert (a + b)[|a + b| - 1] == b[|b| - 1];
      LabelDefsAppend(a, init);
    }
  }

  lemma {:induction false} LabelDefsPatched(code: seq<Elem>, c: string, b: string)
    ensures LabelDefs(Patched(code, c, b)) == LabelDefs(code)
    decreases |code|
  {
    if |code| > 0 {
      assert Patched(code, c, b)[..|code| - 1] == Patched(code[..|code| - 1], c, b);
      LabelDefsPatched(code[..|code| - 1], c, b);
    }
  }

  /** The numbers from lo + 1 to hi. */
  function Range(lo: int, hi: int): (r: set<int>)
    ensures forall i :: i in r <==> lo < i <= hi
    decreases hi - lo
  {
    if hi <= lo then {} else Range(lo, hi - 1) + {hi}
  }

  /** The labels code defines are distinct and were made from numbers in s. */
  ghost predicate Within(code: seq<Elem>, s: set<int>)
  {
    var defs := LabelDefs(code);
    && NoDup(defs)
    && forall i :: 0 <= i < |defs| ==> LabelNumber(defs[i]).Some? && LabelNumber(defs[i]).value in s
  }

  /** Labels numbered from disjoint sets, each list without repeats, join
      without repeats. */
  lemma NumberedJoin(da: seq<string>, db: seq<string>, s: set<int>, t: set<int>)
    requires NoDup(da) && NoDup(db) && s !! t
    requires forall i :: 0 <= i < |da| ==> LabelNumber(da[i]).Some? && LabelNumber(da[i]).value in s
    requires forall i :: 0 <= i < |db| ==> LabelNumber(db[i]).Some? && LabelNumber(db[i]).value in t
    ensures NoDup(da + db)
    ensures forall i :: 0 <= i < |da + db| ==> LabelNumber((da + db)[i]).Some? && LabelNumber((da + db)[i]).value in s + t
  {
    var d := da + db;
    forall i, j | 0 <= i < j < |d|
      ensures d[i] != d[j]
    {
      if j < |da| {
        assert d[i] == da[i] && d[j] == da[j];
      } else if i >= |da| {
        assert d[i] == db[i - |da|] && d[j] == db[j - |da|];
      } else {
        assert d[i] == da[i] && d[j] == db[j - |da|];
        assert LabelNumber(da[i]).value in s;
        assert LabelNumber(db[j - |da|]).value in t;
      }
    }
  }

  lemma WithinJoin(a: seq<Elem>, b: seq<Elem>, s: set<int>, t: set<int>)
    requires Within(a, s) && Within(b, t) && s !! t
    ensures Within(a + b, s + t)
  {
    LabelDefsAppend(a, b);
    NumberedJoin(LabelDefs(a), LabelDefs(b), s, t);
  }

  lemma WithinWiden(a: seq<Elem>, s: set<int>, t: set<int>)
    requires Within(a, s) && s <= t
    ensures Within(a, t)
  {
  }

  /** A single `label` instruction for label number i. */
  lemma WithinLabel(i: nat)
    ensures Within([Inst("label", [Word(Label(i))])], {i})
  {
    LabelRoundTrip(i);
    assert LabelDefs([Inst("label", [Word(Label(i))])]) == [Label(i)];
  }

  /** Code lists staged one after the other: the k-th defines distinct labels
      numbered from bounds[k] + 1 to bounds[k + 1], and the bounds do not
      decrease. */
  ghost predicate Staged(codes: seq<seq<Elem>>, bounds: seq<int>)
  {
    && |bounds| == |codes| + 1
    && (forall j, k :: 0 <= j <= k < |bounds| ==> bounds[j] <= bounds[k])
    && (forall j :: 0 <= j < |codes| ==> Within(codes[j], Range(bounds[j], bounds[j + 1])))
  }

  lemma {:induction false} StagedConcat(codes: seq<seq<Elem>>, bounds: seq<int>)
    requires Staged(codes, bounds)
    ensures Within(Concat(codes), Range(bounds[0], bounds[|codes|]))
    decreases |codes|
  {
    var m := |codes|;
    if m > 0 {
      StagedConcat(codes[..m - 1], bounds[..m]);
      WithinJoin(Concat(codes[..m - 1]), codes[m - 1], Range(bounds[0], bounds[m - 1]), Range(bounds[m - 1], bounds[m]));
      assert Range(bounds[0], bounds[m - 1]) + Range(bounds[m - 1], bounds[m]) == Range(bounds[0], bounds[m]);
    }
  }

  // ----- Code lists built in place -----

  /** `expand_code_list`. */
  method ExpandCodeList(codes: seq<seq<Elem>>) returns (result: seq<Elem>)
    ensures result == Concat(codes)
  {
    result := [];
    for i := 0 to |codes|
      invariant result == Concat(codes[..i])
    {
      assert codes[..i + 1][..i] == codes[..i];
      result := result + codes[i];
    }
    assert codes[..|codes|] == codes;
  }

  /** `enable_jump`: each marker of a loop body becomes a `goto` to the
      loop's head (`continue`) or tail (`break`) label, in place. */
  method EnableJump(code: array<Elem>, continueLabel: string, breakLabel: string)
    modifies code
    ensures code[..] == Patched(old(code[..]), continueLabel, breakLabel)
  {
    for i := 0 to code.Length
      invariant forall j :: 0 <= j < i ==> code[j] == Patch(old(code[j]), continueLabel, breakLabel)
      invariant forall j :: i <= j < code.Length ==> code[j] == old(code[j])
    {
      if code[i] == ContinueMark {
        code[i] := Inst("goto", [Word(continueLabel)]);
      } else if code[i] == BreakMark {
        code[i] := Inst("goto", [Word(breakLabel)]);
      }
    }
  }

  /** `enable_jump` on a statement's code list, which only the loop being
      translated refers to: the list is copied into an array, patched in
      place, and read back. */
  method PatchCode(code: seq<Elem>, continueLabel: string, breakLabel: string) returns (r: seq<Elem>)
    ensures r == Patched(code, continueLabel, breakLabel)
  {
    var a := new Elem[|code|](i requires 0 <= i < |code| => code[i]);
    assert a[..] == code;
    EnableJump(a, continueLabel, breakLabel);
    r := a[..];
  }

  /** Code with no `label` instruction and no argument code list. */
  predicate Plain(code: seq<Elem>)
  {
    forall i :: 0 <= i < |code| ==> code[i].Inst? && code[i].cmd != "label"
  }

  lemma {:induction false} PlainDefinesNothing(code: seq<Elem>)
    requires Plain(code)
    ensures LabelDefs(code) == []
    decreases |code|
  {
    if |code| > 0 {
      PlainDefinesNothing(code[..|code| - 1]);
    }
  }

  /** Plain instructions around a code list define no label of their own. */
  lemma WithinPlain(head: seq<Elem>, code: seq<Elem>, tail: seq<Elem>, s: set<int>)
    requires Plain(head) && Plain(tail) && Within(code, s)
    ensures Within(head + code + tail, s)
  {
    PlainDefinesNothing(head);
    PlainDefinesNothing(tail);
    LabelDefsAppend(head, code);
    LabelDefsAppend(head + code, tail);
  }

  /** Plain code keeps to any labels. */
  lemma PlainWithin(code: seq<Elem>, s: set<int>)
    requires Plain(code)
    ensures Within(code, s)
  {
    PlainDefinesNothing(code);
  }

  /** One child's code between plain instructions keeps to the labels of
      all the children. */
  lemma PartWithin(codes: seq<seq<Elem>>, bounds: seq<int>, k: nat, head: seq<Elem>, tail: seq<Elem>)
    requires Staged(codes, bounds) && k < |codes| && Plain(head) && Plain(tail)
    ensures Within(head + codes[k] + tail, Range(bounds[0], bounds[|codes|]))
  {
    StagedPart(codes, bounds, k);
    WithinPlain(head, codes[k], tail, Range(bounds[0], bounds[|codes|]));
  }

  /** Every part of staged code lists keeps to the labels of the whole. */
  lemma StagedPart(codes: seq<seq<Elem>>, bounds: seq<int>, k: nat)
    requires Staged(codes, bounds) && k < |codes|
    ensures Within(codes[k], Range(bounds[0], bounds[|codes|]))
  {
    WithinWiden(codes[k], Range(bounds[k], bounds[k + 1]), Range(bounds[0], bounds[|codes|]));
  }

  lemma ProgramWithin(codes: seq<seq<Elem>>, bounds: seq<int>)
    requires Staged(codes, bounds)
    ensures Within(ProgramCode(codes), Range(bounds[0], bounds[|codes|]))
  {
    StagedConcat(codes, bounds);
    WithinPlain([], Concat(codes), [Inst("start", []), Inst("call", [Word(Main)])], Range(bounds[0], bounds[|codes|]));
    assert [] + Concat(codes) + [Inst("start", []), Inst("call", [Word(Main)])] == ProgramCode(codes);
  }

  /** The code `Produce.Program` returns. */
  function ProgramCode(codes: seq<seq<Elem>>): (r: seq<Elem>)
    ensures |r| >= 2 && r[|r| - 2] == Inst("start", []) && r[|r| - 1] == Inst("call", [Word(Main)])
    ensures r[..|r| - 2] == Concat(codes)
  {
    Concat(codes) + [Inst("start", []), Inst("call", [Word(Main)])]
  }

  // ----- Functions -----

  /** The `alloc` and `mov` a parameter gets: a variable of its type, set
      from the argument slot of its position. */
  function ParamPair(ps: seq<Param>, i: nat): (r: Result<seq<Elem>, Fault>)
    requires i < |ps|
  {
    var d :- DefaultVal(ps[i].dataType);
    Ok([Inst("alloc", [TypeArg(ps[i].dataType), NameArg(Named(ps[i].ident)), Opd(d)]),
        Inst("mov", [Opd(Ident(ps[i].dataType, Named(ps[i].ident))), Opd(Ident(ps[i].dataType, ArgSlot(i)))])])
  }

  /** The parameter code for the parameters from position lo on, the last
      parameter first, as `Produce.Function`'s loop builds it. */
  function ParamCode(ps: seq<Param>, lo: nat): (r: Result<seq<Elem>, Fault>)
    decreases |ps| - lo
  {
    if lo >= |ps| then Ok([])
    else
      var rest :- ParamCode(ps, lo + 1);
      var pair :- ParamPair(ps, lo);
      Ok(rest + pair)
  }

  /** The parameter code succeeds exactly when every parameter's type has a
      default value; then parameter i is allocated and set from argument
      slot i at positions counted from the end of the list. */
  lemma {:induction false} ParamCodeLayout(ps: seq<Param>, lo: nat)
    requires lo <= |ps|
    ensures ParamCode(ps, lo).Ok? <==> forall i :: lo <= i < |ps| ==> ps[i].dataType in {Int, Double, Bool}
    ensures ParamCode(ps, lo).Ok? ==>
              var c := ParamCode(ps, lo).value;
              && |c| == 2 * (|ps| - lo)
              && forall i :: lo <= i < |ps| ==>
                   && c[2 * (|ps| - 1 - i)] == Inst("alloc", [TypeArg(ps[i].dataType), NameArg(Named(ps[i].ident)), Opd(DefaultVal(ps[i].dataType).value)])
                   && c[2 * (|ps| - 1 - i) + 1] == Inst("mov", [Opd(Ident(ps[i].dataType, Named(ps[i].ident))), Opd(Ident(ps[i].dataType, ArgSlot(i)))])
    decreases |ps| - lo
  {
    if lo < |ps| {
      ParamCodeLayout(ps, lo + 1);
    }
  }

  /** Parameter code fails with the failure of the highest-numbered
      parameter whose type has no default value. */
  lemma {:induction false} ParamCodeFails(ps: seq<Param>, lo: nat, i: nat)
    requires lo <= i < |ps| && ParamCode(ps, i + 1).Ok? && ParamPair(ps, i).Err?
    ensures ParamCode(ps, lo) == Err(ParamPair(ps, i).error)
    decreases i - lo
  {
    if lo < i {
      ParamCodeFails(ps, lo + 1, i);
    }
  }

  /** The code `Produce.Function` returns for a function node with these
      properties and body code. */
  function FunctionCode(a: Attrs, body: seq<Elem>): (r: Result<seq<Elem>, Fault>)
  {
    var ps :- Definition.Need(a.paraList, "para_list");
    var params :- ParamCode(ps, 0);
    var name :- Definition.Need(a.name, "name");
    var returnType :- Definition.Need(a.returnType, "return_type");
    var retval :- if returnType != Void then
                    var d :- DefaultVal(returnType);
                    Ok([Inst("alloc", [TypeArg(returnType), NameArg(RetVal), Opd(d)])])
                  else Ok([]);
    Ok([Inst("proc", [Word(name)])] + retval + params + body +
       [Inst(if name == Main then "exit" else "ret", []), Inst("end", [Word(name)])])
  }

  /** The code of a function whose properties are all present. */
  lemma FunctionCodeOk(a: Attrs, body: seq<Elem>, params: seq<Elem>, retval: seq<Elem>)
    requires a.paraList.Some? && ParamCode(a.paraList.value, 0) == Ok(params)
    requires a.name.Some? && a.returnType.Some?
    requires a.returnType.value == Void ==> retval == []
    requires a.returnType.value != Void ==>
               && DefaultVal(a.returnType.value).Ok?
               && retval == [Inst("alloc", [TypeArg(a.returnType.value), NameArg(RetVal), Opd(DefaultVal(a.returnType.value).value)])]
    ensures FunctionCode(a, body) ==
              Ok([Inst("proc", [Word(a.name.value)])] + retval + params + body +
                 [Inst(if a.name.value == Main then "exit" else "ret", []), Inst("end", [Word(a.name.value)])])
  {
  }

  /** The properties a function's code needs, in the order they are
      looked up, and the error of the first one missing. */
  lemma FunctionCodeFails(a: Attrs, body: seq<Elem>)
    ensures a.paraList.None? ==> FunctionCode(a, body) == Err(KeyError("para_list"))
    ensures a.paraList.Some? && ParamCode(a.paraList.value, 0).Err? ==>
              FunctionCode(a, body) == Err(ParamCode(a.paraList.value, 0).error)
    ensures a.paraList.Some? && ParamCode(a.paraList.value, 0).Ok? && a.name.None? ==>
              FunctionCode(a, body) == Err(KeyError("name"))
    ensures a.paraList.Some? && ParamCode(a.paraList.value, 0).Ok? && a.name.Some? && a.returnType.None? ==>
              FunctionCode(a, body) == Err(KeyError("return_type"))
    ensures a.paraList.Some? && ParamCode(a.paraList.value, 0).Ok? && a.name.Some? && a.returnType.Some? &&
            a.returnType.value != Void && DefaultVal(a.returnType.value).Err? ==>
              FunctionCode(a, body) == Err(DefaultVal(a.returnType.value).error)
  {
  }

  /** A function's code opens with `proc`, allocates the return value
      unless it returns void, runs its parameters' code and then its body,
      and closes with `exit` for main, `ret` otherwise, and `end`. */
  lemma FunctionLayout(a: Attrs, body: seq<Elem>)
    requires FunctionCode(a, body).Ok?
    ensures var c := FunctionCode(a, body).value;
            var name := a.name.value;
            var k := if a.returnType.value == Void then 1 else 2;
            var ps := a.paraList.value;
            && |c| == k + 2 * |ps| + |body| + 2
            && c[0] == Inst("proc", [Word(name)])
            && (k == 2 ==> c[1] == Inst("alloc", [TypeArg(a.returnType.value), NameArg(RetVal), Opd(DefaultVal(a.returnType.value).value)]))
            && c[k..k + 2 * |ps|] == ParamCode(ps, 0).value
            && c[k + 2 * |ps|..|c| - 2] == body
            && c[|c| - 2] == Inst(if name == Main then "exit" else "ret", [])
            && c[|c| - 1] == Inst("end", [Word(name)])
  {
    ParamCodeLayout(a.paraList.value, 0);
  }

  /** Parameter code defines no label. */
  lemma {:induction false} ParamCodePlain(ps: seq<Param>, lo: nat)
    requires ParamCode(ps, lo).Ok?
    ensures Plain(ParamCode(ps, lo).value)
    decreases |ps| - lo
  {
    if lo < |ps| {
      ParamCodePlain(ps, lo + 1);
    }
  }

  /** A function's own instructions define no label: its labels are its
      body's. */
  lemma FunctionWithin(a: Attrs, body: seq<Elem>, s: set<int>)
    requires FunctionCode(a, body).Ok? && Within(body, s)
    ensures Within(FunctionCode(a, body).value, s)
  {
    var ps := a.paraList.value;
    var params := ParamCode(ps, 0).value;
    var rt := a.returnType.value;
    var retval := if rt == Void then [] else [Inst("alloc", [TypeArg(rt), NameArg(RetVal), Opd(DefaultVal(rt).value)])];
    FunctionCodeOk(a, body, params, retval);
    ParamCodePlain(ps, 0);
    var head := [Inst("proc", [Word(a.name.value)])] + retval + params;
    assert Plain(head);
    WithinPlain(head, body, [Inst(if a.name.value == Main then "exit" else "ret", []), Inst("end", [Word(a.name.value)])], s);
  }

  /** A function's code keeps to the labels of its children's code. */
  lemma FunctionPartWithin(a: Attrs, codes: seq<seq<Elem>>, bounds: seq<int>)
    requires Staged(codes, bounds) && |codes| > 0 && FunctionCode(a, codes[|codes| - 1]).Ok?
    ensures Within(FunctionCode(a, codes[|codes| - 1]).value, Range(bounds[0], bounds[|codes|]))
  {
    StagedPart(codes, bounds, |codes| - 1);
    FunctionWithin(a, codes[|codes| - 1], Range(bounds[0], bounds[|codes|]));
  }

  // ----- Statements -----

  function LabelInst(i: nat): Elem
  {
    Inst("label", [Word(Label(i))])
  }

  function Goto(i: nat): Elem
  {
    Inst("goto", [Word(Label(i))])
  }

  /** `if (cond) body else alt`: the condition's code, a jump past the body
      to label pre when it is false, the body, a jump past the alternative
      to label post, and the alternative between the two labels. */
  function IfCode(cond: seq<Elem>, arg: Arg, body: seq<Elem>, alt: seq<Elem>, pre: nat, post: nat): seq<Elem>
  {
    (cond + [Inst("goto_if_false", [arg, Word(Label(pre))])] + body + [Goto(post)]) + ([LabelInst(pre)] + alt) + [LabelInst(post)]
  }

  /** `while (cond) body`: label back, the condition's code, a jump to label
      tail when it is false, the body with its markers patched, and a jump
      back. */
  function WhileCode(cond: seq<Elem>, arg: Arg, body: seq<Elem>, back: nat, tail: nat): seq<Elem>
  {
    [LabelInst(back)] + (cond + [Inst("goto_if_false", [arg, Word(Label(tail))])] + Patched(body, Label(back), Label(tail))) + [Goto(back), LabelInst(tail)]
  }

  /** `do body while (cond);`: label back, the patched body, the
      condition's code and a jump back while it holds, then label tail. */
  function DoCode(body: seq<Elem>, cond: seq<Elem>, arg: Arg, back: nat, tail: nat): seq<Elem>
  {
    [LabelInst(back)] + (Patched(body, Label(back), Label(tail)) + cond + [Inst("goto_if", [arg, Word(Label(back))])]) + [LabelInst(tail)]
  }

  /** `for (init; cond; incr) body`: the initial assignment, label back,
      the condition's code and a jump to label tail when it is false, the
      patched body, the increment and a jump back. */
  function ForCode(init: seq<Elem>, cond: seq<Elem>, arg: Arg, incr: seq<Elem>, body: seq<Elem>, back: nat, tail: nat): seq<Elem>
  {
    init + ([LabelInst(back)] + (cond + [Inst("goto_if_false", [arg, Word(Label(tail))])] + (Patched(body, Label(back), Label(tail)) + incr))) + [Goto(back), LabelInst(tail)]
  }

  /** Where `if` jumps: a false condition goes to label pre, which starts
      the alternative; the end of the body jumps to label post, which ends
      the statement. */
  lemma IfLayout(cond: seq<Elem>, arg: Arg, body: seq<Elem>, alt: seq<Elem>, pre: nat, post: nat)
    ensures
      var code := IfCode(cond, arg, body, alt, pre, post);
      var b := |cond| + 1;
      var a := b + |body| + 2;
      && |code| == a + |alt| + 1
      && code[..|cond|] == cond
      && code[|cond|] == Inst("goto_if_false", [arg, Word(Label(pre))])
      && code[b..b + |body|] == body
      && code[b + |body|] == Goto(post)
      && code[a - 1] == LabelInst(pre)
      && code[a..a + |alt|] == alt
      && code[|code| - 1] == LabelInst(post)
  {
    var code := IfCode(cond, arg, body, alt, pre, post);
    var head := cond + [Inst("goto_if_false", [arg, Word(Label(pre))])] + body + [Goto(post)];
    assert code[..|head|] == head;
    assert head[..|cond|] == cond;
    assert head[|cond| + 1..|cond| + 1 + |body|] == body;
    assert code[|head| + 1..|head| + 1 + |alt|] == alt;
  }

  /** Where `while` jumps: label back starts the loop, before the
      condition; a false condition, and every `break` of the body, go to
      label tail after the loop; every `continue` goes back to label back. */
  lemma WhileJumps(cond: seq<Elem>, arg: Arg, body: seq<Elem>, back: nat, tail: nat, i: nat)
    requires i < |body|
    ensures
      var code := WhileCode(cond, arg, body, back, tail);
      var at := |cond| + 2 + i;
      && |code| == |cond| + |body| + 4
      && code[0] == LabelInst(back)
      && code[1..|cond| + 1] == cond
      && code[|cond| + 1] == Inst("goto_if_false", [arg, Word(Label(tail))])
      && (body[i] == BreakMark ==> code[at] == Goto(tail))
      && (body[i] == ContinueMark ==> code[at] == Goto(back))
      && (body[i] != BreakMark && body[i] != ContinueMark ==> code[at] == body[i])
      && code[|code| - 2] == Goto(back)
      && code[|code| - 1] == LabelInst(tail)
  {
    var code := WhileCode(cond, arg, body, back, tail);
    var inner := cond + [Inst("goto_if_false", [arg, Word(Label(tail))])] + Patched(body, Label(back), Label(tail));
    assert code[1..|cond| + 1] == inner[..|cond|] == cond;
    assert code[|cond| + 2 + i] == inner[|cond| + 1 + i];
  }

  /** Where `do` jumps: label back is the top of the body, so a `continue`
      reruns the body without testing the condition, which comes after the
      body; a `break` goes to label tail after the loop. */
  lemma DoJumps(body: seq<Elem>, cond: seq<Elem>, arg: Arg, back: nat, tail: nat, i: nat)
    requires i < |body|
    ensures
      var code := DoCode(body, cond, arg, back, tail);
      var c := 1 + |body|;
      && |code| == |body| + |cond| + 3
      && code[0] == LabelInst(back)
      && (body[i] == BreakMark ==> code[1 + i] == Goto(tail))
      && (body[i] == ContinueMark ==> code[1 + i] == Goto(back))
      && (body[i] != BreakMark && body[i] != ContinueMark ==> code[1 + i] == body[i])
      && code[c..c + |cond|] == cond
      && code[c + |cond|] == Inst("goto_if", [arg, Word(Label(back))])
      && code[|code| - 1] == LabelInst(tail)
  {
    var code := DoCode(body, cond, arg, back, tail);
    var inner := Patched(body, Label(back), Label(tail)) + cond + [Inst("goto_if", [arg, Word(Label(back))])];
    assert code[1 + i] == inner[i];
    assert code[1 + |body|..1 + |body| + |cond|] == inner[|body|..|body| + |cond|] == cond;
  }

  /** Where `for` jumps: the initial assignment runs once before label
      back, which precedes the condition; a `continue` of the body goes to
      label back and so skips the increment, which follows the body; a
      `break` goes to label tail after the loop. */
  lemma ForJumps(init: seq<Elem>, cond: seq<Elem>, arg: Arg, incr: seq<Elem>, body: seq<Elem>, back: nat, tail: nat, i: nat)
    requires i < |body|
    ensures
      var code := ForCode(init, cond, arg, incr, body, back, tail);
      var b := |init| + |cond| + 2;
      && |code| == b + |body| + |incr| + 2
      && code[..|init|] == init
      && code[|init|] == LabelInst(back)
      && code[|init| + 1..|init| + 1 + |cond|] == cond
      && code[b - 1] == Inst("goto_if_false", [arg, Word(Label(tail))])
      && (body[i] == BreakMark ==> code[b + i] == Goto(tail))
      && (body[i] == ContinueMark ==> code[b + i] == Goto(back))
      && (body[i] != BreakMark && body[i] != ContinueMark ==> code[b + i] == body[i])
      && code[b + |body|..b + |body| + |incr|] == incr
      && code[|code| - 2] == Goto(back)
      && code[|code| - 1] == LabelInst(tail)
  {
    var code := ForCode(init, cond, arg, incr, body, back, tail);
    var patched := Patched(body, Label(back), Label(tail));
    var inner := cond + [Inst("goto_if_false", [arg, Word(Label(tail))])] + (patched + incr);
    var loop := [LabelInst(back)] + inner;
    assert code[..|init|] == init;
    assert code[|init|..|init| + |loop|] == loop;
    assert loop[1..1 + |cond|] == cond;
    assert inner[|cond| + 1 + i] == patched[i];
    assert inner[|cond| + 1 + |body|..|cond| + 1 + |body| + |incr|] == incr;
  }

  /** A conditional jump releases its condition's temporary, if any. */
  lemma JumpReleases(cmd: string, arg: Arg, w: Arg)
    requires cmd !in Exempt && !IsTemp(w)
    ensures ReleasedBy(cmd, [arg, w]) == TempsOf([arg])
  {
    assert [arg, w][..1] == [arg];
  }

  /** The statement keywords `Produce.Stmt` handles itself. */
  const StmtKeys: set<string> := {"if", "while", "do", "for", "break", "continue", "return", "read", "print"}

  /** A lone marker defines no label. */
  lemma PlainMarkers(code: seq<Elem>, s: set<int>)
    requires |code| == 1 && (code[0] == BreakMark || code[0] == ContinueMark)
    ensures Within(code, s)
  {
    assert LabelDefs(code) == LabelDefs([]) + ElemDefs(code[0]) by {
      assert code[..0] == [];
    }
  }

  /** A `mov` releases its source's temporary, if any, never its
      destination's. */
  lemma MovReleases(target: Arg, src: Arg)
    ensures ReleasedBy("mov", [target, src]) == TempsOf([src])
  {
    assert [target, src][1..] == [src];
  }

  /** `Stmt -> return ReturnValue`: unless the value is void, its code and
      a `mov` into the return-value slot; then `exit` from main, `ret`
      from any other function. */
  function ReturnCode(dataType: DataType, exprCode: seq<Elem>, arg: Arg, name: string): seq<Elem>
  {
    (if dataType != Void then exprCode + [Inst("mov", [Opd(Ident(dataType, RetVal)), arg])] else [])
      + [Inst(if name == Main then "exit" else "ret", [])]
  }

  lemma ReturnWithin(codes: seq<seq<Elem>>, bounds: seq<int>, dataType: DataType, arg: Arg, name: string)
    requires Staged(codes, bounds) && |codes| > 1
    ensures Within(ReturnCode(dataType, codes[1], arg, name), Range(bounds[0], bounds[|codes|]))
  {
    var s := Range(bounds[0], bounds[|codes|]);
    var last := Inst(if name == Main then "exit" else "ret", []);
    if dataType != Void {
      var mov := Inst("mov", [Opd(Ident(dataType, RetVal)), arg]);
      StagedPart(codes, bounds, 1);
      WithinSnoc(codes[1], mov, s);
      WithinSnoc(codes[1] + [mov], last, s);
    } else {
      PlainWithin([last], s);
      assert [] + [last] == [last];
    }
  }

  /** `print` has no destination: it releases its operand's temporary. */
  lemma PrintReleases(arg: Arg)
    ensures ReleasedBy("print", [arg]) == TempsOf([arg])
  {
    assert "print" !in Exempt;
  }

  /** `Stmt -> print Expr ;`: the expression's code, then `print`. */
  lemma PrintWithin(codes: seq<seq<Elem>>, bounds: seq<int>, arg: Arg)
    requires Staged(codes, bounds) && |codes| > 1
    ensures Within(codes[1] + [Inst("print", [arg])], Range(bounds[0], bounds[|codes|]))
  {
    StagedPart(codes, bounds, 1);
    WithinSnoc(codes[1], Inst("print", [arg]), Range(bounds[0], bounds[|codes|]));
  }

  /** Label numbers x < i <= z split at y. */
  lemma RangeSplit(x: int, y: int, z: int)
    requires x <= y <= z
    ensures Range(x, y) + Range(y, z) == Range(x, z) && Range(x, y) !! Range(y, z)
  {
  }

  /** A child's code keeps to any range around its stage. */
  lemma ChildWithin(codes: seq<seq<Elem>>, bounds: seq<int>, k: nat, lo: int, hi: int)
    requires Staged(codes, bounds) && k < |codes| && lo <= bounds[k] && bounds[k + 1] <= hi
    ensures Within(codes[k], Range(lo, hi))
  {
    WithinWiden(codes[k], Range(bounds[k], bounds[k + 1]), Range(lo, hi));
  }

  /** Code using labels up to y followed by code using labels above y. */
  lemma JoinUp(a: seq<Elem>, b: seq<Elem>, x: int, y: int, z: int)
    requires x <= y <= z && Within(a, Range(x, y)) && Within(b, Range(y, z))
    ensures Within(a + b, Range(x, z))
  {
    RangeSplit(x, y, z);
    WithinJoin(a, b, Range(x, y), Range(y, z));
  }

  /** Code using labels above y followed by code using labels up to y. */
  lemma JoinDown(a: seq<Elem>, b: seq<Elem>, x: int, y: int, z: int)
    requires x <= y <= z && Within(a, Range(y, z)) && Within(b, Range(x, y))
    ensures Within(a + b, Range(x, z))
  {
    RangeSplit(x, y, z);
    WithinJoin(a, b, Range(y, z), Range(x, y));
  }

  lemma WithinSnoc(code: seq<Elem>, e: Elem, s: set<int>)
    requires Within(code, s) && e.Inst? && e.cmd != "label"
    ensures Within(code + [e], s)
  {
    LabelDefsAppend(code, [e]);
    assert LabelDefs([e]) == LabelDefs([]) + ElemDefs(e);
  }

  /** A `label` instruction for label i alone, as a range of one. */
  lemma LabelWithin(i: nat)
    ensures Within([LabelInst(i)], Range(i - 1, i))
  {
    WithinLabel(i);
    WithinWiden([LabelInst(i)], {i}, Range(i - 1, i));
  }

  /** A loop's closing jump and tail label. */
  lemma CloseWithin(back: nat, tail: nat)
    ensures Within([Goto(back), LabelInst(tail)], Range(tail - 1, tail))
  {
    LabelWithin(tail);
    LabelDefsAppend([Goto(back)], [LabelInst(tail)]);
    assert LabelDefs([Goto(back)]) == LabelDefs([]) + ElemDefs(Goto(back));
    assert [Goto(back)] + [LabelInst(tail)] == [Goto(back), LabelInst(tail)];
  }

  /** The labels of an `if` statement are its children's and its own two,
      all distinct. */
  lemma IfWithin(codes: seq<seq<Elem>>, bounds: seq<int>, arg: Arg, m: int)
    requires m >= -1 && Staged(codes, bounds) && |codes| > 5 && bounds[|codes|] == m
    ensures Within(IfCode(codes[2], arg, codes[4], codes[5], m + 1, m + 2), Range(bounds[0], m + 2))
  {
    var b := bounds;
    assert b[0] <= b[2] && b[5] <= b[6] <= m;
    ChildWithin(codes, bounds, 2, b[0], b[4]);
    ChildWithin(codes, bounds, 4, b[4], b[5]);
    ChildWithin(codes, bounds, 5, b[5], m);
    var jump := Inst("goto_if_false", [arg, Word(Label(m + 1))]);
    WithinSnoc(codes[2], jump, Range(b[0], b[4]));
    JoinUp(codes[2] + [jump], codes[4], b[0], b[4], b[5]);
    WithinSnoc(codes[2] + [jump] + codes[4], Goto(m + 2), Range(b[0], b[5]));
    LabelWithin(m + 1);
    JoinDown([LabelInst(m + 1)], codes[5], b[5], m, m + 1);
    JoinUp(codes[2] + [jump] + codes[4] + [Goto(m + 2)], [LabelInst(m + 1)] + codes[5], b[0], b[5], m + 1);
    LabelWithin(m + 2);
    JoinUp((codes[2] + [jump] + codes[4] + [Goto(m + 2)]) + ([LabelInst(m + 1)] + codes[5]), [LabelInst(m + 2)], b[0], m + 1, m + 2);
  }

  /** A patched body keeps to the labels of the body. */
  lemma PatchedWithin(code: seq<Elem>, c: string, b: string, s: set<int>)
    requires Within(code, s)
    ensures Within(Patched(code, c, b), s)
  {
    LabelDefsPatched(code, c, b);
  }

  /** The labels of a `while` statement are its children's and its own two,
      all distinct. */
  lemma WhileWithin(codes: seq<seq<Elem>>, bounds: seq<int>, arg: Arg, m: int)
    requires m >= -1 && Staged(codes, bounds) && |codes| > 4 && bounds[|codes|] == m
    ensures Within(WhileCode(codes[2], arg, codes[4], m + 1, m + 2), Range(bounds[0], m + 2))
  {
    var b := bounds;
    assert b[0] <= b[2] && b[5] <= m;
    ChildWithin(codes, bounds, 2, b[0], b[4]);
    ChildWithin(codes, bounds, 4, b[4], m);
    var body := Patched(codes[4], Label(m + 1), Label(m + 2));
    PatchedWithin(codes[4], Label(m + 1), Label(m + 2), Range(b[4], m));
    var jump := Inst("goto_if_false", [arg, Word(Label(m + 2))]);
    WithinSnoc(codes[2], jump, Range(b[0], b[4]));
    JoinUp(codes[2] + [jump], body, b[0], b[4], m);
    LabelWithin(m + 1);
    JoinDown([LabelInst(m + 1)], codes[2] + [jump] + body, b[0], m, m + 1);
    CloseWithin(m + 1, m + 2);
    JoinUp([LabelInst(m + 1)] + (codes[2] + [jump] + body), [Goto(m + 1), LabelInst(m + 2)], b[0], m + 1, m + 2);
  }

  /** The labels of a `do` statement are its children's and its own two,
      all distinct. */
  lemma DoWithin(codes: seq<seq<Elem>>, bounds: seq<int>, arg: Arg, m: int)
    requires m >= -1 && Staged(codes, bounds) && |codes| > 4 && bounds[|codes|] == m
    ensures Within(DoCode(codes[1], codes[4], arg, m + 1, m + 2), Range(bounds[0], m + 2))
  {
    var b := bounds;
    assert b[0] <= b[1] && b[2] <= b[4] && b[5] <= m;
    ChildWithin(codes, bounds, 1, b[0], b[4]);
    ChildWithin(codes, bounds, 4, b[4], m);
    var body := Patched(codes[1], Label(m + 1), Label(m + 2));
    PatchedWithin(codes[1], Label(m + 1), Label(m + 2), Range(b[0], b[4]));
    var jump := Inst("goto_if", [arg, Word(Label(m + 1))]);
    JoinUp(body, codes[4], b[0], b[4], m);
    WithinSnoc(body + codes[4], jump, Range(b[0], m));
    LabelWithin(m + 1);
    JoinDown([LabelInst(m + 1)], body + codes[4] + [jump], b[0], m, m + 1);
    LabelWithin(m + 2);
    JoinUp([LabelInst(m + 1)] + (body + codes[4] + [jump]), [LabelInst(m + 2)], b[0], m + 1, m + 2);
  }

  /** The labels of a `for` statement are its children's and its own two,
      all distinct. */
  lemma ForWithin(codes: seq<seq<Elem>>, bounds: seq<int>, arg: Arg, m: int)
    requires m >= -1 && Staged(codes, bounds) && |codes| > 8 && bounds[|codes|] == m
    ensures Within(ForCode(codes[2], codes[4], arg, codes[6], codes[8], m + 1, m + 2), Range(bounds[0], m + 2))
  {
    var b := bounds;
    assert b[0] <= b[2] && b[3] <= b[4] && b[5] <= b[6] && b[7] <= b[8] && b[9] <= m;
    ChildWithin(codes, bounds, 2, b[0], b[3]);
    ChildWithin(codes, bounds, 4, b[3], b[5]);
    ChildWithin(codes, bounds, 6, b[5], b[7]);
    ChildWithin(codes, bounds, 8, b[7], m);
    var body := Patched(codes[8], Label(m + 1), Label(m + 2));
    PatchedWithin(codes[8], Label(m + 1), Label(m + 2), Range(b[7], m));
    JoinDown(body, codes[6], b[5], b[7], m);
    var jump := Inst("goto_if_false", [arg, Word(Label(m + 2))]);
    WithinSnoc(codes[4], jump, Range(b[3], b[5]));
    JoinUp(codes[4] + [jump], body + codes[6], b[3], b[5], m);
    LabelWithin(m + 1);
    JoinDown([LabelInst(m + 1)], codes[4] + [jump] + (body + codes[6]), b[3], m, m + 1);
    JoinUp(codes[2], [LabelInst(m + 1)] + (codes[4] + [jump] + (body + codes[6])), b[0], b[3], m + 1);
    CloseWithin(m + 1, m + 2);
    JoinUp(codes[2] + ([LabelInst(m + 1)] + (codes[4] + [jump] + (body + codes[6]))), [Goto(m + 1), LabelInst(m + 2)], b[0], m + 1, m + 2);
  }

  // ----- Calls and expressions -----

  /** The operands of a list of `arg` properties, `None` kept as `NoArg`. */
  function ArgsOf(s: seq<Option<Operand>>): (r: seq<Arg>)
    ensures |r| == |s| && forall i :: 0 <= i < |s| ==> r[i] == ArgOf(s[i])
  {
    seq(|s|, i requires 0 <= i < |s| => ArgOf(s[i]))
  }

  /** `override` of argument slot i, of type t, with the operand a. */
  function OverrideInst(t: DataType, i: nat, a: Arg): Elem
  {
    Inst("override", [Opd(Ident(t, ArgSlot(i))), a])
  }

  /** `*codes[i]` in `Produce.ArgList`: the first argument's code list, then
      the argument code lists the `ArgListRight` chain gathered. Spreading an
      element that is not a code list fails. */
  function ArgPart(first: seq<Elem>, rest: seq<Elem>, i: nat): (r: Result<seq<Elem>, Fault>)
    ensures r.Err? <==> i > 0 && (i - 1 >= |rest| || !rest[i - 1].Group?)
  {
    if i == 0 then Ok(first)
    else if i - 1 < |rest| then (if rest[i - 1].Group? then Ok(rest[i - 1].code) else Err(TypeError))
    else Err(IndexError)
  }

  /** The code `Produce.ArgList`'s loop has built after k arguments. */
  function OverrideCode(first: seq<Elem>, rest: seq<Elem>, types: seq<DataType>, args: seq<Arg>, k: nat): Result<seq<Elem>, Fault>
    requires k <= |args|
    decreases k
  {
    if k == 0 then Ok([])
    else
      var prev :- OverrideCode(first, rest, types, args, k - 1);
      var part :- ArgPart(first, rest, k - 1);
      if k - 1 >= |types| then Err(IndexError)
      else Ok(prev + part + [OverrideInst(types[k - 1], k - 1, args[k - 1])])
  }

  /** The argument list translates exactly when every argument has a code
      list and a declared type. */
  lemma {:induction false} OverrideCodeOk(first: seq<Elem>, rest: seq<Elem>, types: seq<DataType>, args: seq<Arg>, k: nat)
    requires k <= |args|
    ensures OverrideCode(first, rest, types, args, k).Ok? <==>
              k <= |types| && k <= |rest| + 1 && forall j :: 0 <= j < k - 1 ==> rest[j].Group?
  {
    if k > 0 {
      OverrideCodeOk(first, rest, types, args, k - 1);
    }
  }

  /** A failure is the failure of the first argument that has no code list
      or no type: a code list is looked up before the type. */
  lemma {:induction false} OverrideFault(first: seq<Elem>, rest: seq<Elem>, types: seq<DataType>, args: seq<Arg>, k: nat, i: nat)
    requires i < k <= |args|
    requires OverrideCode(first, rest, types, args, i).Ok?
    requires ArgPart(first, rest, i).Err? || i >= |types|
    ensures OverrideCode(first, rest, types, args, k) ==
              Err(if ArgPart(first, rest, i).Err? then ArgPart(first, rest, i).error else IndexError)
    decreases k
  {
    if k - 1 > i {
      OverrideFault(first, rest, types, args, k - 1, i);
    }
  }

  /** The pool after the overrides of the first i + 1 arguments. */
  lemma OverrideStep(p: Pool, args: seq<Arg>, i: nat)
    requires i < |args|
    ensures ReleaseAll(p, TempsOf(args[..i + 1])) == ReleaseAll(ReleaseAll(p, TempsOf(args[..i])), TempsOf([args[i]]))
  {
    assert args[..i + 1][..i] == args[..i];
    assert [args[i]][..0] == [];
    if IsTemp(args[i]) {
      ReleaseAllSnoc(p, TempsOf(args[..i]), args[i].operand.name);
    } else {
      assert TempsOf(args[..i]) + [] == TempsOf(args[..i]);
    }
  }

  /** `new_inst` keeps the destination of `mov`, `override` and the
      calculations, and releases the temporaries among the sources. */
  lemma DestinationKept(cmd: string, dest: Arg, srcs: seq<Arg>)
    requires cmd in Exempt
    ensures ReleasedBy(cmd, [dest] + srcs) == TempsOf(srcs)
  {
    assert ([dest] + srcs)[1..] == srcs;
  }

  /** An immediate among the sources releases nothing. */
  lemma ImmediateKept(d: Operand, a: Arg)
    requires d.Data?
    ensures TempsOf([Opd(d), a]) == TempsOf([a])
  {
    assert [Opd(d), a][..1] == [Opd(d)];
    assert [Opd(d)][..0] == [];
    assert [a][..0] == [];
  }

  /** Argument i's code, immediately followed by its `override` into slot
      i, for each argument in order. */
  lemma {:induction false} OverrideLayout(first: seq<Elem>, rest: seq<Elem>, types: seq<DataType>, args: seq<Arg>, k: nat, i: nat)
    requires i < k <= |args| && OverrideCode(first, rest, types, args, k).Ok?
    ensures ArgPart(first, rest, i).Ok? && i < |types|
    ensures OverrideCode(first, rest, types, args, i).Ok? &&
      var code := OverrideCode(first, rest, types, args, k).value;
      var prev := OverrideCode(first, rest, types, args, i).value;
      var part := ArgPart(first, rest, i).value;
      && |prev| + |part| < |code|
      && code[..|prev|] == prev
      && code[|prev|..|prev| + |part|] == part
      && code[|prev| + |part|] == OverrideInst(types[i], i, args[i])
    decreases k
  {
    OverrideCodeOk(first, rest, types, args, k);
    OverrideCodeOk(first, rest, types, args, i + 1);
    if k - 1 > i {
      OverrideLayout(first, rest, types, args, k - 1, i);
      var prev := OverrideCode(first, rest, types, args, k - 1).value;
      var code := OverrideCode(first, rest, types, args, k).value;
      assert code[..|prev|] == prev;
    }
  }

  /** One more argument adds the labels of its code, and the override none. */
  lemma OverrideDefsStep(first: seq<Elem>, rest: seq<Elem>, types: seq<DataType>, args: seq<Arg>, k: nat)
    requires 0 < k <= |args| && OverrideCode(first, rest, types, args, k).Ok?
    ensures OverrideCode(first, rest, types, args, k - 1).Ok? && ArgPart(first, rest, k - 1).Ok?
    ensures LabelDefs(OverrideCode(first, rest, types, args, k).value) ==
              LabelDefs(OverrideCode(first, rest, types, args, k - 1).value) + LabelDefs(ArgPart(first, rest, k - 1).value)
  {
    var prev := OverrideCode(first, rest, types, args, k - 1).value;
    var part := ArgPart(first, rest, k - 1).value;
    var ov := OverrideInst(types[k - 1], k - 1, args[k - 1]);
    assert OverrideCode(first, rest, types, args, k).value == prev + part + [ov];
    LabelDefsAppend(prev + part, [ov]);
    LabelDefsAppend(prev, part);
    assert LabelDefs([ov]) == [] by {
      assert [ov][..0] == [];
    }
  }

  /** The code of argument i: the first argument's, or a nested code list. */
  lemma ArgPartCode(first: seq<Elem>, rest: seq<Elem>, i: nat)
    requires ArgPart(first, rest, i).Ok?
    ensures i == 0 ==> ArgPart(first, rest, i).value == first
    ensures i > 0 ==> i - 1 < |rest| && rest[i - 1].Group? && ArgPart(first, rest, i).value == rest[i - 1].code
  {
  }

  /** The labels of a prefix of the nested code lists, one list longer. */
  lemma GroupPrefixDefs(first: seq<Elem>, rest: seq<Elem>, j: nat)
    requires j < |rest| && rest[j].Group?
    ensures LabelDefs(first) + LabelDefs(rest[..j + 1]) == LabelDefs(first) + LabelDefs(rest[..j]) + LabelDefs(rest[j].code)
  {
    assert rest[..j + 1][..j] == rest[..j];
  }

  /** The labels an argument list defines are those of the first argument
      and of the argument code lists it spreads. */
  lemma {:induction false} OverrideDefs(first: seq<Elem>, rest: seq<Elem>, types: seq<DataType>, args: seq<Arg>, k: nat)
    requires k <= |args| && OverrideCode(first, rest, types, args, k).Ok?
    ensures k > 0 ==> k - 1 <= |rest|
    ensures LabelDefs(OverrideCode(first, rest, types, args, k).value) ==
              if k == 0 then [] else LabelDefs(first) + LabelDefs(rest[..k - 1])
    decreases k
  {
    if k > 0 {
      OverrideDefsStep(first, rest, types, args, k);
      ArgPartCode(first, rest, k - 1);
      OverrideDefs(first, rest, types, args, k - 1);
      if k == 1 {
        assert rest[..0] == [];
      } else {
        GroupPrefixDefs(first, rest, k - 2);
      }
    }
  }

  lemma WithinPrefix(code: seq<Elem>, j: nat, s: set<int>)
    requires Within(code, s) && j <= |code|
    ensures Within(code[..j], s)
  {
    LabelDefsAppend(code[..j], code[j..]);
    assert code[..j] + code[j..] == code;
    var d, full := LabelDefs(code[..j]), LabelDefs(code);
    assert forall i :: 0 <= i < |d| ==> d[i] == full[i];
  }

  /** Code with the labels of code that keeps to s keeps to s. */
  lemma SameDefsWithin(a: seq<Elem>, b: seq<Elem>, s: set<int>)
    requires Within(a, s) && LabelDefs(b) == LabelDefs(a)
    ensures Within(b, s)
  {
  }

  lemma ArgListWithin(codes: seq<seq<Elem>>, bounds: seq<int>, types: seq<DataType>, args: seq<Arg>)
    requires Staged(codes, bounds) && |codes| >= 2
    requires OverrideCode(codes[0], codes[|codes| - 1], types, args, |args|).Ok?
    ensures Within(OverrideCode(codes[0], codes[|codes| - 1], types, args, |args|).value, Range(bounds[0], bounds[|codes|]))
  {
    var k, l := |args|, |codes| - 1;
    var s := Range(bounds[0], bounds[|codes|]);
    OverrideDefs(codes[0], codes[l], types, args, k);
    if k > 0 {
      var t0, t1 := Range(bounds[0], bounds[1]), Range(bounds[l], bounds[l + 1]);
      assert bounds[1] <= bounds[l];
      WithinPrefix(codes[l], k - 1, t1);
      WithinJoin(codes[0], codes[l][..k - 1], t0, t1);
      LabelDefsAppend(codes[0], codes[l][..k - 1]);
      SameDefsWithin(codes[0] + codes[l][..k - 1], OverrideCode(codes[0], codes[l], types, args, k).value, t0 + t1);
      WithinWiden(OverrideCode(codes[0], codes[l], types, args, k).value, t0 + t1, s);
    }
  }

  /** `Produce.ArgListRight`'s code: the expression's code list as one
      element, then the rest of the chain's. */
  function RightCode(codes: seq<seq<Elem>>): seq<Elem>
    requires |codes| > 1
  {
    [Group(codes[1])] + codes[|codes| - 1]
  }

  lemma RightCodeWithin(codes: seq<seq<Elem>>, bounds: seq<int>)
    requires Staged(codes, bounds) && |codes| >= 3
    ensures Within(RightCode(codes), Range(bounds[0], bounds[|codes|]))
  {
    var l := |codes| - 1;
    var t1, t2 := Range(bounds[1], bounds[2]), Range(bounds[l], bounds[l + 1]);
    assert bounds[2] <= bounds[l];
    assert LabelDefs([Group(codes[1])]) == LabelDefs(codes[1]) by {
      assert [Group(codes[1])][..0] == [];
    }
    WithinJoin([Group(codes[1])], codes[l], t1, t2);
    WithinWiden(RightCode(codes), t1 + t2, Range(bounds[0], bounds[|codes|]));
  }

  /** The children's code followed by plain instructions. */
  lemma ConcatWithin(codes: seq<seq<Elem>>, bounds: seq<int>, tail: seq<Elem>)
    requires Staged(codes, bounds) && Plain(tail)
    ensures Within(Concat(codes) + tail, Range(bounds[0], bounds[|codes|]))
  {
    StagedConcat(codes, bounds);
    PlainDefinesNothing(tail);
    LabelDefsAppend(Concat(codes), tail);
    assert LabelDefs(Concat(codes)) + [] == LabelDefs(Concat(codes));
    SameDefsWithin(Concat(codes), Concat(codes) + tail, Range(bounds[0], bounds[|codes|]));
  }

  /** The unary forms that pass their operand up. */
  const PassKeys: set<string> := {"ParExpr", "Oprand", "+"}

  /** The instruction of `-` (`minus` from 0) or `!` (`not`) into x. */
  function UnaryInst(key: string, dataType: DataType, x: Name, operand: Arg): Elem
  {
    if key == "-" then Inst("minus", [Opd(Ident(dataType, x)), Opd(Data(dataType, IntLit(0))), operand])
    else Inst("not", [Opd(Ident(dataType, x)), operand])
  }

  /** `minus` from zero, or `not`, of the operand is `UnaryInst`, which
      defines no label. */
  lemma UnaryCalcInst(key: string, dataType: DataType, x: Name, operand: Arg)
    ensures Inst(if key == "-" then "minus" else "not",
                 [Opd(Ident(dataType, x))] + (if key == "-" then [Opd(Data(dataType, IntLit(0))), operand] else [operand]))
            == UnaryInst(key, dataType, x, operand)
    ensures Plain([UnaryInst(key, dataType, x, operand)])
  {
    if key == "-" {
      assert [Opd(Ident(dataType, x))] + [Opd(Data(dataType, IntLit(0))), operand]
          == [Opd(Ident(dataType, x)), Opd(Data(dataType, IntLit(0))), operand];
    } else {
      assert [Opd(Ident(dataType, x))] + [operand] == [Opd(Ident(dataType, x)), operand];
    }
  }

  /** A calculation defines no label. */
  lemma CalculationPlain(cmd: string, args: seq<Arg>)
    requires cmd in Machine.Calculations
    ensures Plain([Inst(cmd, args)])
  {
  }

  /** One child's code followed by plain instructions. */
  lemma ChildThen(codes: seq<seq<Elem>>, bounds: seq<int>, k: nat, tail: seq<Elem>)
    requires Staged(codes, bounds) && k < |codes| && Plain(tail)
    ensures Within(codes[k] + tail, Range(bounds[0], bounds[|codes|]))
  {
    PartWithin(codes, bounds, k, [], tail);
    assert [] + codes[k] + tail == codes[k] + tail;
  }

  /** The operator maps of the chain rules, `Term` to `Expr`. */
  const TermOps: map<string, string> := map["*" := "mul", "/" := "div"]
  const ArithOps: map<string, string> := map["+" := "plus", "-" := "minus"]
  const RelOps: map<string, string> := map["<" := "lt", ">" := "gt", "<=" := "le", ">=" := "ge"]
  const EqualityOps: map<string, string> := map["==" := "eq", "!=" := "neq"]
  const JoinOps: map<string, string> := map["&&" := "and"]
  const ExprOps: map<string, string> := map["||" := "or"]

  /** The chain rule a syntax item names: its operator map, and whether it
      is the `...Right` rule. */
  function ChainRule(item: string): (r: Option<(map<string, string>, bool)>)
    ensures r.Some? ==> r.value.0.Values <= Machine.Calculations
  {
    match item
    case "Term" => Some((TermOps, false))
    case "TermRight" => Some((TermOps, true))
    case "Arith" => Some((ArithOps, false))
    case "ArithRight" => Some((ArithOps, true))
    case "Rel" => Some((RelOps, false))
    case "RelRight" => Some((RelOps, true))
    case "Equality" => Some((EqualityOps, false))
    case "EqualityRight" => Some((EqualityOps, true))
    case "Join" => Some((JoinOps, false))
    case "JoinRight" => Some((JoinOps, true))
    case "Expr" => Some((ExprOps, false))
    case "ExprRight" => Some((ExprOps, true))
    case _ => None
  }

  lemma StagedSnoc(codes: seq<seq<Elem>>, bounds: seq<int>, code: seq<Elem>, hi: int)
    requires Staged(codes, bounds) && bounds[|codes|] <= hi
    requires Within(code, Range(bounds[|codes|], hi))
    ensures Staged(codes + [code], bounds + [hi])
  {
    var c, b := codes + [code], bounds + [hi];
    forall j | 0 <= j < |c|
      ensures Within(c[j], Range(b[j], b[j + 1]))
    {
      if j < |codes| {
        assert c[j] == codes[j] && b[j] == bounds[j] && b[j + 1] == bounds[j + 1];
      }
    }
  }

  // ----- The generator's state -----

  /** No call-argument node repeats a child: an `ArgList` with children
      has its `Expr` apart from its `ArgListRight`, and so has an
      `ArgListRight` with children. The grammar makes every tree so. */
  ghost predicate ArgListsShaped(t: Syntax.Tree)
  {
    forall i :: 0 <= i < |t.nodes| ==>
      && (t.nodes[i].item == "ArgList" ==> |t.nodes[i].children| != 1)
      && (t.nodes[i].item == "ArgListRight" ==> |t.nodes[i].children| != 2)
  }

  /** What the generator writes into a node's `properties`: `arg` (`None`
      on a new node), `args` and `op`. */
  datatype Out = Out(arg: Option<Operand>, args: Option<seq<Option<Operand>>>, op: Option<string>)

  const NoOut: Out := Out(None, None, None)

  function Lookup(emitted: map<nat, Out>, n: nat): Out
  {
    if n in emitted then emitted[n] else NoOut
  }

  /** e' differs from e at node n at most. */
  ghost predicate OnlyAt(e: map<nat, Out>, e': map<nat, Out>, n: nat)
  {
    forall m :: m != n ==> Lookup(e', m) == Lookup(e, m)
  }

  /** e' agrees with e on the nodes before n. */
  ghost predicate KeptBelow(e: map<nat, Out>, e': map<nat, Out>, n: nat)
  {
    forall m: nat :: m < n ==> Lookup(e', m) == Lookup(e, m)
  }

  /** The state `translate`'s closures share, over one checked tree: the
      node `properties` the checker left (`props`) and `node.function`
      (`enclosing`, absent outside a function) are read; the allocator's
      variables and the `arg`/`args`/`op` properties are written. */
  class Translator {
    const tree: Syntax.Tree
    const props: map<nat, Attrs>
    const enclosing: map<nat, nat>
    var maxIdent: int
    var maxLabel: int
    var releasedList: seq<Name>
    var released: set<Name>
    var emitted: map<nat, Out>

    function PoolState(): Pool
      reads this
    {
      Pool(maxIdent, maxLabel, releasedList, released)
    }

    ghost predicate Valid()
      reads this
    {
      PoolOk(PoolState()) && Syntax.Shape(tree.nodes)
    }

    constructor(tree: Syntax.Tree, props: map<nat, Attrs>, enclosing: map<nat, nat>)
      requires Syntax.Shape(tree.nodes)
      ensures Valid() && PoolState() == FreshPool && emitted == map[]
      ensures this.tree == tree && this.props == props && this.enclosing == enclosing
    {
      this.tree := tree;
      this.props := props;
      this.enclosing := enclosing;
      maxIdent := -1;
      maxLabel := -1;
      releasedList := [];
      released := {};
      emitted := map[];
    }

    /** `get_label`. */
    method GetLabel() returns (l: string)
      requires Valid()
      modifies this
      ensures Valid() && (l, PoolState()) == NextLabel(old(PoolState())) && emitted == old(emitted)
    {
      maxLabel := maxLabel + 1;
      l := Label(maxLabel);
    }

    /** `get_ident`. */
    method GetIdent() returns (x: Name)
      requires Valid()
      modifies this
      ensures Valid() && (x, PoolState()) == TakeIdent(old(PoolState())) && emitted == old(emitted)
    {
      PoolOkKept(PoolState(), GetVal);
      if |releasedList| > 0 {
        x := releasedList[|releasedList| - 1];
        releasedList := releasedList[..|releasedList| - 1];
        released := released - {x};
      } else {
        maxIdent := maxIdent + 1;
        x := Temp(maxIdent);
      }
    }

    /** `release_ident`; its `assert` that x is a temporary is demanded of
        the caller. */
    method ReleaseIdent(x: Name)
      requires Valid() && x.Temp?
      modifies this
      ensures Valid() && PoolState() == Release(old(PoolState()), x) && emitted == old(emitted)
    {
      PoolOkKept(PoolState(), x);
      if x !in released {
        releasedList := releasedList + [x];
        released := released + {x};
      }
    }

    /** `cancel_released_ident`. */
    method CancelReleasedIdent(x: Name)
      requires Valid()
      modifies this
      ensures Valid() && PoolState() == Cancel(old(PoolState()), x) && emitted == old(emitted)
    {
      PoolOkKept(PoolState(), x);
      if |releasedList| > 0 && x == releasedList[|releasedList| - 1] {
        releasedList := releasedList[..|releasedList| - 1];
        released := released - {x};
      }
    }

    function AttrsAt(m: nat): Attrs
    {
      AttrsOf(props, m)
    }

    function OutAt(m: nat): Out
      reads this
    {
      Lookup(emitted, m)
    }

    /** `node.properties['arg']`. */
    function ArgAt(m: nat): Option<Operand>
      reads this
    {
      OutAt(m).arg
    }

    /** `node.deriv_tuple[0]`. */
    function KeyAt(n: nat): Result<string, Fault>
    {
      Definition.Key(tree, n)
    }

    /** The tree's call-argument nodes are as the grammar makes them. */
    ghost predicate CallListsShaped()
    {
      ArgListsShaped(tree)
    }

    /** How a `Produce` rule is called: on a node of the tree, with one
        code list per child, staged as the children were translated. */
    ghost predicate Ready(n: nat, codes: seq<seq<Elem>>, bounds: seq<int>)
      reads this
    {
      && Valid()
      && n < |tree.nodes|
      && |codes| == |tree.nodes[n].children|
      && |bounds| == |codes| + 1
      && (CallListsShaped() ==> Staged(codes, bounds))
      && bounds[|codes|] == maxLabel
    }

    /** What every `Produce` rule keeps: the allocator's invariant, labels
        only handed out, properties written at the node itself only, and
        code whose labels are distinct and all handed out since the first
        child was translated. */
    twostate predicate Produced(n: nat, bounds: seq<int>, new r: Result<seq<Elem>, Fault>)
      reads this
    {
      && Valid()
      && old(maxLabel) <= maxLabel
      && OnlyAt(old(emitted), emitted, n)
      && (r.Ok? && |bounds| > 0 && CallListsShaped() ==> Within(r.value, Range(bounds[0], maxLabel)))
    }

    /** `Produce.Program`: the children's code, then `start` and `call main`. */
    method ProduceProgram(n: nat, codes: seq<seq<Elem>>, ghost bounds: seq<int>) returns (r: Result<seq<Elem>, Fault>)
      requires Ready(n, codes, bounds)
      modifies this
      ensures Produced(n, bounds, r)
      ensures r == Ok(ProgramCode(codes)) && PoolState() == old(PoolState()) && emitted == old(emitted)
    {
      var body := ExpandCodeList(codes);
      var start := Inst("start", []);
      var call := Inst("call", [Word(Main)]);
      r := Ok(body + [start, call]);
      if CallListsShaped() {
        ProgramWithin(codes, bounds);
      }
    }

    /** `Produce.Decl`: `alloc` inside a function, `static` outside, of the
        declared type and name, with the type's default value. */
    method ProduceDecl(n: nat, codes: seq<seq<Elem>>, ghost bounds: seq<int>) returns (r: Result<seq<Elem>, Fault>)
      requires Ready(n, codes, bounds)
      modifies this
      ensures Produced(n, bounds, r)
      ensures PoolState() == old(PoolState()) && emitted == old(emitted)
      ensures var a := AttrsAt(n);
              && (a.ident.None? ==> r == Err(KeyError("ident")))
              && (a.ident.Some? && DefaultVal(a.dataType).Err? ==> r == Err(KeyError(Str(a.dataType))))
              && (a.ident.Some? && DefaultVal(a.dataType).Ok? ==>
                    r == Ok([Inst(if n in enclosing then "alloc" else "static",
                                  [TypeArg(a.dataType), NameArg(Named(a.ident.value)), Opd(DefaultVal(a.dataType).value)])]))
    {
      var dataType := AttrsAt(n).dataType;
      var ident :- Definition.Need(AttrsAt(n).ident, "ident");
      var cmd := if n in enclosing then "alloc" else "static";
      var d :- DefaultVal(dataType);
      var inst := Inst(cmd, [TypeArg(dataType), NameArg(Named(ident)), Opd(d)]);
      r := Ok([inst]);
      PlainWithin([inst], Range(bounds[0], maxLabel));
    }

    /** The loop of `Produce.Function` over the parameters, from the last
        to the first: an `alloc` and a `mov` from the argument slot each. */
    method ParameterCode(ps: seq<Param>) returns (r: Result<seq<Elem>, Fault>)
      ensures r == ParamCode(ps, 0) && (r.Ok? ==> Plain(r.value))
    {
      var params: seq<Elem> := [];
      var i := |ps| - 1;
      while i >= 0
        invariant -1 <= i < |ps|
        invariant ParamCode(ps, i + 1) == Ok(params) && Plain(params)
      {
        var p := ps[i];
        if DefaultVal(p.dataType).Err? {
          ParamCodeFails(ps, 0, i);
          return Err(DefaultVal(p.dataType).error);
        }
        var d := DefaultVal(p.dataType).value;
        var allocArgs := [TypeArg(p.dataType), NameArg(Named(p.ident)), Opd(d)];
        var movArgs := [Opd(Ident(p.dataType, Named(p.ident))), Opd(Ident(p.dataType, ArgSlot(i)))];
        var alloc := Inst("alloc", allocArgs);
        var mov := Inst("mov", movArgs);
        params := params + [alloc, mov];
        i := i - 1;
      }
      r := Ok(params);
    }

    /** `Produce.Function`: see `FunctionCode`; the parameter code is built
        by a loop over the parameters from the last to the first. */
    method ProduceFunction(n: nat, codes: seq<seq<Elem>>, ghost bounds: seq<int>) returns (r: Result<seq<Elem>, Fault>)
      requires Ready(n, codes, bounds)
      modifies this
      ensures Produced(n, bounds, r)
      ensures PoolState() == old(PoolState()) && emitted == old(emitted)
      ensures |codes| == 0 ==> r == Err(IndexError)
      ensures |codes| > 0 ==> r == FunctionCode(AttrsAt(n), codes[|codes| - 1])
    {
      if |codes| == 0 {
        return Err(IndexError);
      }
      var a := AttrsAt(n);
      var body := codes[|codes| - 1];
      FunctionCodeFails(a, body);
      if a.paraList.None? {
        return Err(KeyError("para_list"));
      }
      var params := ParameterCode(a.paraList.value);
      if params.Err? {
        return Err(params.error);
      }
      if a.name.None? {
        return Err(KeyError("name"));
      }
      var name := a.name.value;
      var returnInst := Inst(if name == Main then "exit" else "ret", []);
      if a.returnType.None? {
        return Err(KeyError("return_type"));
      }
      var returnType := a.returnType.value;
      var retvalCode: seq<Elem> := [];
      if returnType != Void {
        if DefaultVal(returnType).Err? {
          return Err(DefaultVal(returnType).error);
        }
        var allocArgs := [TypeArg(returnType), NameArg(RetVal), Opd(DefaultVal(returnType).value)];
        var alloc := Inst("alloc", allocArgs);
        retvalCode := [alloc];
      }
      var proc := Inst("proc", [Word(name)]);
      var end := Inst("end", [Word(name)]);
      r := Ok([proc] + retvalCode + params.value + body + [returnInst, end]);
      FunctionCodeOk(a, body, params.value, retvalCode);
      if CallListsShaped() {
        FunctionPartWithin(a, codes, bounds);
      }
    }

    // ----- What each statement form translates to -----

    /** `Stmt -> if ( Expr ) Stmt Else`: `IfCode` with the next two labels,
        and the condition's temporary released. */
    twostate predicate IfProduced(n: nat, codes: seq<seq<Elem>>, new r: Result<seq<Elem>, Fault>)
      requires n < |tree.nodes| && |codes| == |tree.nodes[n].children| && old(maxLabel) >= -1
      reads this
    {
      && (|codes| <= 5 ==> r == Err(IndexError) && PoolState() == old(PoolState()))
      && (|codes| > 5 ==>
            var arg := ArgOf(ArgAt(tree.nodes[n].children[2]));
            var m := old(maxLabel);
            && r == Ok(IfCode(codes[2], arg, codes[4], codes[5], m + 1, m + 2))
            && PoolState() == ReleaseAll(old(PoolState()).(maxLabel := m + 2), TempsOf([arg])))
    }

    /** `Stmt -> while ( Expr ) Stmt`: `WhileCode` with the next two labels,
        and the condition's temporary released. */
    twostate predicate WhileProduced(n: nat, codes: seq<seq<Elem>>, new r: Result<seq<Elem>, Fault>)
      requires n < |tree.nodes| && |codes| == |tree.nodes[n].children| && old(maxLabel) >= -1
      reads this
    {
      && (|codes| <= 4 ==> r == Err(IndexError) && PoolState() == old(PoolState()))
      && (|codes| > 4 ==>
            var arg := ArgOf(ArgAt(tree.nodes[n].children[2]));
            var m := old(maxLabel);
            && r == Ok(WhileCode(codes[2], arg, codes[4], m + 1, m + 2))
            && PoolState() == ReleaseAll(old(PoolState()).(maxLabel := m + 2), TempsOf([arg])))
    }

    /** `Stmt -> do Stmt while ( Expr ) ;`: `DoCode` with the next two
        labels, and the condition's temporary released. */
    twostate predicate DoProduced(n: nat, codes: seq<seq<Elem>>, new r: Result<seq<Elem>, Fault>)
      requires n < |tree.nodes| && |codes| == |tree.nodes[n].children| && old(maxLabel) >= -1
      reads this
    {
      && (|codes| <= 4 ==> r == Err(IndexError) && PoolState() == old(PoolState()))
      && (|codes| > 4 ==>
            var arg := ArgOf(ArgAt(tree.nodes[n].children[4]));
            var m := old(maxLabel);
            && r == Ok(DoCode(codes[1], codes[4], arg, m + 1, m + 2))
            && PoolState() == ReleaseAll(old(PoolState()).(maxLabel := m + 2), TempsOf([arg])))
    }

    /** `Stmt -> for ( Assign ; Expr ; Assign ) Stmt`: `ForCode` with the
        next two labels, and the condition's temporary released. */
    twostate predicate ForProduced(n: nat, codes: seq<seq<Elem>>, new r: Result<seq<Elem>, Fault>)
      requires n < |tree.nodes| && |codes| == |tree.nodes[n].children| && old(maxLabel) >= -1
      reads this
    {
      && (|codes| <= 8 ==> r == Err(IndexError) && PoolState() == old(PoolState()))
      && (|codes| > 8 ==>
            var arg := ArgOf(ArgAt(tree.nodes[n].children[4]));
            var m := old(maxLabel);
            && r == Ok(ForCode(codes[2], codes[4], arg, codes[6], codes[8], m + 1, m + 2))
            && PoolState() == ReleaseAll(old(PoolState()).(maxLabel := m + 2), TempsOf([arg])))
    }

    /** `Stmt -> return ReturnValue`: `ReturnCode` inside a named function,
        the value's temporary released when it is not `void`. */
    twostate predicate ReturnProduced(n: nat, codes: seq<seq<Elem>>, new r: Result<seq<Elem>, Fault>)
      requires n < |tree.nodes| && |codes| == |tree.nodes[n].children|
      reads this
    {
      && (|codes| <= 1 ==> r == Err(IndexError) && PoolState() == old(PoolState()))
      && (|codes| > 1 ==>
            var rv := tree.nodes[n].children[1];
            var dataType := AttrsAt(rv).dataType;
            var arg := ArgOf(ArgAt(rv));
            && PoolState() == (if dataType != Void then ReleaseAll(old(PoolState()), TempsOf([arg])) else old(PoolState()))
            && (n !in enclosing ==> r == Err(AssertionError))
            && (n in enclosing && AttrsAt(enclosing[n]).name.None? ==> r == Err(KeyError("name")))
            && (n in enclosing && AttrsAt(enclosing[n]).name.Some? ==>
                  r == Ok(ReturnCode(dataType, codes[1], arg, AttrsAt(enclosing[n]).name.value))))
    }

    /** `Stmt -> read Var ;`: `read` into the variable, a `KeyError` when
        it has no ident; the pool is untouched. */
    twostate predicate ReadProduced(n: nat, codes: seq<seq<Elem>>, new r: Result<seq<Elem>, Fault>)
      requires n < |tree.nodes| && |codes| == |tree.nodes[n].children|
      reads this
    {
      && PoolState() == old(PoolState())
      && (r.Ok? <==> |codes| > 1 && AttrsAt(tree.nodes[n].children[1]).ident.Some?)
      && (r.Ok? ==>
            var a := AttrsAt(tree.nodes[n].children[1]);
            r.value == [Inst("read", [Opd(Ident(a.dataType, Named(a.ident.value)))])])
      && (|codes| > 1 && r.Err? ==> r.error == KeyError("ident"))
    }

    /** `Stmt -> print Expr ;`: the expression's code and a `print` of its
        operand, whose temporary is released. */
    twostate predicate PrintProduced(n: nat, codes: seq<seq<Elem>>, new r: Result<seq<Elem>, Fault>)
      requires n < |tree.nodes| && |codes| == |tree.nodes[n].children|
      reads this
    {
      && (|codes| <= 1 ==> r == Err(IndexError) && PoolState() == old(PoolState()))
      && (|codes| > 1 ==>
            var arg := ArgOf(ArgAt(tree.nodes[n].children[1]));
            && r == Ok(codes[1] + [Inst("print", [arg])])
            && PoolState() == ReleaseAll(old(PoolState()), TempsOf([arg])))
    }

    /** `Produce.Stmt` by the statement's derivation: each keyword's form,
        a marker for `break` and `continue`, and the children's code for the
        rest (an assignment, `eval`, a block). */
    twostate predicate StmtProduced(n: nat, codes: seq<seq<Elem>>, new r: Result<seq<Elem>, Fault>)
      requires n < |tree.nodes| && |codes| == |tree.nodes[n].children| && old(maxLabel) >= -1
      reads this
    {
      match KeyAt(n)
      case Err(e) => r == Err(e) && PoolState() == old(PoolState())
      case Ok(key) =>
        if key == "if" then IfProduced(n, codes, r)
        else if key == "while" then WhileProduced(n, codes, r)
        else if key == "do" then DoProduced(n, codes, r)
        else if key == "for" then ForProduced(n, codes, r)
        else if key == "break" then r == Ok([BreakMark]) && PoolState() == old(PoolState())
        else if key == "continue" then r == Ok([ContinueMark]) && PoolState() == old(PoolState())
        else if key == "return" then ReturnProduced(n, codes, r)
        else if key == "read" then ReadProduced(n, codes, r)
        else if key == "print" then PrintProduced(n, codes, r)
        else r == Ok(Concat(codes)) && PoolState() == old(PoolState())
    }

    /** Two labels handed out in turn, then `new_inst(cmd, arg, label)`
        jumping to the first of them or to the second. */
    method LabelPairJump(cmd: string, arg: Arg, toFirst: bool) returns (first: string, second: string, jump: Elem)
      requires Valid() && cmd !in Exempt
      modifies this
      ensures Valid() && emitted == old(emitted) && maxLabel == old(maxLabel) + 2
      ensures
        var m := old(maxLabel);
        && first == Label(m + 1) && second == Label(m + 2)
        && jump == Inst(cmd, [arg, Word(if toFirst then first else second)])
        && PoolState() == ReleaseAll(old(PoolState()).(maxLabel := m + 2), TempsOf([arg]))
    {
      first := GetLabel();
      second := GetLabel();
      var target := if toFirst then first else second;
      JumpReleases(cmd, arg, Word(target));
      jump := NewInst(cmd, [arg, Word(target)]);
    }

    /** `Stmt -> if ( Expr ) Stmt Else`: see `IfCode`; the two labels are
        handed out after the children were translated. */
    method StmtIf(n: nat, codes: seq<seq<Elem>>, ghost bounds: seq<int>) returns (r: Result<seq<Elem>, Fault>)
      requires Ready(n, codes, bounds)
      modifies this
      ensures Produced(n, bounds, r) && emitted == old(emitted)
      ensures |codes| <= 5 ==> r == Err(IndexError) && PoolState() == old(PoolState())
      ensures |codes| > 5 ==>
                var arg := ArgOf(ArgAt(tree.nodes[n].children[2]));
                var m := old(maxLabel);
                && r == Ok(IfCode(codes[2], arg, codes[4], codes[5], m + 1, m + 2))
                && PoolState() == ReleaseAll(old(PoolState()).(maxLabel := m + 2), TempsOf([arg]))
    {
      if |codes| <= 5 {
        return Err(IndexError);
      }
      var arg := ArgOf(ArgAt(tree.nodes[n].children[2]));
      ghost var m := maxLabel;
      var pre, post, jump := LabelPairJump("goto_if_false", arg, true);
      var skip := Inst("goto", [Word(post)]);
      var preLabel := Inst("label", [Word(pre)]);
      var postLabel := Inst("label", [Word(post)]);
      r := Ok((codes[2] + [jump] + codes[4] + [skip]) + ([preLabel] + codes[5]) + [postLabel]);
      assert r.value == IfCode(codes[2], arg, codes[4], codes[5], m + 1, m + 2);
      if CallListsShaped() {
        IfWithin(codes, bounds, arg, m);
      }
    }

    /** `Stmt -> while ( Expr ) Stmt`: see `WhileCode`. */
    method StmtWhile(n: nat, codes: seq<seq<Elem>>, ghost bounds: seq<int>) returns (r: Result<seq<Elem>, Fault>)
      requires Ready(n, codes, bounds)
      modifies this
      ensures Produced(n, bounds, r) && emitted == old(emitted)
      ensures |codes| <= 4 ==> r == Err(IndexError) && PoolState() == old(PoolState())
      ensures |codes| > 4 ==>
                var arg := ArgOf(ArgAt(tree.nodes[n].children[2]));
                var m := old(maxLabel);
                && r == Ok(WhileCode(codes[2], arg, codes[4], m + 1, m + 2))
                && PoolState() == ReleaseAll(old(PoolState()).(maxLabel := m + 2), TempsOf([arg]))
    {
      if |codes| <= 4 {
        return Err(IndexError);
      }
      var arg := ArgOf(ArgAt(tree.nodes[n].children[2]));
      ghost var m := maxLabel;
      var back, tail, exit := LabelPairJump("goto_if_false", arg, false);
      var body := PatchCode(codes[4], back, tail);
      var backLabel := Inst("label", [Word(back)]);
      var loop := Inst("goto", [Word(back)]);
      var tailLabel := Inst("label", [Word(tail)]);
      r := Ok([backLabel] + (codes[2] + [exit] + body) + [loop, tailLabel]);
      assert r.value == WhileCode(codes[2], arg, codes[4], m + 1, m + 2);
      if CallListsShaped() {
        WhileWithin(codes, bounds, arg, m);
      }
    }

    /** `Stmt -> do Stmt while ( Expr ) ;`: see `DoCode`. */
    method StmtDo(n: nat, codes: seq<seq<Elem>>, ghost bounds: seq<int>) returns (r: Result<seq<Elem>, Fault>)
      requires Ready(n, codes, bounds)
      modifies this
      ensures Produced(n, bounds, r) && emitted == old(emitted)
      ensures |codes| <= 4 ==> r == Err(IndexError) && PoolState() == old(PoolState())
      ensures |codes| > 4 ==>
                var arg := ArgOf(ArgAt(tree.nodes[n].children[4]));
                var m := old(maxLabel);
                && r == Ok(DoCode(codes[1], codes[4], arg, m + 1, m + 2))
                && PoolState() == ReleaseAll(old(PoolState()).(maxLabel := m + 2), TempsOf([arg]))
    {
      if |codes| <= 4 {
        return Err(IndexError);
      }
      var arg := ArgOf(ArgAt(tree.nodes[n].children[4]));
      ghost var m := maxLabel;
      var back, tail, loop := LabelPairJump("goto_if", arg, true);
      var body := PatchCode(codes[1], back, tail);
      var backLabel := Inst("label", [Word(back)]);
      var tailLabel := Inst("label", [Word(tail)]);
      r := Ok([backLabel] + (body + codes[4] + [loop]) + [tailLabel]);
      assert r.value == DoCode(codes[1], codes[4], arg, m + 1, m + 2);
      if CallListsShaped() {
        DoWithin(codes, bounds, arg, m);
      }
    }

    /** `Stmt -> for ( Assign ; Expr ; Assign ) Stmt`: see `ForCode`. */
    method StmtFor(n: nat, codes: seq<seq<Elem>>, ghost bounds: seq<int>) returns (r: Result<seq<Elem>, Fault>)
      requires Ready(n, codes, bounds)
      modifies this
      ensures Produced(n, bounds, r) && emitted == old(emitted)
      ensures |codes| <= 8 ==> r == Err(IndexError) && PoolState() == old(PoolState())
      ensures |codes| > 8 ==>
                var arg := ArgOf(ArgAt(tree.nodes[n].children[4]));
                var m := old(maxLabel);
                && r == Ok(ForCode(codes[2], codes[4], arg, codes[6], codes[8], m + 1, m + 2))
                && PoolState() == ReleaseAll(old(PoolState()).(maxLabel := m + 2), TempsOf([arg]))
    {
      if |codes| <= 8 {
        return Err(IndexError);
      }
      var arg := ArgOf(ArgAt(tree.nodes[n].children[4]));
      ghost var m := maxLabel;
      var back, tail, exit := LabelPairJump("goto_if_false", arg, false);
      var body := PatchCode(codes[8], back, tail);
      var backLabel := Inst("label", [Word(back)]);
      var loop := Inst("goto", [Word(back)]);
      var tailLabel := Inst("label", [Word(tail)]);
      r := Ok(codes[2] + ([backLabel] + (codes[4] + [exit] + (body + codes[6]))) + [loop, tailLabel]);
      assert r.value == ForCode(codes[2], codes[4], arg, codes[6], codes[8], m + 1, m + 2);
      if CallListsShaped() {
        ForWithin(codes, bounds, arg, m);
      }
    }

    /** `Stmt -> return ReturnValue`: see `ReturnCode`. A return outside
        any function fails the source's `assert node.function`. */
    method StmtReturn(n: nat, codes: seq<seq<Elem>>, ghost bounds: seq<int>) returns (r: Result<seq<Elem>, Fault>)
      requires Ready(n, codes, bounds)
      modifies this
      ensures Produced(n, bounds, r) && emitted == old(emitted)
      ensures |codes| <= 1 ==> r == Err(IndexError) && PoolState() == old(PoolState())
      ensures |codes| > 1 ==>
                var rv := tree.nodes[n].children[1];
                var dataType := AttrsAt(rv).dataType;
                var arg := ArgOf(ArgAt(rv));
                && PoolState() == (if dataType != Void then ReleaseAll(old(PoolState()), TempsOf([arg])) else old(PoolState()))
                && (n !in enclosing ==> r == Err(AssertionError))
                && (n in enclosing && AttrsAt(enclosing[n]).name.None? ==> r == Err(KeyError("name")))
                && (n in enclosing && AttrsAt(enclosing[n]).name.Some? ==>
                      r == Ok(ReturnCode(dataType, codes[1], arg, AttrsAt(enclosing[n]).name.value)))
    {
      if |codes| <= 1 {
        return Err(IndexError);
      }
      var rv := tree.nodes[n].children[1];
      var dataType := AttrsAt(rv).dataType;
      var code: seq<Elem> := [];
      var arg := ArgOf(ArgAt(rv));
      if dataType != Void {
        var retval := Opd(Ident(dataType, RetVal));
        MovReleases(retval, arg);
        var mov := NewInst("mov", [retval, arg]);
        code := codes[1] + [mov];
      }
      if n !in enclosing {
        return Err(AssertionError);
      }
      var name :- Definition.Need(AttrsAt(enclosing[n]).name, "name");
      r := Ok(code + [Inst(if name == Main then "exit" else "ret", [])]);
      if CallListsShaped() {
        ReturnWithin(codes, bounds, dataType, arg, name);
      }
    }

    /** `Stmt -> read Var ;`: `read` into the variable. */
    method StmtRead(n: nat, codes: seq<seq<Elem>>, ghost bounds: seq<int>) returns (r: Result<seq<Elem>, Fault>)
      requires Ready(n, codes, bounds)
      modifies this
      ensures Produced(n, bounds, r) && emitted == old(emitted)
      ensures PoolState() == old(PoolState())
      ensures r.Ok? <==> |codes| > 1 && AttrsAt(tree.nodes[n].children[1]).ident.Some?
      ensures r.Ok? ==>
                var a := AttrsAt(tree.nodes[n].children[1]);
                r.value == [Inst("read", [Opd(Ident(a.dataType, Named(a.ident.value)))])]
      ensures |codes| > 1 && r.Err? ==> r.error == KeyError("ident")
    {
      if |codes| <= 1 {
        return Err(IndexError);
      }
      var v := tree.nodes[n].children[1];
      var ident :- Definition.Need(AttrsAt(v).ident, "ident");
      var dataType := AttrsAt(v).dataType;
      r := Ok([Inst("read", [Opd(Ident(dataType, Named(ident)))])]);
      PlainWithin(r.value, Range(bounds[0], maxLabel));
    }

    /** `Stmt -> print Expr ;`: the expression's code, then `print` of its
        operand. */
    method StmtPrint(n: nat, codes: seq<seq<Elem>>, ghost bounds: seq<int>) returns (r: Result<seq<Elem>, Fault>)
      requires Ready(n, codes, bounds)
      modifies this
      ensures Produced(n, bounds, r) && emitted == old(emitted)
      ensures |codes| <= 1 ==> r == Err(IndexError) && PoolState() == old(PoolState())
      ensures |codes| > 1 ==>
                var arg := ArgOf(ArgAt(tree.nodes[n].children[1]));
                && r == Ok(codes[1] + [Inst("print", [arg])])
                && PoolState() == ReleaseAll(old(PoolState()), TempsOf([arg]))
    {
      if |codes| <= 1 {
        return Err(IndexError);
      }
      var arg := ArgOf(ArgAt(tree.nodes[n].children[1]));
      PrintReleases(arg);
      var printInst := NewInst("print", [arg]);
      r := Ok(codes[1] + [printInst]);
      if CallListsShaped() {
        PrintWithin(codes, bounds, arg);
      }
    }

    /** `Produce.Stmt`: dispatches on the statement's derivation; `break`
        and `continue` leave a marker for the enclosing loop to patch, and
        the other statements (an assignment, `eval`, a block) are their
        children's code. */
    method ProduceStmt(n: nat, codes: seq<seq<Elem>>, ghost bounds: seq<int>) returns (r: Result<seq<Elem>, Fault>)
      requires Ready(n, codes, bounds)
      modifies this
      ensures Produced(n, bounds, r) && emitted == old(emitted)
      ensures StmtProduced(n, codes, r)
    {
      var key :- KeyAt(n);
      if key == "if" {
        r := StmtIf(n, codes, bounds);
      } else if key == "while" {
        r := StmtWhile(n, codes, bounds);
      } else if key == "do" {
        r := StmtDo(n, codes, bounds);
      } else if key == "for" {
        r := StmtFor(n, codes, bounds);
      } else if key == "break" {
        r := Ok([BreakMark]);
        PlainMarkers(r.value, Range(bounds[0], maxLabel));
      } else if key == "continue" {
        r := Ok([ContinueMark]);
        PlainMarkers(r.value, Range(bounds[0], maxLabel));
      } else if key == "return" {
        r := StmtReturn(n, codes, bounds);
      } else if key == "read" {
        r := StmtRead(n, codes, bounds);
      } else if key == "print" {
        r := StmtPrint(n, codes, bounds);
      } else {
        var code := ExpandCodeList(codes);
        r := Ok(code);
        if CallListsShaped() {
          StagedConcat(codes, bounds);
        }
      }
    }

    /** `Produce.ReturnValue`: `return Expr;` passes the expression's operand
        up; the code is the children's. */
    method ProduceReturnValue(n: nat, codes: seq<seq<Elem>>, ghost bounds: seq<int>) returns (r: Result<seq<Elem>, Fault>)
      requires Ready(n, codes, bounds)
      modifies this
      ensures Produced(n, bounds, r)
      ensures PoolState() == old(PoolState())
      ensures r.Ok? <==> KeyAt(n).Ok? && (KeyAt(n).value == "Expr" ==> |codes| > 0)
      ensures r.Ok? ==> r.value == Concat(codes)
      ensures r.Ok? && KeyAt(n).value == "Expr" ==> ArgAt(n) == old(ArgAt(tree.nodes[n].children[0]))
      ensures !(r.Ok? && KeyAt(n).value == "Expr") ==> emitted == old(emitted)
    {
      var key :- KeyAt(n);
      if key == "Expr" {
        if |codes| == 0 {
          return Err(IndexError);
        }
        var c := tree.nodes[n].children[0];
        emitted := emitted[n := OutAt(n).(arg := ArgAt(c))];
      }
      var code := ExpandCodeList(codes);
      r := Ok(code);
      if CallListsShaped() {
        StagedConcat(codes, bounds);
      }
    }

    /** `Produce.Assign`: the expression's code, then a `mov` of its operand
        into the variable. */
    method ProduceAssign(n: nat, codes: seq<seq<Elem>>, ghost bounds: seq<int>) returns (r: Result<seq<Elem>, Fault>)
      requires Ready(n, codes, bounds)
      modifies this
      ensures Produced(n, bounds, r) && emitted == old(emitted)
      ensures r.Ok? <==> |codes| > 2 && AttrsAt(tree.nodes[n].children[0]).ident.Some?
      ensures r.Ok? ==>
                var cs := tree.nodes[n].children;
                var a := AttrsAt(cs[0]);
                var src := ArgOf(ArgAt(cs[2]));
                && r.value == codes[2] + [Inst("mov", [Opd(Ident(a.dataType, Named(a.ident.value))), src])]
                && PoolState() == ReleaseAll(old(PoolState()), TempsOf([src]))
    {
      if |codes| == 0 {
        return Err(IndexError);
      }
      var cs := tree.nodes[n].children;
      var ident :- Definition.Need(AttrsAt(cs[0]).ident, "ident");
      var dataType := AttrsAt(cs[0]).dataType;
      var target := Opd(Ident(dataType, Named(ident)));
      if |codes| <= 2 {
        return Err(IndexError);
      }
      var src := ArgOf(ArgAt(cs[2]));
      MovReleases(target, src);
      var mov := NewInst("mov", [target, src]);
      r := Ok(codes[2] + [mov]);
      if CallListsShaped() {
        PartWithin(codes, bounds, 2, [], [mov]);
      }
      assert [] + codes[2] + [mov] == r.value;
    }

    /** `Produce.ParExpr`: the inner expression's operand passes up. */
    method ProduceParExpr(n: nat, codes: seq<seq<Elem>>, ghost bounds: seq<int>) returns (r: Result<seq<Elem>, Fault>)
      requires Ready(n, codes, bounds)
      modifies this
      ensures Produced(n, bounds, r) && PoolState() == old(PoolState())
      ensures r.Ok? <==> |codes| > 1
      ensures r.Ok? ==> r.value == Concat(codes) && ArgAt(n) == old(ArgAt(tree.nodes[n].children[1]))
      ensures r.Err? ==> emitted == old(emitted)
    {
      if |codes| <= 1 {
        return Err(IndexError);
      }
      var c := tree.nodes[n].children[1];
      emitted := emitted[n := OutAt(n).(arg := ArgAt(c))];
      var code := ExpandCodeList(codes);
      r := Ok(code);
      if CallListsShaped() {
        StagedConcat(codes, bounds);
      }
    }

    /** `Produce.Oprand`: a variable or call passes its operand up; a
        literal becomes an immediate of the node's type holding the token's
        text. */
    method ProduceOprand(n: nat, codes: seq<seq<Elem>>, ghost bounds: seq<int>) returns (r: Result<seq<Elem>, Fault>)
      requires Ready(n, codes, bounds)
      modifies this
      ensures Produced(n, bounds, r) && PoolState() == old(PoolState())
      ensures r.Ok? ==> |codes| > 0 && KeyAt(n).Ok? && r.value == Concat(codes)
      ensures r.Ok? && KeyAt(n).value == "VarCall" ==> ArgAt(n) == old(ArgAt(tree.nodes[n].children[0]))
      ensures r.Ok? && KeyAt(n).value != "VarCall" ==>
                var c := tree.nodes[n].children[0];
                c in tree.tokens && ArgAt(n) == Some(Data(AttrsAt(n).dataType, Text(tree.tokens[c].text)))
      ensures r.Err? ==> emitted == old(emitted)
    {
      var dataType := AttrsAt(n).dataType;
      if |codes| == 0 {
        return Err(IndexError);
      }
      var child := tree.nodes[n].children[0];
      var key :- KeyAt(n);
      var arg;
      if key == "VarCall" {
        arg := ArgAt(child);
      } else {
        var token :- Definition.TokenOf(tree, child, "string");
        arg := Some(Data(dataType, Text(token.text)));
      }
      emitted := emitted[n := OutAt(n).(arg := arg)];
      var code := ExpandCodeList(codes);
      r := Ok(code);
      if CallListsShaped() {
        StagedConcat(codes, bounds);
      }
    }

    /** `Produce.VarCall`: a variable names itself; a call is its
        arguments' code and `call`, and a non-void call's result is moved
        from the result register into a temporary. */
    method ProduceVarCall(n: nat, codes: seq<seq<Elem>>, ghost bounds: seq<int>) returns (r: Result<seq<Elem>, Fault>)
      requires Ready(n, codes, bounds)
      modifies this
      ensures Produced(n, bounds, r)
      ensures Definition.ChildText(tree, n, 0).Err? ==>
                r == Definition.ChildText(tree, n, 0).PropagateFailure() && PoolState() == old(PoolState()) && emitted == old(emitted)
      ensures Definition.ChildText(tree, n, 0).Ok? ==>
                var ident := Definition.ChildText(tree, n, 0).value;
                var a := AttrsAt(n);
                && (a.varType.None? ==> r == Err(KeyError("var_type")) && PoolState() == old(PoolState()) && emitted == old(emitted))
                && (a.varType == Some(ArrayRef) ==> r == Err(UnboundLocalError("arg")) && PoolState() == old(PoolState()) && emitted == old(emitted))
                && (a.varType == Some(VarRef) ==> r == Ok([]) && PoolState() == old(PoolState()) && ArgAt(n) == Some(Ident(a.dataType, Named(ident))))
                && (a.varType == Some(CallRef) && |codes| <= 1 ==> r == Err(IndexError) && PoolState() == old(PoolState()) && emitted == old(emitted))
      ensures Definition.ChildText(tree, n, 0).Ok? && AttrsAt(n).varType == Some(CallRef) && |codes| > 1 ==>
                var call := Inst("call", [Word(Definition.ChildText(tree, n, 0).value)]);
                var dataType := AttrsAt(n).dataType;
                if dataType == Void then
                  r == Ok(codes[1] + [call]) && ArgAt(n) == None && PoolState() == old(PoolState())
                else
                  var (x, p) := TakeIdent(old(PoolState()));
                  && r == Ok(codes[1] + [call, Inst("mov", [Opd(Ident(dataType, x)), Opd(Ident(dataType, GetVal))])])
                  && ArgAt(n) == Some(Ident(dataType, x))
                  && PoolState() == p
    {
      var ident :- Definition.ChildText(tree, n, 0);
      var varType :- Definition.Need(AttrsAt(n).varType, "var_type");
      var dataType := AttrsAt(n).dataType;
      match varType {
        case VarRef =>
          emitted := emitted[n := OutAt(n).(arg := Some(Ident(dataType, Named(ident))))];
          r := Ok([]);
          PlainWithin([], Range(bounds[0], maxLabel));
        case ArrayRef =>
          r := Err(UnboundLocalError("arg"));
        case CallRef =>
          if |codes| <= 1 {
            return Err(IndexError);
          }
          var call := Inst("call", [Word(ident)]);
          if dataType == Void {
            emitted := emitted[n := OutAt(n).(arg := None)];
            r := Ok(codes[1] + [call]);
            if CallListsShaped() {
              ChildThen(codes, bounds, 1, [call]);
            }
          } else {
            var x := GetIdent();
            var tail := [call, Inst("mov", [Opd(Ident(dataType, x)), Opd(Ident(dataType, GetVal))])];
            emitted := emitted[n := OutAt(n).(arg := Some(Ident(dataType, x)))];
            r := Ok(codes[1] + tail);
            if CallListsShaped() {
              ChildThen(codes, bounds, 1, tail);
            }
          }
      }
    }

    /** `Produce.ArgList`: records the operands of all the arguments as
        `args`, then each argument's code followed by its `override`. */
    method ProduceArgList(n: nat, codes: seq<seq<Elem>>, ghost bounds: seq<int>) returns (r: Result<seq<Elem>, Fault>)
      requires Ready(n, codes, bounds) && tree.nodes[n].item == "ArgList"
      modifies this
      ensures Produced(n, bounds, r)
      ensures |codes| == 0 ==> r == Ok([]) && PoolState() == old(PoolState()) && emitted == old(emitted)
      ensures |codes| > 0 && old(OutAt(tree.nodes[n].children[|codes| - 1])).args.None? ==>
                r == Err(KeyError("args")) && PoolState() == old(PoolState()) && emitted == old(emitted)
      ensures |codes| > 0 && old(OutAt(tree.nodes[n].children[|codes| - 1])).args.Some? ==>
                var cs := tree.nodes[n].children;
                var args := [old(ArgAt(cs[0]))] + old(OutAt(cs[|codes| - 1])).args.value;
                && OutAt(n).args == Some(args)
                && (AttrsAt(n).argTypes.None? ==> r == Err(KeyError("arg_types")) && PoolState() == old(PoolState()))
                && (AttrsAt(n).argTypes.Some? ==>
                      var code := OverrideCode(codes[0], codes[|codes| - 1], AttrsAt(n).argTypes.value, ArgsOf(args), |args|);
                      && r == code
                      && (r.Ok? ==> PoolState() == ReleaseAll(old(PoolState()), TempsOf(ArgsOf(args)))))
    {
      if |codes| == 0 {
        r := Ok([]);
        PlainWithin([], Range(bounds[0], maxLabel));
        return;
      }
      var cs := tree.nodes[n].children;
      var arg := ArgAt(cs[0]);
      var restArgs :- Definition.Need(OutAt(cs[|codes| - 1]).args, "args");
      var args := [arg] + restArgs;
      emitted := emitted[n := OutAt(n).(args := Some(args))];
      var types :- Definition.Need(AttrsAt(n).argTypes, "arg_types");
      var operands := ArgsOf(args);
      var first, rest := codes[0], codes[|codes| - 1];
      var result: seq<Elem> := [];
      ghost var p0 := PoolState();
      for i := 0 to |args|
        invariant Valid() && maxLabel == old(maxLabel) && OutAt(n).args == Some(args)
        invariant OnlyAt(old(emitted), emitted, n)
        invariant OverrideCode(first, rest, types, operands, i) == Ok(result)
        invariant PoolState() == ReleaseAll(p0, TempsOf(operands[..i]))
      {
        if ArgPart(first, rest, i).Err? || i >= |types| {
          OverrideFault(first, rest, types, operands, |args|, i);
          return Err(if ArgPart(first, rest, i).Err? then ArgPart(first, rest, i).error else IndexError);
        }
        var part := ArgPart(first, rest, i).value;
        var slot := Opd(Ident(types[i], ArgSlot(i)));
        DestinationKept("override", slot, [operands[i]]);
        OverrideStep(p0, operands, i);
        var ov := NewInst("override", [slot, operands[i]]);
        result := result + part + [ov];
      }
      assert operands[..|args|] == operands;
      r := Ok(result);
      if CallListsShaped() {
        assert tree.nodes[n].item == "ArgList" ==> |tree.nodes[n].children| != 1;
        ArgListWithin(codes, bounds, types, operands);
      }
    }

    /** `Produce.ArgListRight`: records the operands of the rest of the
        arguments as `args` and passes their code lists up, one element
        per argument. */
    method ProduceArgListRight(n: nat, codes: seq<seq<Elem>>, ghost bounds: seq<int>) returns (r: Result<seq<Elem>, Fault>)
      requires Ready(n, codes, bounds) && tree.nodes[n].item == "ArgListRight"
      modifies this
      ensures Produced(n, bounds, r) && PoolState() == old(PoolState())
      ensures |codes| == 0 ==> r == Ok([]) && OutAt(n).args == Some([])
      ensures |codes| == 1 ==> r == Err(IndexError) && emitted == old(emitted)
      ensures |codes| > 1 ==>
                var cs := tree.nodes[n].children;
                var rest := old(OutAt(cs[|codes| - 1])).args;
                && (rest.None? ==> r == Err(KeyError("args")) && emitted == old(emitted))
                && (rest.Some? ==> r == Ok(RightCode(codes)) && OutAt(n).args == Some([old(ArgAt(cs[1]))] + rest.value))
    {
      if |codes| == 0 {
        emitted := emitted[n := OutAt(n).(args := Some([]))];
        r := Ok([]);
        PlainWithin([], Range(bounds[0], maxLabel));
        return;
      }
      if |codes| == 1 {
        return Err(IndexError);
      }
      var cs := tree.nodes[n].children;
      var arg := ArgAt(cs[1]);
      var restArgs :- Definition.Need(OutAt(cs[|codes| - 1]).args, "args");
      emitted := emitted[n := OutAt(n).(args := Some([arg] + restArgs))];
      r := Ok([Group(codes[1])] + codes[|codes| - 1]);
      if CallListsShaped() {
        assert tree.nodes[n].item == "ArgListRight" ==> |tree.nodes[n].children| != 2;
        RightCodeWithin(codes, bounds);
      }
    }

    /** `Produce.Unary`: `+`, a parenthesised expression and an operand
        pass the operand up; `-` subtracts it from 0 and `!` negates it,
        into a temporary taken before the operand's is released. */
    method ProduceUnary(n: nat, codes: seq<seq<Elem>>, ghost bounds: seq<int>) returns (r: Result<seq<Elem>, Fault>)
      requires Ready(n, codes, bounds)
      modifies this
      ensures Produced(n, bounds, r)
      ensures KeyAt(n).Err? || |codes| == 0 ==> r == Err(IndexError) && PoolState() == old(PoolState()) && emitted == old(emitted)
      ensures KeyAt(n).Ok? && |codes| > 0 ==>
                var key := KeyAt(n).value;
                var operand := old(ArgAt(tree.nodes[n].children[|codes| - 1]));
                && (key in PassKeys ==> r == Ok(Concat(codes)) && ArgAt(n) == operand && PoolState() == old(PoolState()))
                && (key !in PassKeys && key != "-" && key != "!" ==>
                      r == Err(AssertionError) && PoolState() == old(PoolState()) && emitted == old(emitted))
      ensures KeyAt(n).Ok? && |codes| > 0 && (KeyAt(n).value == "-" || KeyAt(n).value == "!") ==>
                var dataType := AttrsAt(n).dataType;
                var operand := ArgOf(old(ArgAt(tree.nodes[n].children[|codes| - 1])));
                var (x, p) := TakeIdent(old(PoolState()));
                && r == Ok(Concat(codes) + [UnaryInst(KeyAt(n).value, dataType, x, operand)])
                && ArgAt(n) == Some(Ident(dataType, x))
                && PoolState() == ReleaseAll(p, TempsOf([operand]))
    {
      var key :- KeyAt(n);
      if |codes| == 0 {
        return Err(IndexError);
      }
      if key in PassKeys {
        r := PassUp(n, codes, bounds, |codes| - 1);
      } else if key == "-" || key == "!" {
        r := UnaryCalc(n, codes, bounds, key);
      } else {
        r := Err(AssertionError);
      }
    }

    /** The children's code, with the operand of child k passed up as the
        node's `arg`. */
    method PassUp(n: nat, codes: seq<seq<Elem>>, ghost bounds: seq<int>, k: nat) returns (r: Result<seq<Elem>, Fault>)
      requires Ready(n, codes, bounds) && k < |codes|
      modifies this
      ensures Produced(n, bounds, r) && PoolState() == old(PoolState())
      ensures r == Ok(Concat(codes)) && ArgAt(n) == old(ArgAt(tree.nodes[n].children[k]))
      ensures OutAt(n) == old(OutAt(n)).(arg := ArgAt(n))
    {
      emitted := emitted[n := OutAt(n).(arg := ArgAt(tree.nodes[n].children[k]))];
      var body := ExpandCodeList(codes);
      r := Ok(body);
      if CallListsShaped() {
        StagedConcat(codes, bounds);
      }
    }

    /** `-` and `!` of `Produce.Unary`. */
    method UnaryCalc(n: nat, codes: seq<seq<Elem>>, ghost bounds: seq<int>, key: string) returns (r: Result<seq<Elem>, Fault>)
      requires Ready(n, codes, bounds) && |codes| > 0 && (key == "-" || key == "!")
      modifies this
      ensures Produced(n, bounds, r)
      ensures
        var dataType := AttrsAt(n).dataType;
        var operand := ArgOf(old(ArgAt(tree.nodes[n].children[|codes| - 1])));
        var (x, p) := TakeIdent(old(PoolState()));
        && r == Ok(Concat(codes) + [UnaryInst(key, dataType, x, operand)])
        && ArgAt(n) == Some(Ident(dataType, x))
        && PoolState() == ReleaseAll(p, TempsOf([operand]))
    {
      var body := ExpandCodeList(codes);
      var operand := ArgOf(ArgAt(tree.nodes[n].children[|codes| - 1]));
      var dataType := AttrsAt(n).dataType;
      var zero := Data(dataType, IntLit(0));
      var srcs := if key == "-" then [Opd(zero), operand] else [operand];
      ImmediateKept(zero, operand);
      var x, e := Calculate(if key == "-" then "minus" else "not", dataType, srcs);
      UnaryCalcInst(key, dataType, x, operand);
      emitted := emitted[n := OutAt(n).(arg := Some(Ident(dataType, x)))];
      r := Ok(body + [e]);
      assert maxLabel == bounds[|codes|];
      if CallListsShaped() {
        ConcatWithin(codes, bounds, [e]);
      }
    }

    /** `Produce.HandleCalc` and `HandleCalcItem`, for the chain rule with
        operator map ops (the `...Right` rule when right holds): with a
        non-empty rest of the chain, one calculation of the chain's
        operator on the item's operand and the rest's, into a temporary
        taken before either is released; otherwise the item's operand
        passes up. A node that starts with an operator records it as `op`
        for the node above. */
    method ProduceCalc(n: nat, codes: seq<seq<Elem>>, ghost bounds: seq<int>, ops: map<string, string>, right: bool)
      returns (r: Result<seq<Elem>, Fault>)
      requires Ready(n, codes, bounds) && ops.Values <= Machine.Calculations
      modifies this
      ensures Produced(n, bounds, r)
      ensures right && |codes| == 0 ==> r == Ok([]) && PoolState() == old(PoolState()) && emitted == old(emitted)
      ensures (!right && |codes| == 0) || (right && |codes| == 1) ==>
                r == Err(IndexError) && PoolState() == old(PoolState()) && emitted == old(emitted)
      ensures |codes| > (if right then 1 else 0) ==>
                var cs := tree.nodes[n].children;
                var left := cs[if right then 1 else 0];
                var rest := cs[|codes| - 1];
                var item := ArgOf(old(ArgAt(left)));
                var chain := ArgOf(old(ArgAt(rest)));
                var op := old(OutAt(rest)).op;
                var dataType := AttrsAt(n).dataType;
                if HasChildren(rest) then
                  && (op.None? ==> r == Err(KeyError("op")) && PoolState() == old(PoolState()) && emitted == old(emitted))
                  && (op.Some? ==>
                        var (x, p) := TakeIdent(old(PoolState()));
                        && (op.value !in ops ==> r == Err(KeyError(op.value)) && PoolState() == p && emitted == old(emitted))
                        && (op.value in ops ==>
                              && PoolState() == ReleaseAll(p, TempsOf([item, chain]))
                              && ArgAt(n) == Some(Ident(dataType, x))
                              && OpRecorded(n, ops, r)
                              && (r.Ok? ==> r.value == Concat(codes) + [Inst(ops[op.value], [Opd(Ident(dataType, x)), item, chain])])))
                else
                  && PoolState() == old(PoolState())
                  && OpRecorded(n, ops, r)
                  && (r.Ok? ==> r.value == Concat(codes) && ArgAt(n) == old(ArgAt(left)))
    {
      if right && |codes| == 0 {
        r := Ok([]);
        PlainWithin([], Range(bounds[0], maxLabel));
        return;
      }
      if |codes| <= (if right then 1 else 0) {
        return Err(IndexError);
      }
      var left := if right then 1 else 0;
      if HasChildren(tree.nodes[n].children[|codes| - 1]) {
        r := CalcFold(n, codes, bounds, ops, left);
      } else {
        r := CalcPass(n, codes, bounds, ops, left);
      }
    }

    /** A chain node with a non-empty rest: the calculation of the rest's
        operator on the operands of child k and of the rest. */
    method CalcFold(n: nat, codes: seq<seq<Elem>>, ghost bounds: seq<int>, ops: map<string, string>, k: nat)
      returns (r: Result<seq<Elem>, Fault>)
      requires Ready(n, codes, bounds) && ops.Values <= Machine.Calculations && k < |codes|
      modifies this
      ensures Produced(n, bounds, r)
      ensures
        var cs := tree.nodes[n].children;
        var item := ArgOf(old(ArgAt(cs[k])));
        var chain := ArgOf(old(ArgAt(cs[|codes| - 1])));
        var op := old(OutAt(cs[|codes| - 1])).op;
        var dataType := AttrsAt(n).dataType;
        && (op.None? ==> r == Err(KeyError("op")) && PoolState() == old(PoolState()) && emitted == old(emitted))
        && (op.Some? ==>
              var (x, p) := TakeIdent(old(PoolState()));
              && (op.value !in ops ==> r == Err(KeyError(op.value)) && PoolState() == p && emitted == old(emitted))
              && (op.value in ops ==>
                    && PoolState() == ReleaseAll(p, TempsOf([item, chain]))
                    && ArgAt(n) == Some(Ident(dataType, x))
                    && OpRecorded(n, ops, r)
                    && (r.Ok? ==> r.value == Concat(codes) + [Inst(ops[op.value], [Opd(Ident(dataType, x)), item, chain])])))
    {
      var cs := tree.nodes[n].children;
      var op :- Definition.Need(OutAt(cs[|codes| - 1]).op, "op");
      var chain := ArgOf(ArgAt(cs[|codes| - 1]));
      var item := ArgOf(ArgAt(cs[k]));
      var dataType := AttrsAt(n).dataType;
      if op !in ops {
        var _ := GetIdent();
        return Err(KeyError(op));
      }
      assert ops[op] in ops.Values;
      var x, calculation := Calculate(ops[op], dataType, [item, chain]);
      assert calculation == Inst(ops[op], [Opd(Ident(dataType, x)), item, chain]);
      emitted := emitted[n := OutAt(n).(arg := Some(Ident(dataType, x)))];
      var failure := RecordOp(n, ops);
      if failure.Some? {
        return Err(failure.value);
      }
      var body := ExpandCodeList(codes);
      r := Ok(body + [calculation]);
      CalculationPlain(ops[op], [Opd(Ident(dataType, x)), item, chain]);
      if CallListsShaped() {
        ConcatWithin(codes, bounds, [calculation]);
      }
    }

    /** A chain node with an empty rest: child k's operand passes up. */
    method CalcPass(n: nat, codes: seq<seq<Elem>>, ghost bounds: seq<int>, ops: map<string, string>, k: nat)
      returns (r: Result<seq<Elem>, Fault>)
      requires Ready(n, codes, bounds) && k < |codes|
      modifies this
      ensures Produced(n, bounds, r) && PoolState() == old(PoolState()) && OpRecorded(n, ops, r)
      ensures r.Ok? ==> r.value == Concat(codes) && ArgAt(n) == old(ArgAt(tree.nodes[n].children[k]))
    {
      var failure := RecordOp(n, ops);
      if failure.Some? {
        return Err(failure.value);
      }
      r := PassUp(n, codes, bounds, k);
    }

    /** The `op` bookkeeping of `HandleCalcItem`: a node whose derivation
        starts with one of the chain's operators records its first child's
        text as `op`. */
    method RecordOp(n: nat, ops: map<string, string>) returns (failure: Option<Fault>)
      requires Valid()
      modifies this
      ensures Valid() && PoolState() == old(PoolState()) && OnlyAt(old(emitted), emitted, n)
      ensures OutAt(n).arg == old(OutAt(n).arg)
      ensures failure.Some? ==> emitted == old(emitted)
      ensures KeyAt(n).Err? ==> failure == Some(IndexError)
      ensures KeyAt(n).Ok? && KeyAt(n).value in ops ==>
                var text := Definition.ChildText(tree, n, 0);
                && (text.Err? ==> failure == Some(text.error))
                && (text.Ok? ==> failure.None? && OutAt(n).op == Some(text.value))
      ensures KeyAt(n).Ok? && KeyAt(n).value !in ops ==> failure.None? && OutAt(n).op == old(OutAt(n).op)
    {
      var key := KeyAt(n);
      if key.Err? {
        return Some(key.error);
      }
      failure := None;
      if key.value in ops {
        var text := Definition.ChildText(tree, n, 0);
        if text.Err? {
          return Some(text.error);
        }
        emitted := emitted[n := OutAt(n).(op := Some(text.value))];
      }
    }

    /** How a chain node's `op` comes out: the derivation is looked up
        (failing on a node without one), and a node whose derivation starts
        with one of the chain's operators records that operator's text. */
    twostate predicate OpRecorded(n: nat, ops: map<string, string>, new r: Result<seq<Elem>, Fault>)
      reads this
    {
      && (KeyAt(n).Err? ==> r == Err(IndexError))
      && (KeyAt(n).Ok? && KeyAt(n).value in ops ==>
            var text := Definition.ChildText(tree, n, 0);
            && (text.Err? ==> r == text.PropagateFailure())
            && (text.Ok? ==> r.Ok? && OutAt(n).op == Some(text.value)))
      && (KeyAt(n).Ok? && KeyAt(n).value !in ops ==> r.Ok? && OutAt(n).op == old(OutAt(n).op))
    }

    /** `node.children` of node m, as a truth value. */
    predicate HasChildren(m: nat)
    {
      m < |tree.nodes| && |tree.nodes[m].children| > 0
    }

    /** `get_ident` for a destination, then `new_inst` of a calculation
        into it. */
    method Calculate(cmd: string, dataType: DataType, srcs: seq<Arg>) returns (x: Name, e: Elem)
      requires Valid() && cmd in Exempt
      modifies this
      ensures Valid() && emitted == old(emitted) && maxLabel == old(maxLabel)
      ensures var (y, p) := TakeIdent(old(PoolState()));
              x == y && PoolState() == ReleaseAll(p, TempsOf(srcs))
      ensures e == Inst(cmd, [Opd(Ident(dataType, x))] + srcs)
    {
      x := GetIdent();
      DestinationKept(cmd, Opd(Ident(dataType, x)), srcs);
      e := NewInst(cmd, [Opd(Ident(dataType, x))] + srcs);
    }

    /** `synthesis_code`: the children's code lists, left to right, then
        the node's `Produce` rule, or their concatenation for an item
        without one. A failure anywhere ends the walk. */
    method Synthesize(n: nat) returns (r: Result<seq<Elem>, Fault>)
      requires Valid() && n < |tree.nodes|
      modifies this
      ensures Valid() && old(maxLabel) <= maxLabel && KeptBelow(old(emitted), emitted, n)
      ensures r.Ok? && CallListsShaped() ==> Within(r.value, Range(old(maxLabel), maxLabel))
      decreases |tree.nodes| - n
    {
      var cs := tree.nodes[n].children;
      var codes: seq<seq<Elem>> := [];
      ghost var bounds: seq<int> := [maxLabel];
      for k := 0 to |cs|
        invariant Valid() && |codes| == k && |bounds| == k + 1
        invariant bounds[0] == old(maxLabel) && bounds[k] == maxLabel && old(maxLabel) <= maxLabel
        invariant CallListsShaped() ==> Staged(codes, bounds)
        invariant KeptBelow(old(emitted), emitted, n + 1)
      {
        assert Syntax.ChildLinked(tree.nodes, n, k);
        var code :- Synthesize(cs[k]);
        if CallListsShaped() {
          StagedSnoc(codes, bounds, code, maxLabel);
        }
        codes := codes + [code];
        bounds := bounds + [maxLabel];
      }
      r := Produce(n, codes, bounds);
    }

    /** The syntax items with a rule of their own in `Produce`, besides
        the calculation chain of `ChainRule`. */
    const ProduceRules: set<string> :=
      {"Program", "Decl", "Function", "ReturnValue", "Stmt", "Assign", "Oprand",
       "VarCall", "ArgList", "ArgListRight", "ParExpr", "Unary"} + HelperAttrs

    /** Attributes of `Produce` that are helpers of the calculation rules. */
    const HelperAttrs: set<string> := {"HandleCalc", "HandleCalcItem"}

    /** The `Produce` rule of node n's syntax item, if it has one;
        otherwise `expand_code_list`. The attributes `HandleCalc` and
        `HandleCalcItem` of `Produce` are helpers, not rules: called as a
        rule they get too few arguments. */
    method Produce(n: nat, codes: seq<seq<Elem>>, ghost bounds: seq<int>) returns (r: Result<seq<Elem>, Fault>)
      requires Ready(n, codes, bounds)
      modifies this
      ensures Produced(n, bounds, r)
      ensures tree.nodes[n].item == "Stmt" ==> emitted == old(emitted) && StmtProduced(n, codes, r)
      ensures tree.nodes[n].item in HelperAttrs ==>
                r == Err(TypeError) && PoolState() == old(PoolState()) && emitted == old(emitted)
      ensures tree.nodes[n].item !in ProduceRules && ChainRule(tree.nodes[n].item).None? ==>
                r == Ok(Concat(codes)) && PoolState() == old(PoolState()) && emitted == old(emitted)
    {
      var item := tree.nodes[n].item;
      if item == "Stmt" {
        r := ProduceStmt(n, codes, bounds);
      } else if item in HelperAttrs {
        r := Err(TypeError);
      } else if item in ProduceRules || ChainRule(item).Some? {
        r := ProduceRuled(n, codes, bounds);
      } else {
        var code := ExpandCodeList(codes);
        r := Ok(code);
        if CallListsShaped() {
          StagedConcat(codes, bounds);
        }
      }
    }

    /** The rest of `Produce`'s dispatch: the rules other than `Stmt`'s,
        and the calculation chain. */
    method ProduceRuled(n: nat, codes: seq<seq<Elem>>, ghost bounds: seq<int>) returns (r: Result<seq<Elem>, Fault>)
      requires Ready(n, codes, bounds)
      requires tree.nodes[n].item in ProduceRules - HelperAttrs - {"Stmt"} || ChainRule(tree.nodes[n].item).Some?
      modifies this
      ensures Produced(n, bounds, r)
    {
      var item := tree.nodes[n].item;
      if item == "Program" {
        r := ProduceProgram(n, codes, bounds);
      } else if item == "Decl" {
        r := ProduceDecl(n, codes, bounds);
      } else if item == "Function" {
        r := ProduceFunction(n, codes, bounds);
      } else if item == "ReturnValue" {
        r := ProduceReturnValue(n, codes, bounds);
      } else if item == "Assign" {
        r := ProduceAssign(n, codes, bounds);
      } else if item == "Oprand" {
        r := ProduceOprand(n, codes, bounds);
      } else if item == "VarCall" {
        r := ProduceVarCall(n, codes, bounds);
      } else if item == "ArgList" {
        r := ProduceArgList(n, codes, bounds);
      } else if item == "ArgListRight" {
        r := ProduceArgListRight(n, codes, bounds);
      } else if item == "ParExpr" {
        r := ProduceParExpr(n, codes, bounds);
      } else if item == "Unary" {
        r := ProduceUnary(n, codes, bounds);
      } else {
        var chain := ChainRule(item);
        r := ProduceCalc(n, codes, bounds, chain.value.0, chain.value.1);
      }
    }

    /** `new_inst(cmd, *args)`: the instruction, after releasing each
        temporary among the arguments but the first argument of `mov`,
        `override` and the calculations. */
    method NewInst(cmd: string, args: seq<Arg>) returns (e: Elem)
      requires Valid()
      modifies this
      ensures Valid() && e == Inst(cmd, args) && emitted == old(emitted)
      ensures PoolState() == ReleaseAll(old(PoolState()), ReleasedBy(cmd, args))
    {
      var first := true;
      ghost var done: seq<Name> := [];
      for i := 0 to |args|
        invariant first <==> i == 0
        invariant Valid() && emitted == old(emitted)
        invariant done == ReleasedBy(cmd, args[..i])
        invariant PoolState() == ReleaseAll(old(PoolState()), done)
      {
        ReleasedByStep(cmd, args, i);
        if first && cmd in Exempt {
          first := false;
          continue;
        }
        if IsTemp(args[i]) {
          ReleaseAllSnoc(old(PoolState()), done, args[i].operand.name);
          ReleaseIdent(args[i].operand.name);
          done := done + [args[i].operand.name];
        } else {
          assert done + [] == done;
        }
        first := false;
      }
      assert args[..|args|] == args;
      e := Inst(cmd, args);
    }
  }

  lemma ReleaseAllSnoc(p: Pool, xs: seq<Name>, x: Name)
    ensures ReleaseAll(p, xs + [x]) == Release(ReleaseAll(p, xs), x)
  {
    assert (xs + [x])[..|xs|] == xs;
  }

  lemma ReleasedByStep(cmd: string, args: seq<Arg>, i: nat)
    requires i < |args|
    ensures i == 0 && cmd in Exempt ==> ReleasedBy(cmd, args[..i + 1]) == []
    ensures !(i == 0 && cmd in Exempt) ==>
              ReleasedBy(cmd, args[..i + 1]) ==
                ReleasedBy(cmd, args[..i]) + (if IsTemp(args[i]) then [args[i].operand.name] else [])
  {
    if cmd in Exempt && i > 0 {
      assert args[..i + 1][1..][..i - 1] == args[..i][1..];
    } else if cmd !in Exempt {
      assert args[..i + 1][..i] == args[..i];
    }
  }

  /** `translate`: the code of a checked tree, from a fresh allocator. On
      a tree whose call-argument nodes are as the grammar makes them, no
      label is defined twice, and each is `L` and the digits of a number. */
  method Translate(tree: Syntax.Tree, props: map<nat, Attrs>, enclosing: map<nat, nat>) returns (r: Result<seq<Elem>, Fault>)
    requires Syntax.Shape(tree.nodes)
    ensures r.Ok? && ArgListsShaped(tree) ==>
              var defs := LabelDefs(r.value);
              && NoDup(defs)
              && forall i :: 0 <= i < |defs| ==> LabelNumber(defs[i]).Some?
  {
    var t := new Translator(tree, props, enclosing);
    r := t.Synthesize(0);
  }

}
