/** The virtual machine of machine.py: operands that coerce the value they
    name to their data type, instructions classified by their command, and
    a program-counter loop over a dictionary of variables. */
module Machine {
  import opened Wrappers
  import opened Properties
  import Decimal

  /** The keys of `CALCULATION`: commands that compute a value into their
      first operand. */
  const Calculations: set<string> :=
    {"plus", "minus", "mul", "div", "gt", "lt", "ge", "le", "eq", "neq", "and", "or", "not", "mov"}

  /** `OPERATION`: the other commands an instruction may carry. */
  const Operations: set<string> := {"read", "print", "label", "goto", "if_goto"}

  /** A Python value a variable or an immediate holds: an int, a bool, a str
      (what `input()` returns, or a literal's source text) or a float, whose
      value is not interpreted. */
  datatype Value = IntV(i: int) | BoolV(b: bool) | TextV(s: string) | RealV

  /** Why the machine stopped. The `RuntimeError`s carry the object their
      message starts with ('x: Variable Not Found', 't: Invalid Data Type',
      'Invalid Instruction', 'l: Invalid Label'); the others are the
      exceptions Python raises on its own. */
  datatype MachineError =
    | VariableNotFound(ident: string)
    | InvalidDataType(dataType: DataType)
    | InvalidInstruction(cmd: string)
    | InvalidLabel(target: Slot)
    | MissingAttribute(attribute: string)  // Python's AttributeError
    | ValueError
    | EOFError
    | Unmodelled(what: string)
    | OutOfFuel

  /** An `Argument`: an immediate (`arg_type` 'data') or a variable
      (`arg_type` 'ident'), with the data type its value is read as. */
  datatype Argument = Data(dataType: DataType, data: Value) | Ident(dataType: DataType, ident: string)

  /** What an instruction holds in `arg1`..`arg3`: an `Argument`, a label
      name, or `None`. */
  datatype Slot = Arg(arg: Argument) | LabelName(name: string) | Empty

  datatype InstKind = CalcKind | OpKind

  /** An `Instruction` as its constructor leaves it. */
  datatype Instruction = Instruction(cmd: string, arg1: Slot, arg2: Slot, arg3: Slot, kind: InstKind)

  /** `Instruction.__init__`: a command in `CALCULATION` is a calculation,
      one in `OPERATION` an operation, anything else is refused. */
  function NewInstruction(cmd: string, arg1: Slot, arg2: Slot, arg3: Slot): (r: Result<Instruction, MachineError>)
    ensures r.Ok? <==> cmd in Calculations || cmd in Operations
    ensures r.Err? ==> r.error == InvalidInstruction(cmd)
    ensures r.Ok? ==> r.value.cmd == cmd && r.value.arg1 == arg1 && r.value.arg2 == arg2 && r.value.arg3 == arg3
    ensures r.Ok? ==> (r.value.kind == CalcKind <==> cmd in Calculations)
  {
    if cmd in Calculations then Ok(Instruction(cmd, arg1, arg2, arg3, CalcKind))
    else if cmd in Operations then Ok(Instruction(cmd, arg1, arg2, arg3, OpKind))
    else Err(InvalidInstruction(cmd))
  }

  /** Python truthiness; a float's is not interpreted. */
  function Truth(v: Value): (r: Result<bool, MachineError>)
    ensures r.Err? <==> v.RealV?
    ensures r.Ok? ==> (r.value <==> v != IntV(0) && v != BoolV(false) && v != TextV(""))
  {
    match v
    case IntV(i) => Ok(i != 0)
    case BoolV(b) => Ok(b)
    case TextV(s) => Ok(s != "")
    case RealV => Err(Unmodelled("truth value of a float"))
  }

  /** `int(s)` for a str: an optional sign and at least one decimal digit.
      Anything else is a `ValueError` here. */
  function IntOfText(s: string): (r: Option<int>)
    ensures (forall i :: 0 <= i < |s| ==> Decimal.IsDigit(s[i])) && |s| > 0 ==> r.Some?
  {
    if |s| > 0 && (s[0] == '-' || s[0] == '+') then
      match Decimal.ParseDigits(s[1..])
      case None => None
      case Some(v) =>
        var n: int := v;
        Some(if s[0] == '-' then -n else n)
    else
      match Decimal.ParseDigits(s)
      case None => None
      case Some(v) => Some(v)
  }

  /** `int(data)`. */
  function IntOf(v: Value): Result<int, MachineError>
  {
    match v
    case IntV(i) => Ok(i)
    case BoolV(b) => Ok(if b then 1 else 0)
    case TextV(s) => if IntOfText(s).Some? then Ok(IntOfText(s).value) else Err(ValueError)
    case RealV => Err(Unmodelled("int() of a float"))
  }

  /** `x & 0xffffffff` for a Python int, negative ones in two's complement. */
  function Mask32(x: int): (m: int)
    ensures 0 <= m < 0x1_0000_0000
    ensures 0 <= x < 0x1_0000_0000 ==> m == x
  {
    x % 0x1_0000_0000
  }

  /** A value `Argument.val` can return: ints and bools only, floats being
      left uninterpreted. */
  predicate Coerced(v: Value)
  {
    v.IntV? || v.BoolV?
  }

  /** `Argument.val(var_dict)`: the immediate, or the variable's value when
      the dictionary holds a truthy one, read as the argument's data type. */
  function Val(a: Argument, vars: map<Option<string>, Value>): (r: Result<Value, MachineError>)
    ensures r.Ok? ==> Coerced(r.value)
    ensures r.Ok? && a.dataType == Int ==> r.value.IntV? && 0 <= r.value.i < 0x1_0000_0000
    ensures r.Ok? ==> a.dataType == Int || a.dataType == Bool
    ensures r.Ok? && a.dataType == Bool ==> r.value.BoolV?
    ensures a.Ident? && (Some(a.ident) !in vars || vars[Some(a.ident)] in {IntV(0), BoolV(false), TextV("")}) ==>
              r == Err(VariableNotFound(a.ident))
    ensures a.dataType !in {Int, Double, Bool} && (a.Data? || (Some(a.ident) in vars && Truth(vars[Some(a.ident)]) == Ok(true))) ==>
              r == Err(InvalidDataType(a.dataType))
  {
    var data :- match a
      case Data(_, d) => Ok(d)
      case Ident(_, x) =>
        if Some(x) in vars then
          var present :- Truth(vars[Some(x)]);
          if present then Ok(vars[Some(x)]) else Err(VariableNotFound(x))
        else Err(VariableNotFound(x));
    match a.dataType
    case Int =>
      var i :- IntOf(data);
      Ok(IntV(Mask32(i)))
    case Double => Err(Unmodelled("float() coercion"))
    case Bool =>
      var b :- Truth(data);
      Ok(BoolV(b))
    case _ => Err(InvalidDataType(a.dataType))
  }

  /** A variable holding a non-zero 32-bit int reads back unchanged as int. */
  lemma ValReadsBack(x: string, i: int, vars: map<Option<string>, Value>, t: DataType)
    requires Some(x) in vars && vars[Some(x)] == IntV(i) && 0 < i < 0x1_0000_0000
    ensures Val(Ident(Int, x), vars) == Ok(IntV(i))
    ensures Val(Ident(Bool, x), vars) == Ok(BoolV(true))
  {
  }

  /** `slot.val(var_dict)`: only an `Argument` has `val`. */
  function ValOf(s: Slot, vars: map<Option<string>, Value>): (r: Result<Value, MachineError>)
    ensures s.Arg? ==> r == Val(s.arg, vars)
    ensures !s.Arg? ==> r == Err(MissingAttribute("val"))
  {
    if s.Arg? then Val(s.arg, vars) else Err(MissingAttribute("val"))
  }

  /** `slot.ident`: a variable's name, `None` for an immediate. */
  function IdentOf(s: Slot): (r: Result<Option<string>, MachineError>)
    ensures r.Ok? <==> s.Arg?
    ensures r.Ok? ==> (r.value.Some? <==> s.arg.Ident?)
  {
    match s
    case Arg(Data(_, _)) => Ok(None)
    case Arg(Ident(_, x)) => Ok(Some(x))
    case _ => Err(MissingAttribute("ident"))
  }

  function Num(v: Value): int
    requires Coerced(v)
  {
    if v.IntV? then v.i else if v.b then 1 else 0
  }

  function Truthy(v: Value): bool
    requires Coerced(v)
  {
    Truth(v) == Ok(true)
  }

  /** `CALCULATION[cmd](x, y)` on coerced values. Python adds, subtracts
      and multiplies a bool as 0 or 1 without masking the result; true
      division yields a float and is not interpreted. */
  function Calc(cmd: string, x: Value, y: Value): (r: Result<Value, MachineError>)
    requires Coerced(x) && Coerced(y)
    ensures r.Ok? <==> cmd in Calculations - {"div"}
    ensures cmd in {"plus", "minus", "mul"} ==> r.Ok? && r.value.IntV?
    ensures cmd in {"gt", "lt", "ge", "le", "eq", "neq", "not"} ==> r.Ok? && r.value.BoolV?
    ensures cmd in {"and", "or", "mov"} ==> r.Ok? && r.value in {x, y}
    ensures cmd == "mov" ==> r == Ok(x)
  {
    match cmd
    case "plus" => Ok(IntV(Num(x) + Num(y)))
    case "minus" => Ok(IntV(Num(x) - Num(y)))
    case "mul" => Ok(IntV(Num(x) * Num(y)))
    case "div" => Err(Unmodelled("true division"))
    case "gt" => Ok(BoolV(Num(x) > Num(y)))
    case "lt" => Ok(BoolV(Num(x) < Num(y)))
    case "ge" => Ok(BoolV(Num(x) >= Num(y)))
    case "le" => Ok(BoolV(Num(x) <= Num(y)))
    case "eq" => Ok(BoolV(Num(x) == Num(y)))
    case "neq" => Ok(BoolV(Num(x) != Num(y)))
    case "and" => Ok(if Truthy(x) then y else x)
    case "or" => Ok(if Truthy(x) then x else y)
    case "not" => Ok(BoolV(!Truthy(x)))
    case "mov" => Ok(x)
    case _ => Err(InvalidInstruction(cmd))
  }

  /** `and`/`or` short-circuit the way Python's do on truth values. */
  lemma LogicOnBools(a: bool, b: bool)
    ensures Calc("and", BoolV(a), BoolV(b)) == Ok(BoolV(a && b))
    ensures Calc("or", BoolV(a), BoolV(b)) == Ok(BoolV(a || b))
    ensures Calc("not", BoolV(a), BoolV(b)) == Ok(BoolV(!a))
  {
  }

  // ----- Running a program -----

  /** The label prepass: each `label` instruction's name mapped to its
      index, a later one of the same name replacing an earlier one. */
  function LabelIndex(prog: seq<Instruction>): (labels: map<Slot, nat>)
    ensures forall l :: l in labels ==> labels[l] < |prog| && prog[labels[l]].cmd == "label" && prog[labels[l]].arg1 == l
    decreases |prog|
  {
    if |prog| == 0 then map[]
    else
      var labels := LabelIndex(prog[..|prog| - 1]);
      var last := prog[|prog| - 1];
      if last.cmd == "label" then labels[last.arg1 := |prog| - 1] else labels
  }

  /** Every label instruction is indexed, and at the last index its name
      has: no later label instruction carries the same name. */
  lemma {:induction false} LabelIndexComplete(prog: seq<Instruction>, i: nat)
    requires i < |prog| && prog[i].cmd == "label"
    ensures prog[i].arg1 in LabelIndex(prog)
    ensures i <= LabelIndex(prog)[prog[i].arg1]
    ensures forall j :: LabelIndex(prog)[prog[i].arg1] < j < |prog| ==> !(prog[j].cmd == "label" && prog[j].arg1 == prog[i].arg1)
    decreases |prog|
  {
    if i < |prog| - 1 {
      LabelIndexComplete(prog[..|prog| - 1], i);
    }
  }

  /** What `run` keeps between two instructions: the program counter, the
      variables, the input lines not read yet and the values printed. */
  datatype State = State(pc: nat, vars: map<Option<string>, Value>, input: seq<string>, output: seq<Value>)

  /** A state, with the error that stopped the machine in it, if any. */
  datatype Outcome = Outcome(st: State, err: Option<MachineError>)

  function Stop(st: State, e: MachineError): Outcome
  {
    Outcome(st, Some(e))
  }

  /** A calculation: `var_dict[arg1.ident] = f(arg2.val(), arg3.val())`. */
  function Calculate(inst: Instruction, st: State): (o: Outcome)
    ensures o.err.None? ==> o.st == st.(pc := st.pc + 1, vars := o.st.vars)
    ensures o.err.None? ==> IdentOf(inst.arg1).Ok? && o.st.vars.Keys == st.vars.Keys + {IdentOf(inst.arg1).value}
    ensures o.err.None? ==> forall k :: k in st.vars && k != IdentOf(inst.arg1).value ==> o.st.vars[k] == st.vars[k]
    ensures o.err.Some? ==> o.st == st
  {
    match IdentOf(inst.arg1)
    case Err(e) => Stop(st, e)
    case Ok(key) =>
      match ValOf(inst.arg2, st.vars)
      case Err(e) => Stop(st, e)
      case Ok(x) =>
        match ValOf(inst.arg3, st.vars)
        case Err(e) => Stop(st, e)
        case Ok(y) =>
          match Calc(inst.cmd, x, y)
          case Err(e) => Stop(st, e)
          case Ok(v) => Outcome(st.(pc := st.pc + 1, vars := st.vars[key := v]), None)
  }

  /** `read`: the next input line is stored as text under `arg1.ident`,
      then read back through `arg1.val()`, which may fail with the line
      already stored. */
  function Read(inst: Instruction, st: State): (o: Outcome)
    ensures o.err.None? ==> |st.input| > 0 && o.st.input == st.input[1..] && o.st.pc == st.pc + 1
    ensures |st.input| == 0 && IdentOf(inst.arg1).Ok? ==> o == Stop(st, EOFError)
    ensures o.st.output == st.output
  {
    match IdentOf(inst.arg1)
    case Err(e) => Stop(st, e)
    case Ok(key) =>
      if |st.input| == 0 then Stop(st, EOFError)
      else
        var st' := st.(vars := st.vars[key := TextV(st.input[0])], input := st.input[1..]);
        match ValOf(inst.arg1, st'.vars)
        case Err(e) => Stop(st', e)
        case Ok(_) => Outcome(st'.(pc := st.pc + 1), None)
  }

  /** `print`: the value of `arg1` is written out. */
  function Print(inst: Instruction, st: State): (o: Outcome)
    ensures o.err.None? <==> ValOf(inst.arg1, st.vars).Ok?
    ensures o.err.None? ==> o.st == st.(pc := st.pc + 1, output := st.output + [ValOf(inst.arg1, st.vars).value])
  {
    match ValOf(inst.arg1, st.vars)
    case Err(e) => Stop(st, e)
    case Ok(v) => Outcome(st.(pc := st.pc + 1, output := st.output + [v]), None)
  }

  /** `goto l` and `if_goto c l`: the test `cmd == 'goto' or 'if_goto'`
      always holds, so every operation other than read, print and label
      lands here, and one that is not `goto` is treated as `if_goto`. */
  function Jump(inst: Instruction, labels: map<Slot, nat>, st: State): (o: Outcome)
    ensures o.err.None? ==> o.st == st.(pc := o.st.pc)
    ensures o.err.None? && o.st.pc != st.pc + 1 ==>
              var l := if inst.cmd == "goto" then inst.arg1 else inst.arg2;
              l in labels && o.st.pc == labels[l] + 1
  {
    var condition := if inst.cmd == "goto" then Ok(true)
                     else match ValOf(inst.arg1, st.vars)
                       case Err(e) => Err(e)
                       case Ok(v) => Truth(v);
    var target := if inst.cmd == "goto" then inst.arg1 else inst.arg2;
    match condition
    case Err(e) => Stop(st, e)
    case Ok(c) =>
      if !c then Outcome(st.(pc := st.pc + 1), None)
      else if target in labels && labels[target] != 0 then Outcome(st.(pc := labels[target] + 1), None)
      else Stop(st, InvalidLabel(target))
  }

  /** One turn of `run`'s loop, at an instruction inside the program. */
  function Step(prog: seq<Instruction>, labels: map<Slot, nat>, st: State): (o: Outcome)
    requires st.pc < |prog|
    ensures o.err.None? && (prog[st.pc].kind == CalcKind || prog[st.pc].cmd in {"read", "print", "label"}) ==>
              o.st.pc == st.pc + 1
  {
    var inst := prog[st.pc];
    if inst.kind == CalcKind then Calculate(inst, st)
    else if inst.cmd == "read" then Read(inst, st)
    else if inst.cmd == "print" then Print(inst, st)
    else if inst.cmd == "label" then Outcome(st.(pc := st.pc + 1), None)
    else Jump(inst, labels, st)
  }

  /** A jump to a label that is the program's first instruction fails:
      `label_dict.get` returns its index 0, which is false. */
  lemma JumpToFirstLabel(prog: seq<Instruction>, st: State, l: string)
    requires st.pc < |prog| && prog[st.pc].kind == OpKind && prog[st.pc].cmd == "goto" && prog[st.pc].arg1 == LabelName(l)
    requires |prog| > 0 && prog[0].cmd == "label" && prog[0].arg1 == LabelName(l)
    requires forall j :: 0 < j < |prog| ==> !(prog[j].cmd == "label" && prog[j].arg1 == LabelName(l))
    ensures Step(prog, LabelIndex(prog), st) == Stop(st, InvalidLabel(LabelName(l)))
  {
    LabelIndexComplete(prog, 0);
    assert Step(prog, LabelIndex(prog), st) == Jump(prog[st.pc], LabelIndex(prog), st);
  }

  /** A taken jump resumes right after the last label of that name. */
  lemma JumpResumesAfterLabel(prog: seq<Instruction>, st: State, i: nat)
    requires st.pc < |prog| && prog[st.pc].kind == OpKind && prog[st.pc].cmd == "goto"
    requires 0 < i < |prog| && prog[i].cmd == "label" && prog[i].arg1 == prog[st.pc].arg1
    requires forall j :: i < j < |prog| ==> !(prog[j].cmd == "label" && prog[j].arg1 == prog[i].arg1)
    ensures Step(prog, LabelIndex(prog), st) == Outcome(st.(pc := i + 1), None)
  {
    LabelIndexComplete(prog, i);
    assert Step(prog, LabelIndex(prog), st) == Jump(prog[st.pc], LabelIndex(prog), st);
  }

  /** `run` from a state: steps until the program counter leaves the
      program, an instruction fails, or the fuel (a bound on the number of
      steps, which Python does not have) runs out. */
  function Exec(prog: seq<Instruction>, labels: map<Slot, nat>, st: State, fuel: nat): (o: Outcome)
    ensures o.err.None? ==> o.st.pc >= |prog|
    ensures st.pc >= |prog| ==> o == Outcome(st, None)
    decreases fuel
  {
    if st.pc >= |prog| then Outcome(st, None)
    else if fuel == 0 then Stop(st, OutOfFuel)
    else
      var o := Step(prog, labels, st);
      if o.err.Some? then o else Exec(prog, labels, o.st, fuel - 1)
  }

  predicate NoJumps(prog: seq<Instruction>)
  {
    forall i :: 0 <= i < |prog| ==> prog[i].kind == CalcKind || prog[i].cmd in {"read", "print", "label"}
  }

  /** Without `goto` and `if_goto` the program counter only moves forward,
      so |prog| steps suffice: the run halts or fails, it never runs out. */
  lemma {:induction false} StraightLineHalts(prog: seq<Instruction>, labels: map<Slot, nat>, st: State, fuel: nat)
    requires NoJumps(prog) && fuel + st.pc >= |prog|
    ensures Exec(prog, labels, st, fuel).err != Some(OutOfFuel)
    decreases fuel
  {
    if st.pc < |prog| {
      var o := StepForward(prog, labels, st);
      if o.err.None? {
        StraightLineHalts(prog, labels, o.st, fuel - 1);
      }
    }
  }

  /** One step of a program without jumps, as `Exec` takes it. */
  lemma StepForward(prog: seq<Instruction>, labels: map<Slot, nat>, st: State) returns (o: Outcome)
    requires NoJumps(prog) && st.pc < |prog|
    ensures o == Step(prog, labels, st)
    ensures o.err.None? ==> o.st.pc == st.pc + 1
    ensures o.err != Some(OutOfFuel)
    ensures forall fuel: nat :: fuel > 0 ==> Exec(prog, labels, st, fuel) == if o.err.Some? then o else Exec(prog, labels, o.st, fuel - 1)
  {
    o := Step(prog, labels, st);
    assert prog[st.pc].kind == CalcKind || prog[st.pc].cmd in {"read", "print", "label"};
  }

  /** The label prepass, as `run` does it. */
  method IndexLabels(prog: seq<Instruction>) returns (labels: map<Slot, nat>)
    ensures labels == LabelIndex(prog)
  {
    labels := map[];
    for i := 0 to |prog|
      invariant labels == LabelIndex(prog[..i])
    {
      assert prog[..i + 1][..i] == prog[..i];
      if prog[i].cmd == "label" {
        labels := labels[prog[i].arg1 := i];
      }
    }
    assert prog[..|prog|] == prog;
  }

  /** `Machine`: the variable dictionary outlives each `run`. */
  class Machine {
    var varDict: map<Option<string>, Value>

    constructor()
      ensures varDict == map[]
    {
      varDict := map[];
    }

    method Clear()
      modifies this
      ensures varDict == map[]
    {
      varDict := map[];
    }

    /** `run(instructions)`, reading the lines of `input` and returning what
        it prints; on an error the dictionary keeps what the steps before it
        (and a failed `read` itself) stored. */
    method Run(prog: seq<Instruction>, input: seq<string>, fuel: nat) returns (output: seq<Value>, err: Option<MachineError>)
      modifies this
      ensures var o := Exec(prog, LabelIndex(prog), State(0, old(varDict), input, []), fuel);
              varDict == o.st.vars && output == o.st.output && err == o.err
    {
      var labels := IndexLabels(prog);
      var st := State(0, varDict, input, []);
      var steps := fuel;
      while st.pc < |prog| && steps > 0
        invariant Exec(prog, labels, st, steps) == Exec(prog, labels, State(0, old(varDict), input, []), fuel)
        decreases steps
      {
        var o := Step(prog, labels, st);
        if o.err.Some? {
          varDict := o.st.vars;
          return o.st.output, o.err;
        }
        st := o.st;
        steps := steps - 1;
      }
      varDict := st.vars;
      output := st.output;
      err := if st.pc < |prog| then Some(OutOfFuel) else None;
    }
  }
}
