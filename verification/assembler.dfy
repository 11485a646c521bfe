/** The assembly session: the program buffer (`COMMANDS`), the environment
    the assembled program is evaluated in (`ENV`: register names, the
    instruction constructors and the labels), and the lines printed while
    instructions are constructed. The assembled program itself reaches the
    session as a sequence of events, one per constructor or `label` call,
    with operands already evaluated. */
module Assembly {
  import opened Wrappers
  import opened Text
  import opened Isa

  /** The constructors the environment offers the assembled program. */
  datatype Mnemonic = AddOp | LriOp | LabelOp

  /** A value bound in the environment: a number (a register index or a
      label's address) or one of the constructors. */
  datatype Value = Num(n: int) | Builtin(m: Mnemonic)

  /** `"r%d" % i`. */
  function RegName(i: nat): (s: string)
    ensures |s| >= 2 && s[0] == 'r'
  {
    "r" + Decimal(i)
  }

  lemma RegNameInjective(i: nat, j: nat)
    requires RegName(i) == RegName(j)
    ensures i == j
  {
    assert RegName(i)[1..] == Decimal(i);
    assert RegName(j)[1..] == Decimal(j);
    DecimalInjective(i, j);
  }

  /** The number of registers the setup loop binds. */
  const RegisterCount: nat := 16

  /** r0 .. r(n-1) bound to 0 .. n-1, as the setup loop leaves them after n rounds. */
  function RegisterEnv(n: nat): map<string, Value>
  {
    if n == 0 then map[] else RegisterEnv(n - 1)[RegName(n - 1) := Num(n - 1)]
  }

  /** After n rounds of the setup loop, r<i> names register i for every i < n. */
  lemma {:induction false} RegisterEnvBinds(n: nat)
    ensures forall i: nat :: i < n ==> RegName(i) in RegisterEnv(n) && RegisterEnv(n)[RegName(i)] == Num(i)
  {
    if n > 0 {
      var before := RegisterEnv(n - 1);
      assert RegisterEnv(n) == before[RegName(n - 1) := Num(n - 1)];
      RegisterEnvBinds(n - 1);
      EarlierNamesDiffer(n - 1);
      forall i: nat | i < n - 1
        ensures RegName(i) in RegisterEnv(n) && RegisterEnv(n)[RegName(i)] == Num(i)
      {
        assert RegName(i) in before && before[RegName(i)] == Num(i);
      }
    }
  }

  /** The setup loop's round n binds a name no earlier round bound. */
  lemma EarlierNamesDiffer(n: nat)
    ensures forall i: nat :: i < n ==> RegName(i) != RegName(n)
  {
    forall i: nat | i < n
      ensures RegName(i) != RegName(n)
    {
      if RegName(i) == RegName(n) {
        RegNameInjective(i, n);
      }
    }
  }

  /** The environment before any program runs: sixteen registers and the
      three constructors `add`, `lri` and `label`. */
  function Predeclared(): (env: map<string, Value>)
    ensures RegistersBound(env)
    ensures "add" in env && env["add"] == Builtin(AddOp)
    ensures "lri" in env && env["lri"] == Builtin(LriOp)
    ensures "label" in env && env["label"] == Builtin(LabelOp)
  {
    RegisterEnvBinds(RegisterCount);
    OperatorsBound(RegisterEnv(RegisterCount));
    WithOperators(RegisterEnv(RegisterCount))
  }

  /** env with the constructors bound under their names; every other name
      keeps its binding. */
  function WithOperators(env: map<string, Value>): (m: map<string, Value>)
    ensures "add" in m && m["add"] == Builtin(AddOp)
    ensures "lri" in m && m["lri"] == Builtin(LriOp)
    ensures "label" in m && m["label"] == Builtin(LabelOp)
    ensures forall name :: name in m ==> name in env || name == "add" || name == "lri" || name == "label"
    ensures forall name :: name in env && name != "add" && name != "lri" && name != "label" ==> name in m && m[name] == env[name]
  {
    env["add" := Builtin(AddOp)]["lri" := Builtin(LriOp)]["label" := Builtin(LabelOp)]
  }

  /** r0..r15 name the registers 0..15 in env. */
  ghost predicate RegistersBound(env: map<string, Value>)
  {
    forall i: nat :: i < 16 ==> RegName(i) in env && env[RegName(i)] == Num(i)
  }

  lemma OperatorsBound(env: map<string, Value>)
    requires RegistersBound(env)
    ensures RegistersBound(WithOperators(env))
  {
    BindKeepsRegisters(env, "add", Builtin(AddOp));
    BindKeepsRegisters(env["add" := Builtin(AddOp)], "lri", Builtin(LriOp));
    BindKeepsRegisters(env["add" := Builtin(AddOp)]["lri" := Builtin(LriOp)], "label", Builtin(LabelOp));
  }

  /** Binding a name that does not start with `r` leaves the registers bound. */
  lemma BindKeepsRegisters(env: map<string, Value>, name: string, v: Value)
    requires RegistersBound(env) && |name| >= 1 && name[0] != 'r'
    ensures RegistersBound(env[name := v])
  {
    forall i: nat | i < 16
      ensures RegName(i) != name
    {
      assert RegName(i)[0] == 'r';
    }
  }

  /** One call made by the assembled program, with its operands evaluated. */
  datatype Event =
    | LriCall(pos: Pos, dest: nat, imm: nat)
    | AddCall(pos: Pos, src1: nat, src2: nat, dest: nat)
    | LabelCall(name: string)

  /** Register operands name one of the sixteen registers. */
  predicate RegistersValid(e: Event)
  {
    match e
    case LriCall(_, dest, _) => dest < 16
    case AddCall(_, src1, src2, dest) => src1 < 16 && src2 < 16 && dest < 16
    case LabelCall(_) => true
  }

  predicate AllRegistersValid(evs: seq<Event>)
  {
    forall i :: 0 <= i < |evs| ==> RegistersValid(evs[i])
  }

  /** The instructions one event appends to the program. */
  function Appended(e: Event): (added: seq<Instr>)
    requires RegistersValid(e)
    ensures |added| == if e.LabelCall? then 0 else 1
  {
    match e
    case LriCall(pos, dest, imm) => [Instr(BuildLri(pos, dest, imm).op, pos)]
    case AddCall(pos, src1, src2, dest) => [Instr(Add(src1, src2, dest), pos)]
    case LabelCall(_) => []
  }

  /** The lines one event prints while it runs. */
  function Printed(e: Event): seq<string>
    requires RegistersValid(e)
  {
    match e
    case LriCall(pos, dest, imm) => BuildLri(pos, dest, imm).warnings
    case _ => []
  }

  /** The program a run of events builds from an empty buffer. */
  function Commands(evs: seq<Event>): (program: seq<Instr>)
    requires AllRegistersValid(evs)
    ensures |program| <= |evs|
    ensures (forall i :: 0 <= i < |evs| ==> !evs[i].LabelCall?) ==> |program| == |evs|
    decreases |evs|
  {
    if evs == [] then [] else Commands(evs[..|evs| - 1]) + Appended(evs[|evs| - 1])
  }

  /** The lines a run of events prints: exactly one warning per `lri`
      whose immediate needs more than 8 bits. */
  function Warnings(evs: seq<Event>): (lines: seq<string>)
    requires AllRegistersValid(evs)
    ensures |lines| == Overflows(evs)
    decreases |evs|
  {
    if evs == [] then [] else Warnings(evs[..|evs| - 1]) + Printed(evs[|evs| - 1])
  }

  /** The environment after a run of events: each `label` binds its name
      to the length of the program built by the events before it. */
  function Env(env: map<string, Value>, evs: seq<Event>): (final: map<string, Value>)
    requires AllRegistersValid(evs)
    ensures env.Keys <= final.Keys
    ensures forall name :: name in final && (name !in env || final[name] != env[name]) ==>
      final[name].Num? && 0 <= final[name].n <= |Commands(evs)|
    decreases |evs|
  {
    if evs == [] then env
    else
      var before := evs[..|evs| - 1];
      match evs[|evs| - 1]
      case LabelCall(name) => Env(env, before)[name := Num(|Commands(before)|)]
      case _ => Env(env, before)
  }

  /** The number of `lri` events whose immediate needs more than 8 bits. */
  function Overflows(evs: seq<Event>): nat
    decreases |evs|
  {
    if evs == [] then 0
    else
      var e := evs[|evs| - 1];
      Overflows(evs[..|evs| - 1]) + if e.LriCall? && e.imm >= 0x100 then 1 else 0
  }

  /** Events other than `label` each append exactly one instruction, and
      earlier instructions stay in place: the program of a prefix of the
      events is a prefix of the program. */
  lemma {:induction false} CommandsPrefix(evs: seq<Event>, k: nat)
    requires AllRegistersValid(evs) && k <= |evs|
    ensures Commands(evs[..k]) <= Commands(evs)
    decreases |evs|
  {
    if k < |evs| {
      assert evs[..|evs| - 1][..k] == evs[..k];
      CommandsPrefix(evs[..|evs| - 1], k);
    } else {
      assert evs[..k] == evs;
    }
  }

  /** A label keeps the address it was given when no later `label` call
      names it again, however many instructions follow. */
  lemma {:induction false} LabelBinding(env: map<string, Value>, evs: seq<Event>, k: nat)
    requires AllRegistersValid(evs) && k < |evs| && evs[k].LabelCall?
    requires forall j :: k < j < |evs| ==> evs[j] != LabelCall(evs[k].name)
    ensures evs[k].name in Env(env, evs)
    ensures Env(env, evs)[evs[k].name] == Num(|Commands(evs[..k])|)
    decreases |evs|
  {
    var before := evs[..|evs| - 1];
    if k < |evs| - 1 {
      assert before[..k] == evs[..k];
      LabelBinding(env, before, k);
    } else {
      assert before == evs[..k];
    }
  }

  /** A name no `label` call mentions keeps its binding (or its absence). */
  lemma {:induction false} EnvUnlabelled(env: map<string, Value>, evs: seq<Event>, name: string)
    requires AllRegistersValid(evs)
    requires forall j :: 0 <= j < |evs| ==> evs[j] != LabelCall(name)
    ensures name in Env(env, evs) <==> name in env
    ensures name in env ==> Env(env, evs)[name] == env[name]
    decreases |evs|
  {
    if evs != [] {
      EnvUnlabelled(env, evs[..|evs| - 1], name);
    }
  }

  /** A run that labels no register name leaves r0..r15 bound to 0..15. */
  lemma RegistersSurvive(env: map<string, Value>, evs: seq<Event>)
    requires AllRegistersValid(evs) && RegistersBound(env)
    requires forall j, i: nat :: 0 <= j < |evs| && i < 16 ==> evs[j] != LabelCall(RegName(i))
    ensures RegistersBound(Env(env, evs))
  {
    forall i: nat | i < 16
      ensures RegName(i) in Env(env, evs) && Env(env, evs)[RegName(i)] == Num(i)
    {
      EnvUnlabelled(env, evs, RegName(i));
    }
  }

  /** The address a label is given is that of the next instruction
      constructed after it, if there is one. */
  lemma LabelAddressesNext(evs: seq<Event>, k: nat, m: nat)
    requires AllRegistersValid(evs) && k < m < |evs|
    requires forall j :: k <= j < m ==> evs[j].LabelCall?
    requires !evs[m].LabelCall?
    ensures |Commands(evs[..k])| < |Commands(evs)|
    ensures Commands(evs)[|Commands(evs[..k])|] == Appended(evs[m])[0]
  {
    var upTo := Commands(evs[..k]);
    LabelsAppendNothing(evs, k, m);
    RunOneMore(map[], evs, m);
    CommandsPrefix(evs, m + 1);
  }

  /** `label` calls append nothing to the program. */
  lemma {:induction false} LabelsAppendNothing(evs: seq<Event>, k: nat, m: nat)
    requires AllRegistersValid(evs) && k <= m <= |evs|
    requires forall j :: k <= j < m ==> evs[j].LabelCall?
    ensures Commands(evs[..m]) == Commands(evs[..k])
    decreases m - k
  {
    if k < m {
      LabelsAppendNothing(evs, k, m - 1);
      var upTo := evs[..m];
      assert upTo[..|upTo| - 1] == evs[..m - 1];
      assert Appended(upTo[|upTo| - 1]) == [];
    }
  }

  /** What running one more event adds to the specification of a run. */
  lemma RunOneMore(env: map<string, Value>, evs: seq<Event>, i: nat)
    requires AllRegistersValid(evs) && i < |evs|
    ensures Commands(evs[..i + 1]) == Commands(evs[..i]) + Appended(evs[i])
    ensures Warnings(evs[..i + 1]) == Warnings(evs[..i]) + Printed(evs[i])
    ensures Env(env, evs[..i + 1]) ==
      if evs[i].LabelCall? then Env(env, evs[..i])[evs[i].name := Num(|Commands(evs[..i])|)] else Env(env, evs[..i])
  {
    LastEvent(evs, i);
    assert Commands(evs[..i + 1]) == Commands(evs[..i]) + Appended(evs[i]);
    assert Warnings(evs[..i + 1]) == Warnings(evs[..i]) + Printed(evs[i]);
  }

  /** The events up to i + 1 are those up to i followed by event i. */
  lemma LastEvent(evs: seq<Event>, i: nat)
    requires i < |evs|
    ensures |evs[..i + 1]| == i + 1
    ensures evs[..i + 1][..i] == evs[..i] && evs[..i + 1][i] == evs[i]
  {
  }

  /** The setup loop: binds r0..r15 to 0..15, one name per round. */
  method BindRegisters() returns (e: map<string, Value>)
    ensures e == RegisterEnv(RegisterCount)
  {
    e := map[];
    var i := 0;
    while i < RegisterCount
      invariant 0 <= i <= RegisterCount
      invariant e == RegisterEnv(i)
    {
      e := e[RegName(i) := Num(i)];
      i := i + 1;
    }
  }

  /** Module setup: the setup loop binds the registers, then the three
      constructors are bound under their names. */
  method Setup() returns (e: map<string, Value>)
    ensures e == Predeclared()
  {
    e := BindRegisters();
    e := e["add" := Builtin(AddOp)];
    e := e["lri" := Builtin(LriOp)];
    e := e["label" := Builtin(LabelOp)];
  }

  /** The session state of one assembler run. */
  class Assembler {
    var commands: seq<Instr>        // COMMANDS
    var env: map<string, Value>     // ENV
    var printed: seq<string>        // lines printed so far

    /** A fresh session: empty program, nothing printed, the environment
        module setup leaves. */
    constructor ()
      ensures commands == [] && printed == []
      ensures env == Predeclared() && RegistersBound(env)
    {
      var e := Setup();
      commands, env, printed := [], e, [];
    }

    /** `ASM.__init__`: a constructed instruction appends itself to the program. */
    method Append(ins: Instr)
      modifies this
      ensures commands == old(commands) + [ins]
      ensures env == old(env) && printed == old(printed)
    {
      commands := commands + [ins];
    }

    /** `lri(dest, imm)`: appends the instruction, after the range check's warning if any. */
    method Lri(pos: Pos, dest: nat, imm: nat)
      requires dest < 16
      modifies this
      ensures commands == old(commands) + [Instr(Isa.Lri(dest, imm % 0x100), pos)]
      ensures printed == old(printed) + BuildLri(pos, dest, imm).warnings
      ensures env == old(env)
    {
      var built := BuildLri(pos, dest, imm);
      Append(Instr(built.op, pos));
      printed := printed + built.warnings;
    }

    /** `add(src1, src2, dest)`: appends the instruction; no range check. */
    method Add(pos: Pos, src1: nat, src2: nat, dest: nat)
      requires src1 < 16 && src2 < 16 && dest < 16
      modifies this
      ensures commands == old(commands) + [Instr(Isa.Add(src1, src2, dest), pos)]
      ensures env == old(env) && printed == old(printed)
    {
      Append(Instr(Isa.Add(src1, src2, dest), pos));
    }

    /** `label(name)`: binds the name to the current program length,
        replacing any earlier binding, registers and constructors included. */
    method Label(name: string)
      modifies this
      ensures env == old(env)[name := Num(|commands|)]
      ensures commands == old(commands) && printed == old(printed)
      ensures (forall i: nat :: i < 16 ==> name != RegName(i)) && RegistersBound(old(env)) ==> RegistersBound(env)
    {
      env := env[name := Num(|commands|)];
    }

    /** The start of `parse`: an empty program; the environment is kept. */
    method Reset()
      modifies this
      ensures commands == [] && env == old(env) && printed == old(printed)
      ensures RegistersBound(old(env)) ==> RegistersBound(env)
    {
      commands := [];
    }

    method Apply(e: Event)
      requires RegistersValid(e)
      modifies this
      ensures commands == old(commands) + Appended(e)
      ensures printed == old(printed) + Printed(e)
      ensures env == if e.LabelCall? then old(env)[e.name := Num(|old(commands)|)] else old(env)
    {
      match e
      case LriCall(pos, dest, imm) => Lri(pos, dest, imm);
      case AddCall(pos, src1, src2, dest) => Add(pos, src1, src2, dest);
      case LabelCall(name) => Label(name);
    }

    /** One round of `parse`'s loop: the state after the first i events
        becomes the state after the first i + 1. */
    method Step(ghost env0: map<string, Value>, evs: seq<Event>, i: nat, ghost printed0: seq<string>)
      requires AllRegistersValid(evs) && i < |evs|
      requires commands == Commands(evs[..i]) && env == Env(env0, evs[..i])
      requires printed == printed0 + Warnings(evs[..i])
      modifies this
      ensures commands == Commands(evs[..i + 1]) && env == Env(env0, evs[..i + 1])
      ensures printed == printed0 + Warnings(evs[..i + 1])
    {
      RunOneMore(env0, evs, i);
      Apply(evs[i]);
    }

    /** `parse`: empty the program, run the program's events in order, and
        return the program they built. */
    method Parse(evs: seq<Event>) returns (program: seq<Instr>)
      requires AllRegistersValid(evs)
      modifies this
      ensures program == commands == Commands(evs)
      ensures env == Env(old(env), evs)
      ensures printed == old(printed) + Warnings(evs)
    {
      Reset();
      ghost var env0 := env;
      var i := 0;
      while i < |evs|
        invariant 0 <= i <= |evs|
        invariant commands == Commands(evs[..i])
        invariant env == Env(env0, evs[..i])
        invariant printed == old(printed) + Warnings(evs[..i])
      {
        Step(env0, evs, i, old(printed));
        i := i + 1;
      }
      assert evs[..i] == evs;
      program := commands;
    }
  }
}
