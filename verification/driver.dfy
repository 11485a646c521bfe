/** One run of the assembler on a program that evaluates without error:
    build the program from its events, then produce the output image and,
    when asked, the debug file. */
module Driver {
  import opened Wrappers
  import opened Isa
  import opened Assembly
  import opened Emitter

  /** What a run produces: the output file's bytes, the debug file's text
      if one was requested, the lines printed, and the final environment. */
  datatype Run = Run(image: seq<Byte>, debugFile: Option<string>, printed: seq<string>, symbols: map<string, Value>)

  method Assemble(evs: seq<Event>, littleHost: bool, debug: bool) returns (run: Run)
    requires AllRegistersValid(evs)
    ensures run.image == BigEndian(EncodeAll(Commands(evs)))
    ensures run.debugFile == if debug then Some(DebugFile(Commands(evs))) else None
    ensures run.printed == Warnings(evs)
    ensures run.symbols == Env(Predeclared(), evs)
  {
    var session := new Assembler();
    var program := session.Parse(evs);
    var image := Emit(program, littleHost);
    var debugFile := if debug then Some(DebugFile(program)) else None;
    run := Run(image, debugFile, session.printed, session.env);
  }

  /** The events of `lri(r1, 5)`, `label("start")`, `add(r1, r1, r2)`. */
  function SmallProgram(): seq<Event>
  {
    [LriCall(Pos("prog.s", 1), 1, 5), LabelCall("start"), AddCall(Pos("prog.s", 3), 1, 1, 2)]
  }

  /** The small program builds an `lri` then an `add`, prints nothing,
      and assembles to the words 0x1051 and 0x4112, written high byte first. */
  lemma SmallProgramOutput()
    ensures AllRegistersValid(SmallProgram())
    ensures Commands(SmallProgram()) == [Instr(Isa.Lri(1, 5), Pos("prog.s", 1)), Instr(Isa.Add(1, 1, 2), Pos("prog.s", 3))]
    ensures Warnings(SmallProgram()) == []
    ensures EncodeAll(Commands(SmallProgram())) == [0x1051, 0x4112]
    ensures BigEndian(EncodeAll(Commands(SmallProgram()))) == [0x10, 0x51, 0x41, 0x12]
  {
    var evs := SmallProgram();
    SmallProgramPrefixes();
    var program := Commands(evs);
    assert program == [Instr(Isa.Lri(1, 5), Pos("prog.s", 1)), Instr(Isa.Add(1, 1, 2), Pos("prog.s", 3))];
    var words := EncodeAll(program);
    assert words == [0x1051, 0x4112];
    var bytes := BigEndian(words);
    assert bytes[0] == 0x10 && bytes[1] == 0x51 && bytes[2] == 0x41 && bytes[3] == 0x12;
  }

  /** `start` names address 1, the `add` that follows it, whatever the
      environment the program starts from. */
  lemma SmallProgramLabel(env: map<string, Value>)
    ensures AllRegistersValid(SmallProgram())
    ensures "start" in Env(env, SmallProgram())
    ensures Env(env, SmallProgram())["start"] == Num(1)
  {
    SmallProgramPrefixes();
    LabelBinding(env, SmallProgram(), 1);
  }

  lemma SmallProgramPrefixes()
    ensures AllRegistersValid(SmallProgram())
    ensures Commands(SmallProgram()[..1]) == [Instr(Isa.Lri(1, 5), Pos("prog.s", 1))]
    ensures Commands(SmallProgram()[..2]) == Commands(SmallProgram()[..1])
    ensures Commands(SmallProgram()) == Commands(SmallProgram()[..2]) + [Instr(Isa.Add(1, 1, 2), Pos("prog.s", 3))]
    ensures Warnings(SmallProgram()) == []
  {
    var evs := SmallProgram();
    assert evs[..1][..0] == [];
    assert evs[..2][..1] == evs[..1];
    assert evs[..3] == evs;
    assert evs[..2] == evs[..|evs| - 1];
  }
}
