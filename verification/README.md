# A verified model of the `asm.py` single-pass assembler

`asm.py` assembles programs for a small machine with 16-bit instruction
words. The assembled program is a script that calls instruction
constructors (`lri`, `add`) and `label`. Each constructed instruction
appends itself to a global program buffer (`COMMANDS`). `label(name)`
binds the name to the current buffer length in the environment (`ENV`).
That environment also binds the register names `r0`..`r15` to 0..15.
When the script has run, the driver encodes every instruction into one
16-bit word (`genbits`). It stores the words in an unsigned-short array,
byte-swaps that array on a little-endian host, and writes it out, so the
file is big-endian on every host. With `-g` it also writes one
`file:line` debug line per instruction. Messages have the form
`<file>:<line>: <kind>: <msg>`.

The model has one module per component:

- `text.dfy` (`Text`): the numerals printed by `%d` and `%X`, the
  parsers that read them back, and splitting at a separator.
- `diagnostics.dfy` (`Diagnostics`): the `out`, `error` and `warn`
  message lines, and a parser that reads a line back into its parts.
- `isa.dfy` (`Isa`): the instructions as a closed datatype, `Encode`
  (`genbits`), `Decode` into four nibbles, `Disassemble`, and the
  range check `lri` performs when it is constructed.
- `assembler.dfy` (`Assembly`): the session as a class `Assembler`
  holding the program (`seq<Instr>`), the environment
  (`map<string, Value>`) and the printed lines. Its methods are
  `Append`, `Lri`, `Add`, `Label`, `Reset` and `Parse`. `Parse` takes
  the program as a sequence of events. Pure functions `Commands`, `Env`
  and `Warnings` specify what a run of events builds.
- `emitter.dfy` (`Emitter`): the encode loop, the in-place byte swap,
  the bytes written, the debug lines and the debug file.
- `driver.dfy` (`Driver`): one run from events to outputs, and the
  program `lri(r1, 5); label("start"); add(r1, r1, r2)` as an example.

Three behaviours of the code shape the model:

- `label` overwrites any binding of its name. This includes a register
  name or an instruction name, because all of them live in the same `ENV`
  (asm.py:112-124). A program that labels `r3` therefore loses the
  register `r3`. `Label` and `RegistersSurvive` state the condition
  under which the registers stay bound.
- The `lri` immediate occupies bits 11-4 of the word (asm.py:47-50).
- When an `lri` immediate needs more than 8 bits, the code warns and
  then raises an exception (see Findings). The model takes the mask
  that the comment on asm.py:44 and the address check at asm.py:88-90
  intend: warn, then keep the low 8 bits. It models the code as written
  beside it.

## Model

| member | source | states |
|---|---|---|
| `Text.Digits` | asm.py:43 | the numeral is made of digits of the base and has a leading zero only for 0, as `%X` and `%d` print |
| `Text.Decimal` | asm.py:20 | `%d` prints only digits and an optional minus sign, so it contains no colon and no newline |
| `Text.Hex` | asm.py:43 | `%X` prints a non-empty string of upper-case hexadecimal digits |
| `Text.DecimalRoundTrip` | asm.py:20 | reading back the `%d` text of any integer gives that integer |
| `Text.HexRoundTrip` | asm.py:43 | reading back the `%X` text of any natural number gives that number, so the warning names the offending immediate exactly |
| `Text.DecimalInjective` | asm.py:119 | distinct numbers print differently, which makes the names `r0`..`r15` distinct |
| `Diagnostics.Render` | asm.py:18-20 | the line starts with the file name and a colon and ends with the message |
| `Diagnostics.ParseRender` | asm.py:18-20 | a rendered `file:line: kind: msg` line reads back as its kind, file, line and message when the file name has no colon |
| `Diagnostics.ErrorLine` | asm.py:22-24 | `error` renders a line whose kind reads back as `error`, with the given file, line and message |
| `Diagnostics.WarningLine` | asm.py:26-28 | `warn` renders a line whose kind reads back as `warning`, with the given file, line and message |
| `Isa.Decode` | asm.py:6-8 | a word splits into four nibbles below 16 that, shifted back into place, sum to the word |
| `Isa.Encode` | asm.py:47-68 | `lri` puts 1 in bits 15-12, the immediate in bits 11-4 and dest in bits 3-0; `add` decodes to exactly (4, src1, src2, dest); every word is below 0x10000 (the result type) |
| `Isa.Disassemble` | asm.py:47-64 | a word that reads back as an instruction is that instruction's encoding |
| `Isa.DisassembleEncode` | asm.py:47-64 | every instruction's word reads back as that instruction |
| `Isa.EncodeInjective` | asm.py:47-68 | two instructions with the same word are the same instruction |
| `Isa.TooBig` | asm.py:43 | the warning text is `0x`, then hexadecimal digits that read back as the immediate, then ` too big, will truncate` |
| `Isa.BuildLri` | asm.py:36-45 | the intended `lri`: below 0x100 the immediate is kept and nothing is printed; from 0x100 on exactly one warning `file:line: warning: 0x<HEX> too big, will truncate` is printed and the immediate becomes `imm & 0xFF` |
| `Isa.LriAsWritten` | asm.py:42-45 | `lri` as written: it completes exactly when imm < 0x100, prints the same warnings as the intended check, and builds the same instruction when it completes |
| `Isa.LriOverflowCounterexample` | asm.py:42-45 | `lri(r0, 0x100)` raises as written, while the intended check builds an `lri` with immediate 0 and word 0x1000 |
| `Assembly.RegName` | asm.py:119 | a register name is `r` followed by at least one more character |
| `Assembly.RegNameInjective` | asm.py:118-119 | the register names `"r%d"` of distinct indices differ |
| `Assembly.RegisterEnvBinds` | asm.py:118-119 | `RegisterEnv(n)`, the environment after n rounds of the setup loop, binds r0..r(n-1) to 0..n-1 |
| `Assembly.BindRegisters` | asm.py:118-119 | the setup loop leaves exactly `RegisterEnv(16)` |
| `Assembly.WithOperators` | asm.py:121-124 | `add`, `lri` and `label` are bound to their constructors, no other name is added, and every other name keeps its binding |
| `Assembly.Predeclared` | asm.py:116-124 | the initial environment binds r0..r15 to 0..15 and `add`, `lri`, `label` to their constructors |
| `Assembly.Setup` | asm.py:116-124 | module setup, the register loop and then the operator loop, leaves exactly the initial environment |
| `Assembly.Commands` | asm.py:126-131 | a run of events builds at most one instruction per event, and exactly one per event when no event is a `label` call |
| `Assembly.Warnings` | asm.py:42-43 | a run prints exactly one line per `lri` whose immediate is 0x100 or more |
| `Assembly.Env` | asm.py:112-114 | a run removes no name from the environment, and every binding it adds or changes is an address between 0 and the length of the program built |
| `Assembly.CommandsPrefix` | asm.py:32-34 | instructions are only ever appended: the program built by a prefix of the events is a prefix of the final program |
| `Assembly.LabelBinding` | asm.py:112-114 | a label holds the program length at its `label` call, whatever follows, unless a later `label` call names it again |
| `Assembly.EnvUnlabelled` | asm.py:112-114 | a name no `label` call mentions keeps its binding, or stays unbound |
| `Assembly.RegistersSurvive` | asm.py:116-131 | a run that labels no register name leaves r0..r15 bound to 0..15 |
| `Assembly.LabelAddressesNext` | asm.py:112-114 | a label's address is the index of the next instruction constructed after it |
| `Assembly.LabelsAppendNothing` | asm.py:112-114 | `label` calls add no instruction to the program |
| `Assembly.Assembler.constructor` | asm.py:116-124 | the environment is the predeclared one, with registers bound, and the program is empty |
| `Assembly.Assembler.Append` | asm.py:32-34 | constructing an instruction appends exactly it at the end; earlier entries and the environment are unchanged |
| `Assembly.Assembler.Lri` | asm.py:36-45 | appends `lri` with the immediate cut to 8 bits, prints the range check's warnings, and leaves the environment unchanged |
| `Assembly.Assembler.Add` | asm.py:52-68 | appends `add(src1, src2, dest)` and changes nothing else |
| `Assembly.Assembler.Label` | asm.py:112-114 | binds the name to the current program length, overwriting any earlier value; other names and the program are unchanged |
| `Assembly.Assembler.Reset` | asm.py:126-129 | `parse` empties the program and keeps the environment, so r0..r15 stay bound |
| `Assembly.Assembler.Apply` | asm.py:121-124 | one call of the assembled program does what its constructor or `label` does |
| `Assembly.Assembler.Parse` | asm.py:126-131 | `parse` leaves exactly the program, environment and printed lines that the pure specification of the events gives |
| `Emitter.EncodeAll` | asm.py:170-172 | one word per instruction, word i being the encoding of instruction i |
| `Emitter.Swapped` | asm.py:173-174 | swapping a word exchanges its high and low bytes |
| `Emitter.HostBytes` | asm.py:177 | the array's bytes hold each word's two bytes at positions 2i and 2i+1, low byte first on a little-endian host |
| `Emitter.BigEndian` | asm.py:170-177 | the output holds 2N bytes for N words, byte 2i being `word_i >> 8` and byte 2i+1 being `word_i & 0xFF` |
| `Emitter.WordsOfBigEndian` | asm.py:170-177 | the output bytes read back as the words they were written from |
| `Emitter.SwappedHostBytes` | asm.py:173-177 | swapping every word and then writing in little-endian order gives the big-endian bytes |
| `Emitter.ByteSwap` | asm.py:174 | the in-place swap replaces every element by its byte-swapped value |
| `Emitter.Emit` | asm.py:170-177 | the image is the big-endian encoding of the program on either host: 2N bytes, with nothing skipped or reordered, and empty for an empty program |
| `Emitter.DebugLine` | asm.py:181 | a debug line splits at its first colon into the file name and the decimal line number, when the file name has no colon, and has no newline when the file name has none |
| `Emitter.DebugFile` | asm.py:178-181 | the debug file is empty exactly when the program is, and otherwise ends with a newline |
| `Emitter.DebugLines` | asm.py:178-181 | one debug line per instruction and per output word; line i is `file:line` of instruction i, the one encoded as word i |
| `Emitter.LinesOfDebugFile` | asm.py:178-181 | the debug file holds exactly those lines, one per instruction, when no file name contains a newline |
| `Driver.Assemble` | asm.py:151-181 | a run writes the big-endian program, the debug file when asked for, the warnings, and the environment the events leave |
| `Driver.SmallProgramOutput` | asm.py:170-177 | `lri(r1, 5); add(r1, r1, r2)` assembles to the words 0x1051 and 0x4112, bytes 10 51 41 12, with no warning |
| `Driver.SmallProgramLabel` | asm.py:112-114 | in that program, `label("start")` between the two instructions binds `start` to 1 |

## Left out

- Evaluating the assembled program with `execfile` (asm.py:130). The program reaches the model as events whose operands are already evaluated, so name lookup and evaluation errors are not modelled.
- Finding the caller's source position by walking the stack (`here`, asm.py:11-16). The position is a parameter of each event.
- Command-line parsing, the input-file check, and deriving the output and debug file names (asm.py:133-149, 175-176, 179).
- The exception handler that walks the traceback (asm.py:151-168). Only the message format (`ErrorLine`) is modelled, not which file and line it names.
- Writing the files and printing (asm.py:20, 177, 179-181). The model gives the bytes and the lines instead.
- The host byte order (asm.py:173) is a parameter of `Emit`. The output is proved the same, big-endian, for both values.
- `sub`, `move`, `load`, `store` and `jmp` (asm.py:69-111) are inside a string literal, so the program never defines them.
- The parts of `ENV` copied from the module's globals (asm.py:3). Only the register names, the three constructors and the labels are modelled.
- `Emit` allocates its word array at its final length and fills it in order. The source appends to a growable array. The contents are the same.
- `Isa.Encode` adds the shifted fields instead of or-ing them. Its ensures place every field in its own bits, and for fields in disjoint bits `|` and `+` give the same word. That last step is not proved on bit-vectors.
- `Isa.BuildLri`: register operands must be below 16, a precondition. The source never checks them, so a larger `dest` would silently spill into the immediate's bits.
- `Assembly.Assembler.Add`: register operands must be below 16, a precondition, and so must those of every event given to `Assembly.Commands`, `Assembly.Env`, `Assembly.Warnings` and `Assembly.Assembler.Parse` (`RegistersValid`, `AllRegistersValid`). The source accepts any value (asm.py:54-64). `add(16, 1, 2)` packs to 0x5012 and so turns opcode 4 into 5. A `src1` of 256 or more gives a word above 0xFFFF, and `a.append` at asm.py:172 raises an uncaught OverflowError, outside the `try` at asm.py:151-168.
- `Isa.BuildLri`: immediates are natural numbers. The source does not check for negative immediates. A negative one passes the range check and makes the array append fail at output time with an uncaught error.
- `Isa.BuildLri` is the intended behaviour and not the code as written; see Findings.

## Findings

| source | as written | input that shows it | evidently intended | confidence | as-written member | corrected member |
|---|---|---|---|---|---|---|
| asm.py:42-45 | the overflow branch masks `addr`, which is not bound in `lri`, and stores the unmasked `imm`: after the warning it raises "local variable 'addr' referenced before assignment" and the driver exits with status 1 | `lri(r0, 0x100)` | warn, then keep `imm & 0xFF`, as the comment on line 44 and the address check at asm.py:88-90 do | high; not executed | `Isa.LriAsWritten`, `Isa.LriOverflowCounterexample` | `Isa.BuildLri` |
