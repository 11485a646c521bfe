/** The output stage: every instruction of the finished program encoded
    into a 16-bit word, written as two bytes high byte first whatever the
    host's byte order, and, on request, one `file:line` debug line per
    instruction. */
module Emitter {
  import opened Wrappers
  import opened Text
  import opened Isa

  type Byte = b: nat | b < 0x100

  /** The program's words, one per instruction, in program order. */
  function EncodeAll(program: seq<Instr>): (words: seq<Word>)
    ensures |words| == |program|
    ensures forall i :: 0 <= i < |program| ==> words[i] == Encode(program[i].op)
    decreases |program|
  {
    if program == [] then []
    else EncodeAll(program[..|program| - 1]) + [Encode(program[|program| - 1].op)]
  }

  /** `w >> 8` */
  function High(w: Word): Byte { w / 0x100 }

  /** `w & 0xFF` */
  function Low(w: Word): Byte { w % 0x100 }

  /** `array.byteswap` on one element: the two bytes of the word exchanged. */
  function Swapped(w: Word): (s: Word)
    ensures High(s) == Low(w) && Low(s) == High(w)
  {
    Low(w) * 0x100 + High(w)
  }

  /** The bytes `array.tostring` gives for a word array: each word's two
      bytes in the host's order, low byte first on a little-endian host. */
  function HostBytes(words: seq<Word>, littleHost: bool): (bytes: seq<Byte>)
    ensures |bytes| == 2 * |words|
    ensures forall i :: 0 <= i < |words| ==>
      bytes[2 * i] == (if littleHost then Low(words[i]) else High(words[i])) &&
      bytes[2 * i + 1] == (if littleHost then High(words[i]) else Low(words[i]))
    decreases |words|
  {
    if words == [] then []
    else
      var w := words[|words| - 1];
      HostBytes(words[..|words| - 1], littleHost) + (if littleHost then [Low(w), High(w)] else [High(w), Low(w)])
  }

  /** The output file format: each word as two bytes, high byte first. */
  function BigEndian(words: seq<Word>): (bytes: seq<Byte>)
    ensures |bytes| == 2 * |words|
    ensures forall i :: 0 <= i < |words| ==> bytes[2 * i] == High(words[i]) && bytes[2 * i + 1] == Low(words[i])
  {
    HostBytes(words, false)
  }

  /** Reads a big-endian byte string back into words. */
  function Words(bytes: seq<Byte>): seq<Word>
    requires |bytes| % 2 == 0
    decreases |bytes|
  {
    if bytes == [] then []
    else
      var high: nat, low: nat := bytes[|bytes| - 2], bytes[|bytes| - 1];
      Words(bytes[..|bytes| - 2]) + [high * 0x100 + low]
  }

  /** The output file determines the words it was written from. */
  lemma {:induction false} WordsOfBigEndian(words: seq<Word>)
    ensures Words(BigEndian(words)) == words
    decreases |words|
  {
    if words != [] {
      var init := words[..|words| - 1];
      var w := words[|words| - 1];
      WordsOfBigEndian(init);
      assert BigEndian(words) == BigEndian(init) + [High(w), Low(w)];
      assert BigEndian(words)[..|BigEndian(words)| - 2] == BigEndian(init);
    }
  }

  /** Byte-swapping every word, then writing in little-endian host order,
      gives the big-endian bytes of the original words. */
  lemma {:induction false} SwappedHostBytes(words: seq<Word>, swapped: seq<Word>)
    requires |swapped| == |words|
    requires forall i :: 0 <= i < |words| ==> swapped[i] == Swapped(words[i])
    ensures HostBytes(swapped, true) == BigEndian(words)
    decreases |words|
  {
    if words != [] {
      var n := |words| - 1;
      SwappedHostBytes(words[..n], swapped[..n]);
    }
  }

  /** `a.byteswap()`: exchanges the two bytes of every element in place. */
  method ByteSwap(a: array<Word>)
    modifies a
    ensures forall i :: 0 <= i < a.Length ==> a[i] == Swapped(old(a[i]))
  {
    var i := 0;
    while i < a.Length
      invariant 0 <= i <= a.Length
      invariant forall j :: 0 <= j < i ==> a[j] == Swapped(old(a[j]))
      invariant forall j :: i <= j < a.Length ==> a[j] == old(a[j])
    {
      a[i] := Swapped(a[i]);
      i := i + 1;
    }
  }

  /** The driver's output step: append every instruction's word to a
      16-bit array, byte-swap the array in place on a little-endian host,
      and take its bytes. The result is the big-endian encoding of the
      program on either host. */
  method Emit(program: seq<Instr>, littleHost: bool) returns (image: seq<Byte>)
    ensures |image| == 2 * |program|
    ensures forall i :: 0 <= i < |program| ==>
      image[2 * i] == High(Encode(program[i].op)) && image[2 * i + 1] == Low(Encode(program[i].op))
    ensures image == BigEndian(EncodeAll(program))
  {
    var a := new Word[|program|];
    var i := 0;
    while i < |program|
      invariant 0 <= i <= |program|
      invariant a[..i] == EncodeAll(program[..i])
    {
      a[i] := Encode(program[i].op);
      assert program[..i + 1][..i] == program[..i];
      i := i + 1;
    }
    assert program[..i] == program;
    ghost var words := a[..];
    assert words == EncodeAll(program);
    if littleHost {
      ByteSwap(a);
      SwappedHostBytes(words, a[..]);
    }
    image := HostBytes(a[..], littleHost);
    assert image == BigEndian(words);
  }

  /** One line of the debug file: `"%s:%s" % (cmd.file, cmd.line)`. */
  function DebugLine(pos: Pos): (line: string)
    ensures ':' !in pos.file ==> SplitAt(line, ':') == Some((pos.file, Decimal(pos.line)))
    ensures '\n' !in pos.file ==> '\n' !in line
  {
    var line := pos.file + ":" + Decimal(pos.line);
    if ':' in pos.file then line
    else SplitAtJoin(pos.file, ':', Decimal(pos.line)); line
  }

  /** The debug lines, one per instruction in program order: line i names
      where the instruction written as word i came from. */
  function DebugLines(program: seq<Instr>): (lines: seq<string>)
    ensures |lines| == |program| == |EncodeAll(program)|
    ensures forall i :: 0 <= i < |program| ==> lines[i] == DebugLine(program[i].pos)
    decreases |program|
  {
    if program == [] then [] else [DebugLine(program[0].pos)] + DebugLines(program[1..])
  }

  /** The debug file's text: `print` ends every line with a newline. */
  function DebugFile(program: seq<Instr>): (text: string)
    ensures text == "" <==> program == []
    ensures text != "" ==> text[|text| - 1] == '\n'
    decreases |program|
  {
    if program == [] then "" else DebugLine(program[0].pos) + "\n" + DebugFile(program[1..])
  }

  /** The lines of a text in which every line ends with a newline. */
  function Lines(text: string): seq<string>
    decreases |text|
  {
    match SplitAt(text, '\n')
    case None => if text == "" then [] else [text]
    case Some(p) => [p.0] + Lines(p.1)
  }

  /** The debug file holds exactly the debug lines, one per instruction,
      as long as no source file name contains a newline. */
  lemma {:induction false} LinesOfDebugFile(program: seq<Instr>)
    requires forall i :: 0 <= i < |program| ==> '\n' !in program[i].pos.file
    ensures Lines(DebugFile(program)) == DebugLines(program)
    decreases |program|
  {
    if program != [] {
      var line := DebugLine(program[0].pos);
      assert '\n' !in Decimal(program[0].pos.line);
      assert '\n' !in line;
      assert DebugFile(program) == line + ['\n'] + DebugFile(program[1..]);
      SplitAtJoin(line, '\n', DebugFile(program[1..]));
      LinesOfDebugFile(program[1..]);
    }
  }
}
