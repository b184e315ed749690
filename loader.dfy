/** The line filter of CPU.load: which lines of a program listing become
    instructions, with what values, and in what order. Opening the file is
    left to the caller, which hands over its lines. */
module Loader {
  import opened Builtins

  /** How load fails: an IndexError when a line's first field is empty (the
      line starts with a space), a ValueError when a kept field is not a
      binary literal, and an IndexError when the program does not fit in
      RAM. */
  datatype LoadError = EmptyField | NotBinary(field: string) | RamOverflow

  /** line.split(" ")[0]: the text before the first space. */
  function FirstField(line: string): (f: string)
    ensures |f| <= |line| && f == line[..|f|]
    ensures forall i | 0 <= i < |f| :: f[i] != ' '
    ensures |f| < |line| ==> line[|f|] == ' '
  {
    if |line| == 0 || line[0] == ' ' then "" else [line[0]] + FirstField(line[1..])
  }

  /** What load makes of one line. */
  datatype LineRead = Skip | Keep(value: int) | Reject(error: LoadError)

  /** A line is kept when its first field starts with '0' or '1', and then
      contributes int(field, 2); other lines are skipped, except that an
      empty first field raises. */
  function ReadLine(line: string): (r: LineRead)
    ensures r.Skip? <==> |FirstField(line)| > 0 && FirstField(line)[0] != '0' && FirstField(line)[0] != '1'
    ensures r == Reject(EmptyField) <==> |FirstField(line)| == 0
    ensures r.Keep? ==> r.value >= 0 && IntBase2(FirstField(line)) == Some(r.value)
    ensures r.Reject? && r.error != EmptyField ==> r.error == NotBinary(FirstField(line)) && IntBase2(FirstField(line)).None?
  {
    var field := FirstField(line);
    if |field| == 0 then Reject(EmptyField)
    else if field[0] == '0' || field[0] == '1' then
      (IntBase2FromDigit(field);
       match IntBase2(field)
       case None => Reject(NotBinary(field))
       case Some(v) => Keep(v))
    else Skip
  }

  /** What load makes of each line of the listing, in file order. */
  function Reads(lines: seq<string>): (rs: seq<LineRead>)
    ensures |rs| == |lines|
  {
    seq(|lines|, i requires 0 <= i < |lines| => ReadLine(lines[i]))
  }

  /** The program list that load builds from the lines, in file order; the
      first line that raises ends the load with its error. */
  function ProgramOf(lines: seq<string>): (r: Result<seq<int>, LoadError>)
    ensures r.Ok? <==> forall i | 0 <= i < |lines| :: !ReadLine(lines[i]).Reject?
    ensures r.Ok? ==> |r.value| <= |lines| && forall j | 0 <= j < |r.value| :: r.value[j] >= 0
  {
    CollectOfReads(lines);
    Collect(Reads(lines))
  }

  /** The facts behind ProgramOf's contract. */
  lemma CollectOfReads(lines: seq<string>)
    ensures Collect(Reads(lines)).Ok? <==> forall i | 0 <= i < |lines| :: !ReadLine(lines[i]).Reject?
    ensures Collect(Reads(lines)).Ok? ==> forall j | 0 <= j < |Collect(Reads(lines)).value| :: Collect(Reads(lines)).value[j] >= 0
  {
    var readings := Reads(lines);
    assert forall i | 0 <= i < |lines| :: readings[i] == ReadLine(lines[i]);
    CollectOk(readings);
    CollectNonNegative(readings);
  }

  /** Kept values that are all non-negative build a program of non-negative
      values. */
  lemma {:induction false} CollectNonNegative(readings: seq<LineRead>)
    requires forall i | 0 <= i < |readings| :: readings[i].Keep? ==> readings[i].value >= 0
    ensures Collect(readings).Ok? ==> forall j | 0 <= j < |Collect(readings).value| :: Collect(readings).value[j] >= 0
  {
    if |readings| > 0 {
      var init := readings[..|readings| - 1];
      assert forall i | 0 <= i < |init| :: init[i] == readings[i];
      CollectNonNegative(init);
    }
  }

  /** Appending the value of every kept line to the program list; the first
      line that raises ends the loop. */
  function Collect(readings: seq<LineRead>): (r: Result<seq<int>, LoadError>)
    ensures r.Ok? ==> |r.value| <= |readings|
    ensures r.Err? ==> exists i | 0 <= i < |readings| :: readings[i] == Reject(r.error)
  {
    if |readings| == 0 then Ok([])
    else
      match Collect(readings[..|readings| - 1])
      case Err(e) => Err(e)
      case Ok(p) =>
        match readings[|readings| - 1]
        case Skip => Ok(p)
        case Keep(v) => Ok(p + [v])
        case Reject(e) => Err(e)
  }

  /** The positions of the kept lines, in increasing order, and each of them
      exactly once. */
  function KeptAt(readings: seq<LineRead>): (ks: seq<nat>)
    ensures forall j | 0 <= j < |ks| :: ks[j] < |readings| && readings[ks[j]].Keep?
    ensures forall j, k | 0 <= j < k < |ks| :: ks[j] < ks[k]
    ensures forall i | 0 <= i < |readings| :: readings[i].Keep? ==> i in ks
  {
    if |readings| == 0 then []
    else
      var init := readings[..|readings| - 1];
      var ks := KeptAt(init);
      assert forall j | 0 <= j < |ks| :: ks[j] < |readings| - 1;
      ks + (if readings[|readings| - 1].Keep? then [|readings| - 1] else [])
  }

  /** load stops only at a line that raises: it succeeds exactly when no line
      does. */
  lemma {:induction false} CollectOk(readings: seq<LineRead>)
    ensures Collect(readings).Ok? <==> forall i | 0 <= i < |readings| :: !readings[i].Reject?
  {
    if |readings| > 0 {
      var init := readings[..|readings| - 1];
      CollectOk(init);
      assert forall i | 0 <= i < |init| :: init[i] == readings[i];
    }
  }

  /** A failed load reports the error of the first line that raises. */
  lemma {:induction false} CollectFirstError(readings: seq<LineRead>) returns (bad: nat)
    requires Collect(readings).Err?
    ensures bad < |readings| && readings[bad] == Reject(Collect(readings).error)
    ensures forall i | 0 <= i < bad :: !readings[i].Reject?
  {
    var init := readings[..|readings| - 1];
    assert forall i | 0 <= i < |init| :: init[i] == readings[i];
    if Collect(init).Err? {
      bad := CollectFirstError(init);
    } else {
      CollectOk(init);
      bad := |readings| - 1;
    }
  }

  /** A successful load holds one value per kept line, in file order: the
      j-th instruction is the value of the j-th kept line. */
  lemma {:induction false} CollectInOrder(readings: seq<LineRead>)
    requires Collect(readings).Ok?
    ensures |Collect(readings).value| == |KeptAt(readings)|
    ensures forall j | 0 <= j < |KeptAt(readings)| :: readings[KeptAt(readings)[j]] == Keep(Collect(readings).value[j])
  {
    if |readings| > 0 {
      var init := readings[..|readings| - 1];
      assert forall i | 0 <= i < |init| :: init[i] == readings[i];
      CollectInOrder(init);
    }
  }

  /** Loading two listings one after the other: the first error wins,
      otherwise the programs are concatenated. */
  lemma {:induction false} CollectAppend(a: seq<LineRead>, b: seq<LineRead>)
    ensures Collect(a).Err? ==> Collect(a + b) == Collect(a)
    ensures Collect(a).Ok? && Collect(b).Err? ==> Collect(a + b) == Collect(b)
    ensures Collect(a).Ok? && Collect(b).Ok? ==>
      Collect(a + b) == Ok(Collect(a).value + Collect(b).value)
  {
    if |b| == 0 {
      assert a + b == a;
      assert Collect(a).Ok? ==> Collect(a).value + [] == Collect(a).value;
    } else {
      var init := b[..|b| - 1];
      assert (a + b)[..|a + b| - 1] == a + init;
      assert (a + b)[|a + b| - 1] == b[|b| - 1];
      CollectAppend(a, init);
      if Collect(a).Ok? && Collect(init).Ok? {
        var pa, pi := Collect(a).value, Collect(init).value;
        match b[|b| - 1]
        case Skip =>
        case Reject(e) =>
        case Keep(v) => assert pa + pi + [v] == pa + (pi + [v]);
      }
    }
  }

  /** One more line for the build: a skipped line adds nothing, a kept line
      adds its value, and a line that raises is the error of the whole
      build. */
  lemma CollectNext(readings: seq<LineRead>, i: nat)
    requires i < |readings| && Collect(readings[..i]).Ok?
    ensures readings[i].Skip? ==> Collect(readings[..i + 1]) == Collect(readings[..i])
    ensures readings[i].Keep? ==> Collect(readings[..i + 1]) == Ok(Collect(readings[..i]).value + [readings[i].value])
    ensures readings[i].Reject? ==> Collect(readings) == Err(readings[i].error)
  {
    var upTo := readings[..i + 1];
    assert upTo[..i] == readings[..i] && upTo[i] == readings[i];
    if readings[i].Reject? {
      CollectAppend(upTo, readings[i + 1..]);
      assert upTo + readings[i + 1..] == readings;
    }
  }

  /** The instruction-building loop of load, one line at a time. */
  method ReadProgram(lines: seq<string>) returns (r: Result<seq<int>, LoadError>)
    ensures r == ProgramOf(lines)
  {
    var program: seq<int> := [];
    ghost var readings := Reads(lines);
    for i := 0 to |lines|
      invariant Collect(readings[..i]) == Ok(program)
    {
      CollectNext(readings, i);
      match ReadLine(lines[i])
      case Skip =>
      case Keep(v) =>
        program := program + [v];
      case Reject(e) =>
        return Err(e);
    }
    assert readings[..|lines|] == readings;
    r := Ok(program);
  }

  /** A program listing as the loader expects it: each instruction as eight
      binary digits on a line of its own. */
  function Listing(bytes: seq<nat>): seq<string> {
    seq(|bytes|, i requires 0 <= i < |bytes| => Bits(bytes[i], 8) + "\n")
  }

  lemma {:induction false} FirstFieldWithoutSpace(s: string)
    requires forall i | 0 <= i < |s| :: s[i] != ' '
    ensures FirstField(s) == s
  {
    if |s| > 0 {
      FirstFieldWithoutSpace(s[1..]);
    }
  }

  /** One instruction byte written as eight binary digits, then optional
      white space other than a space (a line ending), then optionally a
      comment after a space, is kept and loads as that byte. */
  lemma ReadEncodedLine(b: nat, pad: string, comment: string)
    requires b < 256
    requires forall i | 0 <= i < |pad| :: IsSpace(pad[i]) && pad[i] != ' '
    requires |comment| == 0 || comment[0] == ' '
    ensures ReadLine(Bits(b, 8) + pad + comment) == Keep(b)
  {
    var word := Bits(b, 8) + pad;
    assert forall i | 0 <= i < |word| :: word[i] != ' ';
    FirstFieldWithoutSpace(word);
    if |comment| == 0 {
      assert word + comment == word;
    } else {
      var line := word + comment;
      assert line[..|word|] == word;
      assert FirstField(line) == word;
    }
    assert Pow2(8) == 256;
    IntBase2OfBits(b, 8, pad);
  }

  /** Lines that are all kept load as their values, in order. */
  lemma {:induction false} CollectAllKept(values: seq<int>)
    ensures Collect(seq(|values|, i requires 0 <= i < |values| => Keep(values[i]))) == Ok(values)
  {
    if |values| > 0 {
      var n := |values| - 1;
      var rs := seq(|values|, i requires 0 <= i < |values| => Keep(values[i]));
      assert rs[..n] == seq(n, i requires 0 <= i < n => Keep(values[..n][i]));
      CollectAllKept(values[..n]);
      assert values[..n] + [values[n]] == values;
    }
  }

  /** Round trip: a listing of bytes loads back as exactly those bytes. */
  lemma ProgramOfListing(bytes: seq<nat>)
    requires forall i | 0 <= i < |bytes| :: bytes[i] < 256
    ensures ProgramOf(Listing(bytes)) == Ok(bytes)
  {
    var rs := Reads(Listing(bytes));
    forall i | 0 <= i < |bytes|
      ensures rs[i] == Keep(bytes[i])
    {
      ReadEncodedLine(bytes[i], "\n", "");
      assert Bits(bytes[i], 8) + "\n" + "" == Listing(bytes)[i];
    }
    assert rs == seq(|bytes|, i requires 0 <= i < |bytes| => Keep(bytes[i]));
    CollectAllKept(bytes);
  }
}
