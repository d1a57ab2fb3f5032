/** `CodeBuilder` of `context_menu/linux_menus.py`: lays out the Python file
    of a Nautilus extension from the body statements, the handler methods,
    and the directories and modules the handlers import. */
module CodeBuilder {
  import Strs
  import opened LinuxCode
  import WinCommands

  /** `list(set(xs))`: every element once. Python leaves the order to the
      hash of the strings; this model keeps each element's last occurrence. */
  function Dedup(xs: seq<string>): (r: seq<string>)
    ensures Distinct(r)
    ensures forall x :: x in r <==> x in xs
    ensures |r| <= |xs|
  {
    if |xs| == 0 then []
    else
      var rest := Dedup(xs[1..]);
      if xs[0] in rest then rest else [xs[0]] + rest
  }

  predicate Distinct(xs: seq<string>) {
    forall i, j :: 0 <= i < j < |xs| ==> xs[i] != xs[j]
  }

  /** A list without repeats comes through unchanged. */
  lemma {:induction false} DedupDistinct(xs: seq<string>)
    requires Distinct(xs)
    ensures Dedup(xs) == xs
  {
    if |xs| > 0 {
      DedupDistinct(xs[1..]);
      assert xs[0] !in xs[1..];
      assert xs == [xs[0]] + xs[1..];
    }
  }

  /** Removing repeats twice is removing them once. */
  lemma DedupIdempotent(xs: seq<string>)
    ensures Dedup(Dedup(xs)) == Dedup(xs)
  {
    DedupDistinct(Dedup(xs));
  }

  /** The state of a builder: the type is stored upper-cased, the
      directories and modules without repeats. */
  datatype Builder = Builder(bodyCommands: seq<string>, scriptDirs: seq<string>, funcs: seq<string>,
                             imports: seq<string>, activation: string)

  /** `CodeBuilder(body_commands, script_dirs, funcs, imports, type)` */
  function NewBuilder(bodyCommands: seq<string>, scriptDirs: seq<string>, funcs: seq<string>,
                      imports: seq<string>, activation: string): (r: Builder)
    ensures r.bodyCommands == bodyCommands && r.funcs == funcs
    ensures Distinct(r.scriptDirs) && forall d :: d in r.scriptDirs <==> d in scriptDirs
    ensures Distinct(r.imports) && forall m :: m in r.imports <==> m in imports
    ensures r.activation == Strs.Upper(activation)
  {
    Builder(bodyCommands, Dedup(scriptDirs), funcs, Dedup(imports), Strs.Upper(activation))
  }

  /** Each element of `xs` wrapped in `before` and `after`. */
  function Wrap(before: string, xs: seq<string>, after: string): (r: seq<string>)
    ensures |r| == |xs|
    ensures forall i :: 0 <= i < |xs| ==> r[i] == before + xs[i] + after
  {
    seq(|xs|, i requires 0 <= i < |xs| => before + xs[i] + after)
  }

  /** `build_script_dirs()`: one `sys.path.append` line per directory. */
  function ScriptDirsCode(b: Builder): string {
    Strs.Join("\n", Wrap("sys.path.append(\"", b.scriptDirs, "\")"))
  }

  /** `build_imports()`: one `import` line per module. */
  function ImportsCode(b: Builder): string {
    Strs.Join("\n", Wrap("import ", b.imports, ""))
  }

  /** The header of the items method: the background variant exactly for
      the two background types, compared upper-cased. */
  function ItemsMethod(b: Builder): (r: string)
    ensures r == BackgroundItems <==> b.activation in WinCommands.BackgroundTypes
    ensures r == FileItems <==> b.activation !in WinCommands.BackgroundTypes
  {
    assert BackgroundItems[9] != FileItems[9];
    if b.activation in WinCommands.BackgroundTypes then BackgroundItems else FileItems
  }

  /** The handler methods, a blank line between neighbours. */
  function FuncsCode(b: Builder): string {
    Strs.Join("\n\n", b.funcs)
  }

  /** The body of the items method: every statement indented by two tabs,
      one per line. */
  function BodyCode(b: Builder): string {
    Strs.Join("\n", Wrap(Indent, b.bodyCommands, ""))
  }

  /** The indentation of a body statement, and the line of four spaces the
      file closes with. */
  const Indent: string := "\t\t"
  const Trailer: string := "\n    "

  /** `compile()`: the seven sections, each on its own line, between a
      leading newline and a trailing line of four spaces. The file opens
      with the fixed head and the path section, and closes with the items
      method and its body. */
  function Compile(b: Builder): (r: string)
    ensures FileHead(b) <= r
    ensures Strs.EndsWith(r, FileTail(b))
  {
    Strs.Enclosed(FileHead(b), Middle(b), FileTail(b));
    FileHead(b) + Middle(b) + FileTail(b)
  }

  function Middle(b: Builder): string {
    ImportsCode(b) + "\n" + ClassTemplate + "\n" + FuncsCode(b)
  }

  function FileHead(b: Builder): string {
    "\n" + CodeHead + "\n" + ScriptDirsCode(b) + "\n"
  }

  function FileTail(b: Builder): string {
    "\n" + ItemsMethod(b) + "\n" + BodyCode(b) + Trailer
  }

  /** No line of `xs` breaks. */
  predicate NoNewline(xs: seq<string>) {
    forall i :: 0 <= i < |xs| ==> '\n' !in xs[i]
  }

  /** Wrapping in newline-free text keeps every line unbroken. */
  lemma WrapNoNewline(before: string, xs: seq<string>, after: string)
    requires '\n' !in before && '\n' !in after && NoNewline(xs)
    ensures NoNewline(Wrap(before, xs, after))
  {
    forall i | 0 <= i < |xs|
      ensures '\n' !in Wrap(before, xs, after)[i]
    {
      assert Wrap(before, xs, after)[i] == before + xs[i] + after;
    }
  }

  /** Splitting newline-joined lines gives the lines back. */
  lemma LinesRoundTrip(xs: seq<string>)
    requires |xs| > 0 && NoNewline(xs)
    ensures Strs.Split(Strs.Join("\n", xs), '\n') == xs
  {
    assert "\n" == ['\n'];
    Strs.SplitJoin(xs, '\n');
  }

  /** Reading the items method's body back line by line gives each
      statement with its indentation, in order. */
  lemma BodyLines(b: Builder)
    requires |b.bodyCommands| > 0 && NoNewline(b.bodyCommands)
    ensures Strs.Split(BodyCode(b), '\n') == Wrap(Indent, b.bodyCommands, "")
  {
    WrapNoNewline(Indent, b.bodyCommands, "");
    LinesRoundTrip(Wrap(Indent, b.bodyCommands, ""));
  }

  /** Reading the path section back line by line gives one append per
      directory, each directory once. */
  lemma ScriptDirsLines(b: Builder)
    requires |b.scriptDirs| > 0 && NoNewline(b.scriptDirs)
    ensures Strs.Split(ScriptDirsCode(b), '\n') == Wrap("sys.path.append(\"", b.scriptDirs, "\")")
  {
    WrapNoNewline("sys.path.append(\"", b.scriptDirs, "\")");
    LinesRoundTrip(Wrap("sys.path.append(\"", b.scriptDirs, "\")"));
  }

  /** Reading the import section back line by line gives one import per
      module, each module once. */
  lemma ImportsLines(b: Builder)
    requires |b.imports| > 0 && NoNewline(b.imports)
    ensures Strs.Split(ImportsCode(b), '\n') == Wrap("import ", b.imports, "")
  {
    WrapNoNewline("import ", b.imports, "");
    LinesRoundTrip(Wrap("import ", b.imports, ""));
  }

  /** A compiled file ends with its last body statement, indented, and the
      trailing line. */
  lemma LastLine(b: Builder, stmt: string)
    requires |b.bodyCommands| > 0 && b.bodyCommands[|b.bodyCommands| - 1] == stmt
    ensures Strs.EndsWith(Compile(b), Indent + stmt + Trailer)
  {
    BodyEndsWith(b, stmt);
    TailEndsWith(b, Indent + stmt);
    Strs.EndsWithTrans(Compile(b), FileTail(b), Indent + stmt + Trailer);
  }

  /** The body ends with its last statement, indented. */
  lemma BodyEndsWith(b: Builder, stmt: string)
    requires |b.bodyCommands| > 0 && b.bodyCommands[|b.bodyCommands| - 1] == stmt
    ensures Strs.EndsWith(BodyCode(b), Indent + stmt)
  {
    var lines := Wrap(Indent, b.bodyCommands, "");
    assert lines[|lines| - 1] == Indent + stmt + "";
    assert Indent + stmt + "" == Indent + stmt;
    Strs.JoinEndsWith("\n", lines);
  }

  /** Whatever the body ends with, the file's tail ends with, followed by
      the trailing line. */
  lemma TailEndsWith(b: Builder, t: string)
    requires Strs.EndsWith(BodyCode(b), t)
    ensures Strs.EndsWith(FileTail(b), t + Trailer)
  {
    var body := BodyCode(b);
    Strs.EndsWithAppend(body, t, Trailer);
    var front := "\n" + ItemsMethod(b) + "\n";
    assert FileTail(b) == front + "" + (body + Trailer);
    Strs.Enclosed(front, "", body + Trailer);
    Strs.EndsWithTrans(FileTail(b), body + Trailer, t + Trailer);
  }

  /** The seven sections of the file, in order: the fixed head, the path
      section, the imports, the provider class, the handler methods, the
      items method and its body. */
  lemma Sections(b: Builder)
    ensures Compile(b) == "\n" + CodeHead + "\n" + ScriptDirsCode(b) + "\n" + ImportsCode(b) + "\n"
                          + ClassTemplate + "\n" + FuncsCode(b) + "\n" + ItemsMethod(b) + "\n"
                          + BodyCode(b) + Trailer
  {
    Flatten("\n", CodeHead, "\n", ScriptDirsCode(b), "\n", ImportsCode(b), "\n", ClassTemplate, "\n",
            FuncsCode(b), "\n", ItemsMethod(b), "\n", BodyCode(b), Trailer);
  }

  /** Five parts, five parts and five parts joined are the fifteen parts
      joined. */
  lemma Flatten(a1: string, a2: string, a3: string, a4: string, a5: string,
                m1: string, m2: string, m3: string, m4: string, m5: string,
                t1: string, t2: string, t3: string, t4: string, t5: string)
    ensures (a1 + a2 + a3 + a4 + a5) + (m1 + m2 + m3 + m4 + m5) + (t1 + t2 + t3 + t4 + t5)
            == a1 + a2 + a3 + a4 + a5 + m1 + m2 + m3 + m4 + m5 + t1 + t2 + t3 + t4 + t5
  {
  }

  /** Every handler method is in the file, inside the handler section that
      `Sections` places between the class and the items method. */
  lemma HandlerInFile(b: Builder, i: nat)
    requires i < |b.funcs|
    ensures Strs.Occurs(b.funcs[i], FuncsCode(b))
    ensures Strs.Occurs(b.funcs[i], Compile(b))
  {
    Strs.JoinOccurs("\n\n", b.funcs, i);
    InLast(ImportsCode(b) + "\n" + ClassTemplate + "\n", FuncsCode(b));
    MiddleInFile(b);
    Strs.OccursTrans(FuncsCode(b), Middle(b), Compile(b));
    Strs.OccursTrans(b.funcs[i], FuncsCode(b), Compile(b));
  }

  /** Every module of the builder is imported by a line of its own. */
  lemma ImportInFile(b: Builder, m: string)
    requires m in b.imports
    ensures Strs.Occurs("import " + m, ImportsCode(b))
    ensures Strs.Occurs("import " + m, Compile(b))
  {
    var i :| 0 <= i < |b.imports| && b.imports[i] == m;
    var lines := Wrap("import ", b.imports, "");
    assert lines[i] == "import " + m;
    Strs.JoinOccurs("\n", lines, i);
    InFirst(ImportsCode(b), "\n", ClassTemplate, "\n", FuncsCode(b));
    MiddleInFile(b);
    Strs.OccursTrans(ImportsCode(b), Middle(b), Compile(b));
    Strs.OccursTrans("import " + m, ImportsCode(b), Compile(b));
  }

  /** Every directory of the builder is appended to `sys.path`. */
  lemma DirInFile(b: Builder, d: string)
    requires d in b.scriptDirs
    ensures Strs.Occurs("sys.path.append(\"" + d + "\")", ScriptDirsCode(b))
    ensures Strs.Occurs("sys.path.append(\"" + d + "\")", Compile(b))
  {
    var i :| 0 <= i < |b.scriptDirs| && b.scriptDirs[i] == d;
    var lines := Wrap("sys.path.append(\"", b.scriptDirs, "\")");
    Strs.JoinOccurs("\n", lines, i);
    InFourth("\n", CodeHead, "\n", ScriptDirsCode(b), "\n");
    InFront(FileHead(b), Middle(b), FileTail(b));
    Strs.OccursTrans(ScriptDirsCode(b), FileHead(b), Compile(b));
    Strs.OccursTrans(lines[i], ScriptDirsCode(b), Compile(b));
  }

  lemma MiddleInFile(b: Builder)
    ensures Strs.Occurs(Middle(b), Compile(b))
  {
    Strs.OccursIn(FileHead(b), Middle(b), FileTail(b));
  }

  /** Where a part sits in a run of five. */
  lemma InFirst(t: string, a: string, b: string, c: string, d: string)
    ensures Strs.Occurs(t, t + a + b + c + d)
  {
    Strs.OccursIn("", t, a + b + c + d);
    assert "" + t + (a + b + c + d) == t + a + b + c + d;
  }

  lemma InFront(t: string, m: string, f: string)
    ensures Strs.Occurs(t, t + m + f)
  {
    Strs.OccursIn("", t, m + f);
    assert "" + t + (m + f) == t + m + f;
  }

  lemma InFourth(a: string, b: string, c: string, t: string, d: string)
    ensures Strs.Occurs(t, a + b + c + t + d)
  {
    Strs.OccursIn(a + b + c, t, d);
  }

  lemma InLast(p: string, t: string)
    ensures Strs.Occurs(t, p + t)
  {
    Strs.OccursIn(p, t, "");
    assert p + t + "" == p + t;
  }
}
