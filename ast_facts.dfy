/** Properties of the text rendering: operands are bracketed by kind,
    integers can be read back from their `hex` text, and a statement list
    puts one statement per line. */
module AstFacts {
  import opened PyOps
  import opened Bytecode
  import opened Ast

  /** An operand is wrapped in parentheses exactly when it is a binary or a
      ternary operator. */
  lemma OperandBracketedIffCompound(x: Node)
    ensures Parenthesised(x) <==> Operand(x) == "(" + Render(x) + ")"
  {
    if !Parenthesised(x) {
      assert |Operand(x)| < |"(" + Render(x) + ")"|;
    }
  }

  /** An integer constant is printed by `hex`, which loses nothing; zero is
      `0x0`. */
  lemma IntConstantRoundTrip(i: int)
    ensures ParseHex(Render(Constant(Int(i)))) == i
    ensures i == 0 ==> Render(Constant(Int(i))) == "0x0"
  {
    HexRoundTrip(i);
  }

  /** The position of the last newline of `s`. */
  function LastNewline(s: string): (r: Option<nat>)
    ensures r.Some? ==> r.value < |s| && s[r.value] == '\n' && forall j :: r.value < j < |s| ==> s[j] != '\n'
    ensures r.None? ==> forall j :: 0 <= j < |s| ==> s[j] != '\n'
  {
    if s == [] then None
    else if s[|s| - 1] == '\n' then Some(|s| - 1)
    else LastNewline(s[..|s| - 1])
  }

  /** The lines of a text: the inverse of joining with newlines. */
  function Lines(s: string): seq<string>
    decreases |s|
  {
    match LastNewline(s)
    case None => [s]
    case Some(i) => Lines(s[..i]) + [s[i + 1..]]
  }

  lemma {:induction false} LastNewlineOfJoin(a: string, b: string)
    requires '\n' !in b
    ensures LastNewline(a + "\n" + b) == Some(|a|)
    decreases |b|
  {
    var s := a + "\n" + b;
    if b != [] {
      assert s[..|s| - 1] == a + "\n" + b[..|b| - 1];
      assert s[|s| - 1] == b[|b| - 1];
      LastNewlineOfJoin(a, b[..|b| - 1]);
    }
  }

  /** Joining lines that hold no newline and splitting the text again gives
      the lines back. */
  lemma {:induction false} LinesOfJoin(parts: seq<string>)
    requires parts != []
    requires forall k :: 0 <= k < |parts| ==> '\n' !in parts[k]
    ensures Lines(Join(parts, "\n")) == parts
    decreases |parts|
  {
    if |parts| > 1 {
      var init := parts[..|parts| - 1];
      var last := parts[|parts| - 1];
      var s := Join(parts, "\n");
      assert s == Join(init, "\n") + "\n" + last;
      LastNewlineOfJoin(Join(init, "\n"), last);
      var i := |Join(init, "\n")|;
      assert s[..i] == Join(init, "\n");
      assert s[i + 1..] == last;
      LinesOfJoin(init);
      assert init + [last] == parts;
    }
  }

  /** A statement list prints its statements in order, one per line, each
      followed by `;`; an empty list prints nothing. */
  lemma StatementsOnePerLine(parent: Node, ss: seq<Node>)
    requires forall k :: 0 <= k < |ss| ==> ss[k] < parent
    requires forall k :: 0 <= k < |ss| ==> '\n' !in Render(ss[k])
    ensures ss == [] ==> RenderStatements(parent, ss) == ""
    ensures ss != [] ==> Lines(RenderStatements(parent, ss)) == seq(|ss|, k requires 0 <= k < |ss| => Render(ss[k]) + ";")
  {
    var parts := seq(|ss|, k requires 0 <= k < |ss| => Render(ss[k]) + ";");
    if ss != [] {
      forall k | 0 <= k < |parts|
        ensures '\n' !in parts[k]
      {
        assert parts[k] == Render(ss[k]) + ";";
      }
      LinesOfJoin(parts);
    }
  }

  /** An `else` holding a single `if` continues as `else if`: the text is
      the `if` without its `else`, then ` else `, then the inner `if`. */
  lemma ElseIfChains(c: Node, t: seq<Node>, c2: Node, t2: seq<Node>, f2: FalseBranch)
    ensures Render(If(c, t, FalseStatements([If(c2, t2, f2)])))
         == Render(If(c, t, NoFalse)) + " else " + Render(If(c2, t2, f2))
  {
  }

  /** Any other `else` is a braced block after the `if` without its `else`. */
  lemma ElseBlock(c: Node, t: seq<Node>, fs: seq<Node>)
    requires !(|fs| == 1 && fs[0].If?)
    ensures var head := Render(If(c, t, NoFalse));
            var text := Render(If(c, t, FalseStatements(fs)));
            head + " else {\n" <= text && |text| >= 2 && text[|text| - 2..] == "\n}"
  {
    var n := If(c, t, FalseStatements(fs));
    assert RenderStatements(n, t) == RenderStatements(If(c, t, NoFalse), t);
  }

  /** Without an `else` the `if` opens with `if(` and its condition's text
      and ends with the closing brace of its true block. */
  lemma NoElseEndsWithTrueBlock(c: Node, t: seq<Node>)
    ensures var head := Render(If(c, t, NoFalse));
            |head| >= |Render(c)| + 5
            && head[..3] == "if(" && head[3..3 + |Render(c)|] == Render(c)
            && head[|head| - 2..] == "\n}"
  {
  }

  /** The true block does not depend on the `else`. */
  lemma TrueBlockIndependent(c: Node, t: seq<Node>, fs: seq<Node>)
    ensures Render(If(c, t, NoFalse)) <= Render(If(c, t, FalseStatements(fs)))
  {
    var n := If(c, t, FalseStatements(fs));
    var m := If(c, t, NoFalse);
    assert RenderStatements(n, t) == RenderStatements(m, t);
  }

  /** A single digit prints as `0x` and the digit. */
  lemma SmallIntConstant(d: nat)
    requires d < 10
    ensures Render(Constant(Int(d))) == "0x" + [('0' as int + d) as char]
  {
  }

  const Three := Constant(Int(3))
  const Four := Constant(Int(4))
  const Five := Constant(Int(5))
  const Tern := TernaryOp(Constant(Bool(true)), Three, Four)
  const Add := BinaryOp("+", Five, Tern)
  /** The call of the printer's own example, with its message as a parameter. */
  function PrintfCall(message: string): Node
  {
    FuncCall(ID("printf"), [Constant(Str(message)), Add])
  }
  lemma TernExample()
    ensures Operand(Tern) == "(true ? 0x3 : 0x4)"
  {
    SmallIntConstant(3);
    SmallIntConstant(4);
    assert Render(Tern) == "true ? 0x3 : 0x4";
  }

  lemma AddExample()
    ensures Render(Add) == "0x5 + (true ? 0x3 : 0x4)"
  {
    SmallIntConstant(5);
    TernExample();
  }

  /** A list of one item prints as that item, an empty list as nothing. */
  lemma DeclListShort(parent: Node, ds: seq<Node>)
    requires |ds| <= 1 && forall k :: 0 <= k < |ds| ==> ds[k] < parent
    ensures ds == [] ==> RenderDeclList(parent, ds) == ""
    ensures |ds| == 1 ==> RenderDeclList(parent, ds) == Render(ds[0])
  {
  }

  /** `, ` stands between consecutive items: one more item adds `, ` and its
      text to the end. */
  lemma DeclListSeparated(parent: Node, ds: seq<Node>, d: Node)
    requires ds != [] && d < parent && forall k :: 0 <= k < |ds| ==> ds[k] < parent
    ensures RenderDeclList(parent, ds + [d]) == RenderDeclList(parent, ds) + ", " + Render(d)
  {
    var xs := ds + [d];
    var parts := seq(|xs|, k requires 0 <= k < |xs| => Render(xs[k]));
    assert parts[..|parts| - 1] == seq(|ds|, k requires 0 <= k < |ds| => Render(ds[k]));
  }

  /** A call prints its arguments inside its parentheses, `, ` between each
      two. */
  lemma CallArguments(f: Node, args: seq<Node>, a: Node)
    requires args != []
    ensures Render(FuncCall(f, args + [a])) == Render(f) + "(" + RenderDeclList(FuncCall(f, args), args) + ", " + Render(a) + ")"
  {
    var n := FuncCall(f, args + [a]);
    assert forall k :: 0 <= k < |args| ==> args[k] in n.args;
    assert a in n.args;
    DeclListSeparated(n, args, a);
  }

  lemma StatementsOfOne(parent: Node, s: Node)
    requires s < parent
    ensures RenderStatements(parent, [s]) == Render(s) + ";"
  {
    var ss := [s];
    assert seq(|ss|, k requires 0 <= k < |ss| => Render(ss[k]) + ";") == [Render(s) + ";"];
  }

  /** A call of two arguments prints them inside its parentheses with `, `
      between them. */
  lemma CallOfTwo(f: Node, a: Node, b: Node)
    ensures Render(FuncCall(f, [a, b])) == Render(f) + "(" + Render(a) + ", " + Render(b) + ")"
  {
    assert [a, b] == [a] + [b];
    CallArguments(f, [a], b);
    DeclListShort(FuncCall(f, [a]), [a]);
  }

  lemma PrintfText(message: string, sum: string)
    ensures "printf" + "(" + ("\"" + message + "\"") + ", " + sum + ")" == "printf(\"" + message + "\", " + sum + ")"
  {
    assert "printf" + "(" + "\"" == "printf(\"";
    assert "\"" + ", " == "\", ";
    Regrouped("printf" + "(", "\"", message, ", ", sum + ")");
  }

  lemma Regrouped(h: string, q: string, m: string, c: string, z: string)
    ensures h + (q + m + q) + c + z == (h + q) + m + (q + c) + z
  {
  }

  /** The call of the example prints its text quoted and the sum unbracketed. */
  lemma PrintfExample(message: string)
    ensures Render(PrintfCall(message)) == "printf(\"" + message + "\", " + "0x5 + (true ? 0x3 : 0x4)" + ")"
  {
    CallOfTwo(ID("printf"), Constant(Str(message)), Add);
    AddExample();
    PrintfText(message, Render(Add));
  }

  lemma BodyRegrouped(h: string, x: string, s: string, z: string)
    ensures h + (x + s) + z == h + x + (s + z)
  {
  }

  /** The rendering example kept beside the printer (ast2str.py:203-215):
      the function prints its header, then its one statement with `;` on a
      line of its own. */
  lemma PrinterExample(message: string)
    ensures Render(FuncDef("void", "main", [], [PrintfCall(message)]))
            == "void main(){\n" + Render(PrintfCall(message)) + ";\n}"
  {
    var main := FuncDef("void", "main", [], [PrintfCall(message)]);
    assert PrintfCall(message) in main.body;
    assert RenderDeclList(main, []) == "";
    StatementsOfOne(main, PrintfCall(message));
    var h := "void" + " " + "main" + "(" + "" + "){\n";
    assert h == "void main(){\n";
    BodyRegrouped(h, Render(PrintfCall(message)), ";", "\n}");
  }
}
