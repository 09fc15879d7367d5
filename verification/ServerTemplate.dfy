/** The server's URI templates (server/resource_template.go): validation, expansion by repeated
    replacement, matching by a regular expression that is itself built by repeated replacement, and
    the registry that looks a URI up. */
module ServerTemplate {
  import opened Wrappers
  import opened Text
  import opened Regex

  // ---- The three patterns that look for expressions ----

  const OPERATORS := "+#./;?&"

  /** `\{([+#./;?&]?)([^X]+)(\*?)\}`, or with `*` for the `+`. */
  function VariablePattern(chars: string, quant: string): string {
    "\\{" + ("([+#./;?&]?)" + (RunGroup(chars, quant) + CLOSE_TEXT))
  }

  const CLOSE_TEXT := "(" + "\\*?)" + "\\}"

  const VARIABLE := VariablePattern("}", "+)")
  const ANY_VARIABLE := VariablePattern("}", "*)")
  const PLAIN_VARIABLE := VariablePattern("}*", "+)")

  function VariablePieces(name: Piece): (ps: seq<Piece>) {
    [Chr('{'), OPERATOR_PIECE, name, Run(In({'*'}), 0, true), Chr('}')]
  }

  const OPERATOR_PIECE := Run(In(SetOf(OPERATORS)), 0, true)
  const NAME_PIECE := Run(NotIn(SetOf("}")), 1, false)
  const ANY_NAME_PIECE := Run(NotIn(SetOf("}")), 0, false)
  const PLAIN_NAME_PIECE := Run(NotIn(SetOf("}*")), 1, false)

  /** `regexp.MustCompile(pattern).FindAllStringSubmatch(template, -1)`. */
  function Expressions(pattern: string, template: string): seq<Submatch> {
    var ps := Compile(pattern);
    if ps.None? then [] else FindAll(ps.value, template)
  }

  lemma {:induction false} CompileVariable(chars: string, quant: string, min: nat)
    requires ']' !in chars && ((quant == "+)" && min == 1) || (quant == "*)" && min == 0))
    ensures Compile(VariablePattern(chars, quant)) == Some(VariablePieces(Run(NotIn(SetOf(chars)), min, false)))
  {
    var tail := CLOSE_TEXT;
    CompileEnd();
    CompileNegatedGroup(chars, quant, min, tail);
    var named := RunGroup(chars, quant) + tail;
    CompileOperator(named);
    CompileBrace("([+#./;?&]?)" + named);
    var name := Run(NotIn(SetOf(chars)), min, false);
    VariablePiecesAre(name);
  }

  lemma {:induction false} CompileBrace(rest: string)
    ensures Compile("\\{" + rest) == Prepend([Chr('{')], Compile(rest))
  {
    var r := "\\{" + rest;
    assert r[2..] == rest;
    CompileNext(r, Chr('{'), rest);
  }

  lemma {:induction false} CompileOperator(rest: string)
    ensures Compile("([+#./;?&]?)" + rest) == Prepend([OPERATOR_PIECE], Compile(rest))
  {
    var r := "([+#./;?&]?)" + rest;
    assert r[1..] == "[" + (OPERATORS + "]" + ("?)" + rest));
    ReadSetIs(OPERATORS, "?)" + rest);
    ReadOptional(r[1..], "?)" + rest, rest);
    CompileNext(r, Run(In(SetOf(OPERATORS)), 0, true), rest);
  }

  lemma {:induction false} CompileEnd()
    ensures Compile(CLOSE_TEXT) == Some(CLOSE_PIECES)
  {
    var close := "\\}";
    assert close[2..] == "";
    CompileNext(close, Chr('}'), "");
    assert [Chr('}')] + [] == [Chr('}')];
    ReadStar(close);
    CompileGroup("\\*?)", Run(In({'*'}), 0, true), close);
    assert [Run(In({'*'}), 0, true)] + [Chr('}')] == CLOSE_PIECES;
  }

  lemma {:induction false} ReadStar(rest: string)
    ensures ReadGroup("\\*?)" + rest) == Some((Run(In({'*'}), 0, true), rest))
  {
    var r := "\\*?)" + rest;
    assert r[0] == '\\' && r[1] == '*' && r[2] == '?' && r[3] == ')';
    assert r[2..4] == "?)";
    assert r[4..] == rest;
  }

  lemma {:induction false} ReadOptional(r: string, tail: string, rest: string)
    requires r == "[" + (OPERATORS + "]" + tail) && tail == "?)" + rest
    requires ReadSet(OPERATORS + "]" + tail) == Some((OPERATORS, tail))
    ensures ReadGroup(r) == Some((Run(In(SetOf(OPERATORS)), 0, true), rest))
  {
    assert r[0] == '[' && r[1] == OPERATORS[0];
    assert r[1..] == OPERATORS + "]" + tail;
    assert tail[2..] == rest;
  }

  lemma {:induction false} CompileAllVariables()
    ensures Compile(VARIABLE) == Some(VariablePieces(NAME_PIECE))
    ensures Compile(ANY_VARIABLE) == Some(VariablePieces(ANY_NAME_PIECE))
    ensures Compile(PLAIN_VARIABLE) == Some(VariablePieces(PLAIN_NAME_PIECE))
  {
    CompileVariable("}", "+)", 1);
    CompileVariable("}", "*)", 0);
    CompileVariable("}*", "+)", 1);
  }

  // ---- The grammar ----

  /** A template is a row of ordinary characters and expressions. */
  datatype Token = Ch(c: char) | Expr(op: string, name: string)

  predicate IsNameStart(c: char) {
    'a' <= c <= 'z' || 'A' <= c <= 'Z' || c == '_'
  }

  predicate IsNameChar(c: char) {
    IsNameStart(c) || '0' <= c <= '9'
  }

  /** `^[a-zA-Z_][a-zA-Z0-9_]*$` */
  predicate IsIdentifier(s: string) {
    s != "" && IsNameStart(s[0]) && forall c :: c in s ==> IsNameChar(c)
  }

  predicate WellFormed(t: Token) {
    match t
    case Ch(c) => c != '{' && c != '}'
    case Expr(op, name) => (op == "" || (|op| == 1 && op[0] in OPERATORS)) && IsIdentifier(name)
  }

  predicate AllWellFormed(toks: seq<Token>) {
    forall t :: t in toks ==> WellFormed(t)
  }

  function Show(t: Token): string {
    match t
    case Ch(c) => [c]
    case Expr(op, name) => ['{'] + (op + (name + "}"))
  }

  function Print(toks: seq<Token>): string {
    if toks == [] then "" else Show(toks[0]) + Print(toks[1..])
  }

  /** What the variable patterns find in a printed template. */
  function Submatches(toks: seq<Token>): seq<Submatch> {
    if toks == [] then []
    else if toks[0].Expr? then [Submatch(Show(toks[0]), [toks[0].op, toks[0].name, ""])] + Submatches(toks[1..])
    else Submatches(toks[1..])
  }

  predicate IsNamePiece(p: Piece) {
    p.Run? && !p.single && p.min <= 1 && (p.cls == NotIn(SetOf("}")) || p.cls == NotIn(SetOf("}*")))
  }

  lemma {:induction false} MatchExpression(op: string, name: string, rest: string, p: Piece)
    requires WellFormed(Expr(op, name)) && IsNamePiece(p)
    ensures Match(VariablePieces(p), Show(Expr(op, name)) + rest, false)
         == Some(Found([op, name, ""], |Show(Expr(op, name))|))
  {
    var tail := name + ("}" + rest);
    NameHolds(name, p);
    MatchName(name, rest, p);
    NameFirst(name, rest);
    MatchInside(op, name, tail, [p] + CLOSE_PIECES);
    CharThen('{', [OPERATOR_PIECE] + ([p] + CLOSE_PIECES), op + tail, false, Found([op, name, ""], |op| + |name| + 1));
    ShowThen(op, name, rest);
    VariablePiecesAre(p);
  }

  lemma {:induction false} NameFirst(name: string, rest: string)
    requires IsIdentifier(name)
    ensures var tail := name + ("}" + rest); tail != "" && tail[0] !in OPERATORS
  {
  }

  lemma {:induction false} ShowThen(op: string, name: string, rest: string)
    ensures Show(Expr(op, name)) + rest == ['{'] + (op + (name + ("}" + rest)))
  {
    Assoc(['{'], op + (name + "}"), rest);
    Assoc(op, name + "}", rest);
    Assoc(name, "}", rest);
  }

  lemma {:induction false} VariablePiecesAre(p: Piece)
    ensures VariablePieces(p) == [Chr('{')] + ([OPERATOR_PIECE] + ([p] + CLOSE_PIECES))
  {
  }

  lemma {:induction false} MatchInside(op: string, name: string, tail: string, ps: seq<Piece>)
    requires op == "" || (|op| == 1 && op[0] in OPERATORS)
    requires tail != "" && (op == "" ==> tail[0] !in OPERATORS)
    requires Match(ps, tail, false) == Some(Found([name, ""], |name| + 1))
    ensures Match([OPERATOR_PIECE] + ps, op + tail, false)
         == Some(Found([op, name, ""], |op| + |name| + 1))
  {
    MatchOperator(op, tail, ps, Found([name, ""], |name| + 1));
    assert [op] + [name, ""] == [op, name, ""];
  }

  lemma {:induction false} MatchName(name: string, rest: string, p: Piece)
    requires p.Run? && !p.single && p.min <= |name| && p.cls.Holds(name) && !p.cls.Has('}')
    ensures Match([p] + CLOSE_PIECES, name + ("}" + rest), false) == Some(Found([name, ""], |name| + 1))
  {
    MatchClose(rest);
    RunThen(p, CLOSE_PIECES, name, "}" + rest, false, Found([""], 1));
    assert [name] + [""] == [name, ""];
  }

  const CLOSE_PIECES := [Run(In({'*'}), 0, true), Chr('}')]

  lemma {:induction false} MatchClose(rest: string)
    ensures Match(CLOSE_PIECES, "}" + rest, false) == Some(Found([""], 1))
  {
    assert Match([], rest, false) == Some(Found([], 0));
    CharThen('}', [], rest, false, Found([], 0));
    assert [Chr('}')] + [] == [Chr('}')] && ['}'] + rest == "}" + rest;
    RunThen(CLOSE_PIECES[0], [Chr('}')], "", "}" + rest, false, Found([], 1));
    assert [CLOSE_PIECES[0]] + [Chr('}')] == CLOSE_PIECES;
    assert "" + ("}" + rest) == "}" + rest && [""] + [] == [""];
  }

  lemma {:induction false} MatchOperator(op: string, rest: string, ps: seq<Piece>, f: Found)
    requires op == "" || (|op| == 1 && op[0] in OPERATORS)
    requires rest != "" && (op == "" ==> rest[0] !in OPERATORS)
    requires Match(ps, rest, false) == Some(f)
    ensures Match([OPERATOR_PIECE] + ps, op + rest, false) == Some(Found([op] + f.captures, |op| + f.length))
  {
    OperatorHolds(op);
    RunThen(OPERATOR_PIECE, ps, op, rest, false, f);
  }

  lemma {:induction false} NameHolds(name: string, p: Piece)
    requires IsIdentifier(name) && IsNamePiece(p)
    ensures p.cls.Holds(name) && !p.cls.Has('}')
  {
    assert '}' in "}" && '}' in "}*";
    assert forall c :: c in SetOf("}") || c in SetOf("}*") ==> !IsNameChar(c);
  }

  lemma {:induction false} OperatorHolds(op: string)
    requires op == "" || (|op| == 1 && op[0] in OPERATORS)
    ensures In(SetOf(OPERATORS)).Holds(op)
  {
  }

  /** All three patterns find the expressions of a well-formed template, in order. */
  lemma {:induction false} FindsExpressions(toks: seq<Token>, p: Piece)
    requires AllWellFormed(toks) && IsNamePiece(p)
    ensures FindAll(VariablePieces(p), Print(toks)) == Submatches(toks)
    decreases |toks|
  {
    if toks != [] {
      var s := Print(toks);
      var rest := Print(toks[1..]);
      FindsExpressions(toks[1..], p);
      match toks[0]
      case Ch(c) =>
        assert s[1..] == rest;
        assert WellFormed(toks[0]);
        assert s[0] == c;
        CharFails(VariablePieces(p), s, false);
      case Expr(op, name) =>
        MatchExpression(op, name, rest, p);
        FoundFirst(VariablePieces(p), Show(toks[0]), rest, [op, name, ""]);
    }
  }

  lemma {:induction false} ScannersAgree(toks: seq<Token>)
    requires AllWellFormed(toks)
    ensures Expressions(VARIABLE, Print(toks)) == Submatches(toks)
    ensures Expressions(ANY_VARIABLE, Print(toks)) == Submatches(toks)
    ensures Expressions(PLAIN_VARIABLE, Print(toks)) == Submatches(toks)
  {
    CompileAllVariables();
    FindsExpressions(toks, NAME_PIECE);
    FindsExpressions(toks, ANY_NAME_PIECE);
    FindsExpressions(toks, PLAIN_NAME_PIECE);
  }

  /** For any template at all, the third group of the variable pattern is empty: the greedy name
      takes a closing star, so a `*` modifier is never seen. */
  lemma {:induction false} ModifierIsEmpty(s: string, i: nat)
    requires i < |FindAll(VariablePieces(NAME_PIECE), s)|
    ensures var m := FindAll(VariablePieces(NAME_PIECE), s)[i]; |m.groups| == 3 && m.groups[2] == ""
    decreases |s|
  {
    var ps := VariablePieces(NAME_PIECE);
    var r := Match(ps, s, false);
    if r.Some? && r.value.length > 0 {
      var f := r.value;
      MatchSound(ps, s, false);
      var other := SpelledOtherwise(s[..f.length], f.captures);
      MatchGreediest(ps, s, false, f.length, other);
      GreedierName(f.captures, other);
      if i > 0 {
        ModifierIsEmpty(s[f.length..], i - 1);
      }
    } else {
      ModifierIsEmpty(s[1..], i);
    }
  }

  lemma {:induction false} SpelledOtherwise(s: string, caps: seq<string>) returns (other: seq<string>)
    requires Spells(VariablePieces(NAME_PIECE), s, caps)
    ensures |caps| == 3 && |other| == 3
    ensures other[0] == caps[0] && |other[1]| == |caps[1]| + |caps[2]|
    ensures Spells(VariablePieces(NAME_PIECE), s, other)
  {
    SpelledVariable(s, caps);
    other := [caps[0], caps[1] + caps[2], ""];
    Assoc(caps[1], caps[2], "}");
    SpellsVariable(caps[0], caps[1] + caps[2]);
  }

  lemma {:induction false} GreedierName(a: seq<string>, b: seq<string>)
    requires |a| == 3 && |b| == 3 && AtLeastAsGreedy(a, b) && a[0] == b[0]
    ensures |a[1]| >= |b[1]|
  {
    assert a[1..][0] == a[1] && b[1..][0] == b[1];
  }

  lemma {:induction false} SpelledClose(s: string, caps: seq<string>)
    requires Spells(CLOSE_PIECES, s, caps)
    ensures |caps| == 1 && s == caps[0] + "}" && forall c :: c in caps[0] ==> c == '*'
  {
    var s' := s[|caps[0]|..];
    assert Spells(CLOSE_PIECES[1..], s', caps[1..]);
    assert CLOSE_PIECES[1..][1..] == [];
    assert Spells([], s'[1..], caps[1..]);
    assert s' == "}" + s'[1..];
    assert s == caps[0] + s';
  }

  lemma {:induction false} SpelledName(s: string, caps: seq<string>)
    requires Spells([NAME_PIECE] + CLOSE_PIECES, s, caps)
    ensures |caps| == 2 && s == caps[0] + (caps[1] + "}")
    ensures NAME_PIECE.cls.Holds(caps[0]) && |caps[0]| >= 1 && forall c :: c in caps[1] ==> c == '*'
  {
    assert ([NAME_PIECE] + CLOSE_PIECES)[1..] == CLOSE_PIECES;
    SpelledClose(s[|caps[0]|..], caps[1..]);
    assert s == caps[0] + s[|caps[0]|..];
  }

  lemma {:induction false} SpelledVariable(s: string, caps: seq<string>)
    requires Spells(VariablePieces(NAME_PIECE), s, caps)
    ensures |caps| == 3 && s == ['{'] + (caps[0] + (caps[1] + (caps[2] + "}")))
    ensures In(SetOf(OPERATORS)).Holds(caps[0]) && |caps[0]| <= 1
    ensures NAME_PIECE.cls.Holds(caps[1]) && |caps[1]| >= 1
    ensures forall c :: c in caps[2] ==> c == '*'
  {
    var ps := VariablePieces(NAME_PIECE)[1..];
    var s' := s[1..];
    assert Spells(ps, s', caps);
    assert ps[1..] == [NAME_PIECE] + CLOSE_PIECES;
    SpelledName(s'[|caps[0]|..], caps[1..]);
    assert s' == caps[0] + s'[|caps[0]|..];
    assert s == ['{'] + s';
  }

  lemma {:induction false} SpellsClose()
    ensures Spells(CLOSE_PIECES, "}", [""])
  {
    assert CLOSE_PIECES[1..][1..] == [] && "}"[1..] == "";
    assert Spells([], "", []);
    assert Spells(CLOSE_PIECES[1..], "}", []);
    assert "}"[0..] == "}" && [""][1..] == [];
  }

  lemma {:induction false} SpellsVariable(op: string, name: string)
    requires In(SetOf(OPERATORS)).Holds(op) && |op| <= 1
    requires NAME_PIECE.cls.Holds(name) && |name| >= 1
    ensures Spells(VariablePieces(NAME_PIECE), ['{'] + (op + (name + "}")), [op, name, ""])
  {
    SpellsClose();
    var ps := [NAME_PIECE] + CLOSE_PIECES;
    assert ps[1..] == CLOSE_PIECES && [name, ""][1..] == [""];
    assert (name + "}")[|name|..] == "}";
    assert Spells(ps, name + "}", [name, ""]);
    var qs := VariablePieces(NAME_PIECE)[1..];
    assert qs[1..] == ps && [op, name, ""][1..] == [name, ""];
    var inside := op + (name + "}");
    assert inside[|op|..] == name + "}";
    assert Spells(qs, inside, [op, name, ""]);
    assert (['{'] + inside)[1..] == inside;
  }

  // ---- Validation (server/resource_template.go:438-482) ----

  datatype Error =
    | EmptyTemplate | NestedBraces | UnmatchedClosing | UnmatchedOpening
    | EmptyName | InvalidName(name: string) | MissingVariable(name: string)

  /** The error the brace scan reports on what is left of a template, at the given depth. */
  function BraceError(s: string, depth: nat): Option<Error> {
    if s == "" then (if depth > 0 then Some(UnmatchedOpening) else None)
    else if s[0] == '{' then (if depth + 1 > 1 then Some(NestedBraces) else BraceError(s[1..], depth + 1))
    else if s[0] == '}' then (if depth == 0 then Some(UnmatchedClosing) else BraceError(s[1..], depth - 1))
    else BraceError(s[1..], depth)
  }

  /** The error of the first expression whose name is not an identifier. */
  function NameError(ms: seq<Submatch>): Option<Error> {
    if ms == [] then None
    else
      var name := NameOf(ms[0]);
      if name == "" then Some(EmptyName)
      else if !IsIdentifier(name) then Some(InvalidName(name))
      else NameError(ms[1..])
  }

  function OpOf(m: Submatch): string {
    if |m.groups| > 0 then m.groups[0] else ""
  }

  function NameOf(m: Submatch): string {
    if |m.groups| > 1 then m.groups[1] else ""
  }

  function Validate(t: string): Option<Error> {
    if t == "" then Some(EmptyTemplate)
    else
      var e := BraceError(t, 0);
      if e.Some? then e else NameError(Expressions(ANY_VARIABLE, t))
  }

  method ValidateURITemplate(t: string) returns (err: Option<Error>)
    ensures err == Validate(t)
  {
    if t == "" {
      return Some(EmptyTemplate);
    }
    var depth := 0;
    var i := 0;
    while i < |t|
      invariant 0 <= i <= |t| && 0 <= depth <= 1
      invariant BraceError(t, 0) == BraceError(t[i..], depth)
    {
      assert t[i..][1..] == t[i + 1..];
      if t[i] == '{' {
        depth := depth + 1;
        if depth > 1 {
          return Some(NestedBraces);
        }
      } else if t[i] == '}' {
        depth := depth - 1;
        if depth < 0 {
          return Some(UnmatchedClosing);
        }
      }
      i := i + 1;
    }
    assert t[i..] == "";
    if depth > 0 {
      return Some(UnmatchedOpening);
    }
    var matches := Expressions(ANY_VARIABLE, t);
    var k := 0;
    while k < |matches|
      invariant 0 <= k <= |matches|
      invariant NameError(matches) == NameError(matches[k..])
    {
      var varName := NameOf(matches[k]);
      if varName == "" {
        return Some(EmptyName);
      }
      if !IsIdentifier(varName) {
        return Some(InvalidName(varName));
      }
      k := k + 1;
    }
    return None;
  }

  lemma {:induction false} PrintedBraces(toks: seq<Token>)
    requires AllWellFormed(toks)
    ensures BraceError(Print(toks), 0).None?
    decreases |toks|
  {
    if toks != [] {
      var rest := Print(toks[1..]);
      PrintedBraces(toks[1..]);
      assert WellFormed(toks[0]);
      match toks[0]
      case Ch(c) => AppendDrop([c], rest);
      case Expr(op, name) => ExpressionBraces(op, name, rest);
    }
  }

  lemma {:induction false} ExpressionBraces(op: string, name: string, rest: string)
    requires WellFormed(Expr(op, name))
    ensures BraceError(Show(Expr(op, name)) + rest, 0) == BraceError(rest, 0)
  {
    ShowThen(op, name, rest);
    Assoc(op, name, "}" + rest);
    AppendDrop(['{'], (op + name) + ("}" + rest));
    NoBraceInside(op, name);
    InsideBraces(op + name, rest);
  }

  lemma {:induction false} NoBraceInside(op: string, name: string)
    requires WellFormed(Expr(op, name))
    ensures '{' !in op + name && '}' !in op + name
  {
    assert !IsNameChar('{') && !IsNameChar('}') && '{' !in OPERATORS && '}' !in OPERATORS;
  }

  lemma {:induction false} InsideBraces(w: string, rest: string)
    requires '{' !in w && '}' !in w
    ensures BraceError(w + ("}" + rest), 1) == BraceError(rest, 0)
  {
    if w == "" {
      AppendDrop("}", rest);
      assert "" + ("}" + rest) == "}" + rest;
    } else {
      HeadTail(w);
      Assoc([w[0]], w[1..], "}" + rest);
      AppendDrop([w[0]], w[1..] + ("}" + rest));
      InsideBraces(w[1..], rest);
    }
  }

  lemma {:induction false} PrintedNames(toks: seq<Token>)
    requires AllWellFormed(toks)
    ensures NameError(Submatches(toks)).None?
    decreases |toks|
  {
    if toks != [] {
      PrintedNames(toks[1..]);
      assert WellFormed(toks[0]);
      if toks[0].Expr? {
        assert Submatches(toks)[1..] == Submatches(toks[1..]);
      }
    }
  }

  /** Reads back the tokens of a template that validation accepts. */
  ghost function Tokenize(t: string): (toks: seq<Token>)
    decreases |t|
  {
    if t == "" then []
    else if t[0] != '{' then [Ch(t[0])] + Tokenize(t[1..])
    else
      var n := IndexOf(t, '}');
      if n == |t| then []
      else
        var inside := t[1..n];
        var op := if inside != "" && inside[0] in OPERATORS then inside[..1] else "";
        [Expr(op, inside[|op|..])] + Tokenize(t[n + 1..])
  }

  /** What the validating pattern finds at an opening brace. */
  lemma {:induction false} FindsAtBrace(op: string, name: string, rest: string)
    requires '}' !in name
    requires if op == "" then name == "" || name[0] !in OPERATORS else |op| == 1 && op[0] in OPERATORS
    ensures FindAll(VariablePieces(ANY_NAME_PIECE), Show(Expr(op, name)) + rest)
         == [Submatch(Show(Expr(op, name)), [op, name, ""])] + FindAll(VariablePieces(ANY_NAME_PIECE), rest)
  {
    AnyNameMatches(op, name, rest);
    CharThen('{', [OPERATOR_PIECE] + ([ANY_NAME_PIECE] + CLOSE_PIECES), op + (name + ("}" + rest)), false,
             Found([op, name, ""], |op| + |name| + 1));
    VariablePiecesAre(ANY_NAME_PIECE);
    ShowThen(op, name, rest);
    FoundFirst(VariablePieces(ANY_NAME_PIECE), Show(Expr(op, name)), rest, [op, name, ""]);
  }

  lemma {:induction false} AnyNameMatches(op: string, name: string, rest: string)
    requires '}' !in name
    requires if op == "" then name == "" || name[0] !in OPERATORS else |op| == 1 && op[0] in OPERATORS
    ensures Match([OPERATOR_PIECE] + ([ANY_NAME_PIECE] + CLOSE_PIECES), op + (name + ("}" + rest)), false)
         == Some(Found([op, name, ""], |op| + |name| + 1))
  {
    var tail := name + ("}" + rest);
    assert !ANY_NAME_PIECE.cls.Has('}') by { assert '}' in "}"; }
    MatchName(name, rest, ANY_NAME_PIECE);
    MatchInside(op, name, tail, [ANY_NAME_PIECE] + CLOSE_PIECES);
  }

  /** A template whose braces balance, none nested, at depth one closes before it opens again. */
  lemma {:induction false} Closes(s: string)
    requires BraceError(s, 1).None?
    ensures var n := IndexOf(s, '}'); n < |s| && '{' !in s[..n] && BraceError(s[n + 1..], 0).None?
  {
    if s[0] != '}' {
      Closes(s[1..]);
      var n := IndexOf(s[1..], '}');
      assert s[..n + 1] == [s[0]] + s[1..][..n];
      assert s[n + 2..] == s[1..][n + 1..];
    }
  }

  lemma {:induction false} TokenizePrints(t: string)
    requires BraceError(t, 0).None? && NameError(FindAll(VariablePieces(ANY_NAME_PIECE), t)).None?
    ensures AllWellFormed(Tokenize(t)) && Print(Tokenize(t)) == t
    decreases |t|
  {
    if t == "" {
    } else if t[0] != '{' {
      CharFails(VariablePieces(ANY_NAME_PIECE), t, false);
      TokenizePrints(t[1..]);
      assert Tokenize(t)[1..] == Tokenize(t[1..]);
    } else {
      Closes(t[1..]);
      var n := IndexOf(t, '}');
      var op, name := ReadTokenAt(t, n);
      DropDrop(t, 1, n);
      FindsAtBrace(op, name, t[n + 1..]);
      var m := Submatch(Show(Expr(op, name)), [op, name, ""]);
      AppendDrop([m], FindAll(VariablePieces(ANY_NAME_PIECE), t[n + 1..]));
      assert NameOf(m) == name;
      TokenizePrints(t[n + 1..]);
      AppendDrop([Expr(op, name)], Tokenize(t[n + 1..]));
    }
  }

  /** The token that reading takes from the text up to the closing brace. */
  lemma {:induction false} ReadTokenAt(t: string, n: nat) returns (op: string, name: string)
    requires t != "" && t[0] == '{' && n == IndexOf(t, '}') && n < |t|
    ensures Tokenize(t) == [Expr(op, name)] + Tokenize(t[n + 1..])
    ensures t == Show(Expr(op, name)) + t[n + 1..]
    ensures '}' !in name
    ensures if op == "" then name == "" || name[0] !in OPERATORS else |op| == 1 && op[0] in OPERATORS
  {
    var inside := t[1..n];
    op := if inside != "" && inside[0] in OPERATORS then inside[..1] else "";
    name := inside[|op|..];
    assert '}' !in name by { assert forall c :: c in name ==> c in t[..n]; }
    ReadAtBrace(t, n, op);
    Cut(t, n + 1);
  }

  /** The text up to a closing brace, as an opening brace, operator, name and closing brace. */
  lemma {:induction false} ReadAtBrace(t: string, n: nat, op: string)
    requires 0 < n < |t| && t[0] == '{' && t[n] == '}' && op <= t[1..n]
    ensures var name := t[1..n][|op|..];
            t == ['{'] + (op + (name + ("}" + t[n + 1..]))) && Show(Expr(op, name)) == t[..n + 1]
  {
    var name := t[1..n][|op|..];
    HeadTail(t);
    BeforeBrace(t, n);
    PrefixCut(op, t[1..n]);
    var close := "}" + t[n + 1..];
    Assoc(op, name, close);
    ShowThen(op, name, t[n + 1..]);
    AppendDrop(Show(Expr(op, name)), t[n + 1..]);
    assert |Show(Expr(op, name))| == n + 1;
  }

  lemma {:induction false} BeforeBrace(t: string, n: nat)
    requires 0 < n < |t| && t[n] == '}'
    ensures t[1..] == t[1..n] + ("}" + t[n + 1..])
  {
  }

  /** Validation accepts exactly the nonempty rows of brace-free characters and
      `{operator? identifier}` expressions. */
  lemma {:induction false} ValidationIsTheGrammar(t: string)
    ensures Validate(t).None? <==> exists toks :: toks != [] && AllWellFormed(toks) && Print(toks) == t
  {
    CompileAllVariables();
    if Validate(t).None? {
      TokenizePrints(t);
      assert Tokenize(t) != [];
    }
    forall toks | toks != [] && AllWellFormed(toks) && Print(toks) == t ensures Validate(t).None? {
      PrintedIsValid(toks);
    }
  }

  lemma {:induction false} PrintedIsValid(toks: seq<Token>)
    requires toks != [] && AllWellFormed(toks)
    ensures Validate(Print(toks)).None?
  {
    ScannersAgree(toks);
    PrintedBraces(toks);
    PrintedNames(toks);
    assert |Show(toks[0])| > 0;
  }
}
