/** The RFC 6570 style templates of shared/uri_template.go: their parts, the parser, and the printer that
    the parser inverts. */
module UriTemplate {
  import opened Wrappers
  import opened Text

  const MAX_TEMPLATE_LENGTH := 1000000
  const MAX_VARIABLE_LENGTH := 1000000
  const MAX_TEMPLATE_EXPRESSIONS := 10000
  const OPERATORS := "+#./?&"

  datatype Part =
    | Literal(text: string)
    | Expression(name: string, op: string, names: seq<string>, exploded: bool)

  datatype ParseError = TemplateTooLong | Unclosed | TooManyExpressions | NameTooLong

  function GetOperator(expr: string): (op: string)
    ensures op <= expr
  {
    if expr != "" && expr[0] in OPERATORS then [expr[0]] else ""
  }

  function CleanName(s: string): string {
    TrimSpace(Without(s, '*'))
  }

  /** The names that are not empty once cleaned. */
  function CleanNames(xs: seq<string>): seq<string> {
    if xs == [] then []
    else (if CleanName(xs[0]) != "" then [CleanName(xs[0])] else []) + CleanNames(xs[1..])
  }

  function GetNames(expr: string): seq<string> {
    CleanNames(Split(expr[|GetOperator(expr)|..], ','))
  }

  function FirstName(names: seq<string>): string {
    if names == [] then "" else names[0]
  }

  function ParseExpression(expr: string): Part {
    Expression(FirstName(GetNames(expr)), GetOperator(expr), GetNames(expr), '*' in expr)
  }

  predicate NamesFit(names: seq<string>) {
    forall n :: n in names ==> ByteLen(n) <= MAX_VARIABLE_LENGTH
  }

  /** The literal text collected so far, as a part if there is any. */
  function Flush(current: string): seq<Part> {
    if current == "" then [] else [Literal(current)]
  }

  function Prefixed(parts: seq<Part>, r: Result<seq<Part>, ParseError>): Result<seq<Part>, ParseError> {
    if r.Ok? then Ok(parts + r.value) else r
  }

  /** Parses what is left of a template after `count` expressions and the text `current`. */
  function ParseFrom(s: string, current: string, count: nat): Result<seq<Part>, ParseError>
    decreases |s|
  {
    if s == "" then Ok(Flush(current))
    else if s[0] == '{' then
      var end := IndexOf(s, '}');
      if end == |s| then Err(Unclosed)
      else if count + 1 > MAX_TEMPLATE_EXPRESSIONS then Err(TooManyExpressions)
      else if !NamesFit(GetNames(s[1..end])) then Err(NameTooLong)
      else Prefixed(Flush(current) + [ParseExpression(s[1..end])], ParseFrom(s[end + 1..], "", count + 1))
    else ParseFrom(s[1..], current + [s[0]], count)
  }

  /** NewUriTemplate: the parts of a template, or why it is refused. */
  function New(template: string): Result<seq<Part>, ParseError> {
    if ByteLen(template) > MAX_TEMPLATE_LENGTH then Err(TemplateTooLong) else ParseFrom(template, "", 0)
  }

  // ---- The code's loops ----

  lemma {:induction false} CleanNamesConcat(xs: seq<string>, ys: seq<string>)
    ensures CleanNames(xs + ys) == CleanNames(xs) + CleanNames(ys)
  {
    if xs == [] {
      assert xs + ys == ys;
    } else {
      assert (xs + ys)[1..] == xs[1..] + ys;
      CleanNamesConcat(xs[1..], ys);
    }
  }

  method SplitNames(expr: string) returns (names: seq<string>)
    ensures names == GetNames(expr)
  {
    var pieces := Split(expr[|GetOperator(expr)|..], ',');
    names := [];
    for i := 0 to |pieces|
      invariant names == CleanNames(pieces[..i])
    {
      var name := TrimSpace(Without(pieces[i], '*'));
      assert pieces[..i + 1] == pieces[..i] + [pieces[i]];
      CleanNamesConcat(pieces[..i], [pieces[i]]);
      if name != "" {
        names := names + [name];
      }
    }
    assert pieces[..|pieces|] == pieces;
  }

  method AllNamesFit(names: seq<string>) returns (fit: bool)
    ensures fit == NamesFit(names)
  {
    for i := 0 to |names|
      invariant forall k :: 0 <= k < i ==> ByteLen(names[k]) <= MAX_VARIABLE_LENGTH
    {
      if ByteLen(names[i]) > MAX_VARIABLE_LENGTH {
        return false;
      }
    }
    return true;
  }

  lemma {:induction false} PrefixedTwice(a: seq<Part>, b: seq<Part>, r: Result<seq<Part>, ParseError>)
    ensures Prefixed(a, Prefixed(b, r)) == Prefixed(a + b, r)
  {
    if r.Ok? {
      Assoc(a, b, r.value);
    }
  }

  lemma {:induction false} PrefixedNone(r: Result<seq<Part>, ParseError>)
    ensures Prefixed([], r) == r
  {
    assert r.Ok? ==> [] + r.value == r.value;
  }

  /** One expression, read at `{`: the part and where it closes. */
  method ReadExpression(s: string, count: nat) returns (r: Result<(Part, nat), ParseError>)
    requires s != "" && s[0] == '{'
    ensures r.Ok? ==>
      var (part, end) := r.value;
      end == IndexOf(s, '}') < |s| && part == ParseExpression(s[1..end])
      && count + 1 <= MAX_TEMPLATE_EXPRESSIONS && NamesFit(GetNames(s[1..end]))
    ensures r.Err? ==> forall current :: ParseFrom(s, current, count) == Err(r.error)
  {
    var end := IndexOf(s, '}');
    if end == |s| {
      return Err(Unclosed);
    }
    if count + 1 > MAX_TEMPLATE_EXPRESSIONS {
      return Err(TooManyExpressions);
    }
    var expr := s[1..end];
    var names := SplitNames(expr);
    var fit := AllNamesFit(names);
    if !fit {
      return Err(NameTooLong);
    }
    var name := "";
    if |names| > 0 {
      name := names[0];
    }
    return Ok((Expression(name, GetOperator(expr), names, '*' in expr), end));
  }

  /** Saves the accumulated literal text. */
  method Save(parts: seq<Part>, currentText: string) returns (r: seq<Part>)
    ensures r == parts + Flush(currentText)
  {
    r := parts;
    if |currentText| > 0 {
      r := r + [Literal(currentText)];
    }
  }

  /** What parsing yields, given the parts so far and what is left. */
  function Ahead(parts: seq<Part>, left: string, current: string, count: nat): Result<seq<Part>, ParseError> {
    Prefixed(parts, ParseFrom(left, current, count))
  }

  lemma {:induction false} ExpressionStep(parts: seq<Part>, left: string, current: string, count: nat, part: Part, end: nat)
    requires left != "" && left[0] == '{' && end == IndexOf(left, '}') < |left|
    requires count + 1 <= MAX_TEMPLATE_EXPRESSIONS && NamesFit(GetNames(left[1..end]))
    requires part == ParseExpression(left[1..end])
    ensures Ahead(parts, left, current, count)
         == Ahead(parts + Flush(current) + [part], left[end + 1..], "", count + 1)
  {
    PrefixedTwice(parts, Flush(current) + [part], ParseFrom(left[end + 1..], "", count + 1));
    Assoc(parts, Flush(current), [part]);
  }

  lemma {:induction false} TextStep(parts: seq<Part>, left: string, current: string, count: nat)
    requires left != "" && left[0] != '{'
    ensures Ahead(parts, left, current, count) == Ahead(parts, left[1..], current + [left[0]], count)
  {
  }

  lemma {:induction false} TextAdvance(parts: seq<Part>, template: string, i: nat, current: string, count: nat)
    requires i < |template| && template[i] != '{'
    ensures Ahead(parts, template[i..], current, count) == Ahead(parts, template[i + 1..], current + [template[i]], count)
  {
    TextStep(parts, template[i..], current, count);
    DropDrop(template, i, 1);
  }

  /** The branch of the loop that reads an expression: the new parts and where it has read to. */
  method TakeExpression(parts: seq<Part>, template: string, i: nat, currentText: string, count: nat)
    returns (r: Result<(seq<Part>, nat), ParseError>)
    requires i < |template| && template[i] == '{'
    ensures r.Ok? ==>
      var (parts', n) := r.value;
      i < n <= |template| && Ahead(parts, template[i..], currentText, count) == Ahead(parts', template[n..], "", count + 1)
    ensures r.Err? ==> Ahead(parts, template[i..], currentText, count) == Err(r.error)
  {
    var left := template[i..];
    var e := ReadExpression(left, count);
    if e.Err? {
      return Err(e.error);
    }
    var (part, end) := e.value;
    ExpressionStep(parts, left, currentText, count, part, end);
    var saved := Save(parts, currentText);
    DropDrop(template, i, end + 1);
    return Ok((saved + [part], i + end + 1));
  }

  lemma {:induction false} AheadStart(template: string)
    ensures ParseFrom(template, "", 0) == Ahead([], template[0..], "", 0)
  {
    PrefixedNone(ParseFrom(template, "", 0));
    assert template[0..] == template;
  }

  lemma {:induction false} AheadEnd(parts: seq<Part>, current: string, count: nat)
    ensures Ahead(parts, "", current, count) == Ok(parts + Flush(current))
  {
  }

  /** The parse loop. */
  method Parse(template: string) returns (r: Result<seq<Part>, ParseError>)
    ensures r == ParseFrom(template, "", 0)
  {
    var parts: seq<Part> := [];
    var currentText := "";
    var expressionCount := 0;
    var i := 0;
    ghost var goal := ParseFrom(template, "", 0);
    AheadStart(template);
    while i < |template|
      invariant 0 <= i <= |template|
      invariant goal == Ahead(parts, template[i..], currentText, expressionCount)
    {
      if template[i] == '{' {
        var taken := TakeExpression(parts, template, i, currentText, expressionCount);
        if taken.Err? {
          return Err(taken.error);
        }
        parts, currentText, expressionCount := taken.value.0, "", expressionCount + 1;
        i := taken.value.1;
      } else {
        TextAdvance(parts, template, i, currentText, expressionCount);
        currentText := currentText + [template[i]];
        i := i + 1;
      }
    }
    assert template[i..] == "";
    AheadEnd(parts, currentText, expressionCount);
    parts := Save(parts, currentText);
    return Ok(parts);
  }

  method NewUriTemplate(template: string) returns (r: Result<seq<Part>, ParseError>)
    ensures r == New(template)
  {
    if ByteLen(template) > MAX_TEMPLATE_LENGTH {
      return Err(TemplateTooLong);
    }
    r := Parse(template);
  }

  // ---- Printing ----

  function ExprText(p: Part): string
    requires p.Expression?
  {
    p.op + (Join(p.names, ",") + (if p.exploded then "*" else ""))
  }

  function Print(p: Part): string {
    if p.Literal? then p.text else "{" + (ExprText(p) + "}")
  }

  function PrintAll(parts: seq<Part>): string {
    if parts == [] then "" else Print(parts[0]) + PrintAll(parts[1..])
  }

  /** A name as the parser leaves it. */
  predicate GoodName(n: string) {
    n != "" && TrimSpace(n) == n && ',' !in n && '*' !in n && '}' !in n
  }

  predicate GoodNames(names: seq<string>) {
    forall n :: n in names ==> GoodName(n)
  }

  /** Without an operator, the first name must not look like one. */
  predicate Unmistakable(p: Part) {
    p.Expression? && p.op == "" && p.names != [] && p.names[0] != "" ==> p.names[0][0] !in OPERATORS
  }

  predicate Normal(p: Part) {
    if p.Literal? then p.text != "" && '{' !in p.text
    else GoodNames(p.names) && p.name == FirstName(p.names) && (p.op == "" || (|p.op| == 1 && p.op[0] in OPERATORS))
  }

  /** Parts as the parser leaves them: each normal, and no two literals side by side. */
  predicate NormalParts(parts: seq<Part>) {
    && (forall p :: p in parts ==> Normal(p))
    && (forall i :: 0 <= i < |parts| - 1 ==> parts[i].Expression? || parts[i + 1].Expression?)
  }

  predicate AllUnmistakable(parts: seq<Part>) {
    forall p :: p in parts ==> Unmistakable(p)
  }

  function Expressions(parts: seq<Part>): nat {
    if parts == [] then 0 else (if parts[0].Expression? then 1 else 0) + Expressions(parts[1..])
  }

  // ---- The parser inverts printing ----

  /** The comma-separated pieces of a printed list of names, the star going with the last one. */
  function Pieces(names: seq<string>, star: string): seq<string> {
    if |names| <= 1 then [FirstName(names) + star] else [names[0]] + Pieces(names[1..], star)
  }

  lemma {:induction false} JoinPieces(names: seq<string>, star: string)
    ensures Join(names, ",") + star == Join(Pieces(names, star), ",")
    ensures |Pieces(names, star)| >= 1
    decreases |names|
  {
    if |names| > 1 {
      JoinPieces(names[1..], star);
      var more := Pieces(names[1..], star);
      assert ([names[0]] + more)[1..] == more;
      Assoc(names[0] + ",", Join(names[1..], ","), star);
    }
  }

  lemma {:induction false} PiecesAreCommaFree(names: seq<string>, star: string)
    requires GoodNames(names) && ',' !in star
    ensures forall x :: x in Pieces(names, star) ==> ',' !in x
    decreases |names|
  {
    if |names| > 1 {
      assert GoodNames(names[1..]);
      assert names[0] in names;
      PiecesAreCommaFree(names[1..], star);
    } else if |names| == 1 {
      assert names[0] in names;
    }
  }

  lemma {:induction false} CleanGoodName(n: string, star: string)
    requires n == "" || GoodName(n)
    requires star == "" || star == "*"
    ensures CleanName(n + star) == n
  {
    WithoutConcat(n, star, '*');
    assert Without(star, '*') == "";
    assert Without(n, '*') == n;
    assert n + "" == n;
  }

  lemma {:induction false} CleanPieces(names: seq<string>, star: string)
    requires GoodNames(names) && (star == "" || star == "*")
    ensures CleanNames(Pieces(names, star)) == names
    decreases |names|
  {
    if |names| <= 1 {
      assert names == [] || names[0] in names;
      CleanGoodName(FirstName(names), star);
      var one := [FirstName(names) + star];
      assert one[1..] == [];
      assert CleanNames(one) == (if FirstName(names) != "" then [FirstName(names)] else []) + [];
    } else {
      assert names[0] in names && GoodNames(names[1..]);
      CleanGoodName(names[0], "");
      assert names[0] + "" == names[0];
      CleanPieces(names[1..], star);
      assert ([names[0]] + Pieces(names[1..], star))[1..] == Pieces(names[1..], star);
    }
  }

  lemma {:induction false} JoinHas(names: seq<string>, c: char)
    requires c != ','
    ensures c in Join(names, ",") <==> exists n :: n in names && c in n
    decreases |names|
  {
    if |names| > 1 {
      JoinHas(names[1..], c);
      assert forall n :: n in names <==> n == names[0] || n in names[1..];
    } else if |names| == 1 {
      assert names[0] in names;
    }
  }

  /** The operator read from a printed expression is the one printed. */
  lemma {:induction false} OperatorOfPrinted(p: Part)
    requires p.Expression? && Normal(p) && Unmistakable(p)
    ensures GetOperator(ExprText(p)) == p.op
    ensures ExprText(p)[|p.op|..] == Join(p.names, ",") + (if p.exploded then "*" else "")
  {
    var body := Join(p.names, ",") + (if p.exploded then "*" else "");
    AppendDrop(p.op, body);
    if p.op == "" {
      assert p.op + body == body;
      if p.names == [] {
        assert body == (if p.exploded then "*" else "");
      } else {
        assert p.names[0] in p.names;
        assert body[0] == p.names[0][0];
      }
    }
  }

  lemma {:induction false} ExprTextIsPlain(p: Part)
    requires p.Expression? && Normal(p)
    ensures '}' !in ExprText(p) && ('*' in ExprText(p) <==> p.exploded)
  {
    JoinHas(p.names, '}');
    JoinHas(p.names, '*');
    assert '}' !in OPERATORS && '*' !in OPERATORS;
  }

  lemma {:induction false} ParsePrintedExpression(p: Part)
    requires p.Expression? && Normal(p) && Unmistakable(p)
    ensures ParseExpression(ExprText(p)) == p && GetNames(ExprText(p)) == p.names
  {
    var star := if p.exploded then "*" else "";
    OperatorOfPrinted(p);
    JoinPieces(p.names, star);
    PiecesAreCommaFree(p.names, star);
    SplitJoin(Pieces(p.names, star), ',');
    assert [','] == ",";
    CleanPieces(p.names, star);
    ExprTextIsPlain(p);
  }

  lemma {:induction false} ParseLiteral(text: string, rest: string, current: string, count: nat)
    requires '{' !in text
    ensures ParseFrom(text + rest, current, count) == ParseFrom(rest, current + text, count)
    decreases |text|
  {
    if text == "" {
      assert text + rest == rest && current + text == current;
    } else {
      assert (text + rest)[1..] == text[1..] + rest;
      ParseLiteral(text[1..], rest, current + [text[0]], count);
      assert current + [text[0]] + text[1..] == current + text;
    }
  }

  /** At the end or before an expression the collected text becomes a part of its own. */
  lemma {:induction false} FlushBefore(s: string, current: string, count: nat)
    requires s == "" || s[0] == '{'
    ensures ParseFrom(s, current, count) == Prefixed(Flush(current), ParseFrom(s, "", count))
  {
    if s == "" {
      assert Flush(current) + [] == Flush(current);
    } else {
      var end := IndexOf(s, '}');
      if end < |s| {
        var one := [ParseExpression(s[1..end])];
        assert Flush("") + one == one;
        PrefixedTwice(Flush(current), one, ParseFrom(s[end + 1..], "", count + 1));
      }
    }
  }

  lemma {:induction false} ParseLiteralThen(text: string, rest: string, count: nat)
    requires text != "" && '{' !in text && (rest == "" || rest[0] == '{')
    ensures ParseFrom(text + rest, "", count) == Prefixed([Literal(text)], ParseFrom(rest, "", count))
  {
    ParseLiteral(text, rest, "", count);
    assert "" + text == text;
    FlushBefore(rest, text, count);
  }

  lemma {:induction false} StartsWithBrace(parts: seq<Part>)
    requires parts != [] ==> parts[0].Expression?
    ensures PrintAll(parts) == "" || PrintAll(parts)[0] == '{'
  {
  }

  lemma {:induction false} Braced(e: string, rest: string)
    requires '}' !in e
    ensures var s := "{" + (e + "}") + rest;
            s[0] == '{' && IndexOf(s, '}') == |e| + 1 && s[1..|e| + 1] == e && s[|e| + 2..] == rest
  {
    assert "{" + (e + "}") + rest == ("{" + e) + ['}'] + rest;
    IndexOfUnique("{" + e, '}', rest);
  }

  lemma {:induction false} ParseBraced(e: string, rest: string, count: nat)
    requires '}' !in e
    ensures ParseFrom("{" + (e + "}") + rest, "", count)
         == if count + 1 > MAX_TEMPLATE_EXPRESSIONS then Err(TooManyExpressions)
            else if !NamesFit(GetNames(e)) then Err(NameTooLong)
            else Prefixed([ParseExpression(e)], ParseFrom(rest, "", count + 1))
  {
    Braced(e, rest);
    assert Flush("") + [ParseExpression(e)] == [ParseExpression(e)];
  }

  lemma {:induction false} ParseExpressionThen(p: Part, rest: string, count: nat)
    requires p.Expression? && Normal(p) && Unmistakable(p) && NamesFit(p.names)
    ensures ParseFrom(Print(p) + rest, "", count)
         == if count + 1 > MAX_TEMPLATE_EXPRESSIONS then Err(TooManyExpressions)
            else Prefixed([p], ParseFrom(rest, "", count + 1))
  {
    ExprTextIsPlain(p);
    ParsePrintedExpression(p);
    ParseBraced(ExprText(p), rest, count);
  }

  lemma {:induction false} NormalTail(parts: seq<Part>)
    requires parts != [] && NormalParts(parts)
    ensures NormalParts(parts[1..]) && Normal(parts[0])
    ensures AllUnmistakable(parts) <==> AllUnmistakable(parts[1..]) && Unmistakable(parts[0])
    ensures |parts| > 1 && parts[0].Literal? ==> parts[1].Expression?
  {
    var later := parts[1..];
    assert forall p :: p in parts <==> p == parts[0] || p in later;
    forall i | 0 <= i < |later| - 1 ensures later[i].Expression? || later[i + 1].Expression? {
      assert parts[i + 1] == later[i];
    }
  }

  predicate PartFits(p: Part) {
    p.Expression? ==> NamesFit(p.names)
  }

  predicate PartsFit(parts: seq<Part>) {
    forall p :: p in parts ==> PartFits(p)
  }

  /** What parsing printed parts yields after `count` expressions. */
  function Reparsed(parts: seq<Part>, count: nat): Result<seq<Part>, ParseError> {
    if count + Expressions(parts) > MAX_TEMPLATE_EXPRESSIONS then Err(TooManyExpressions) else Ok(parts)
  }

  lemma {:induction false} ReparsedStep(parts: seq<Part>, count: nat)
    requires parts != []
    ensures Reparsed(parts, count)
         == Prefixed([parts[0]], Reparsed(parts[1..], if parts[0].Expression? then count + 1 else count))
  {
    HeadTail(parts);
  }

  lemma {:induction false} ParsePrinted(parts: seq<Part>, count: nat)
    requires NormalParts(parts) && AllUnmistakable(parts) && PartsFit(parts) && count <= MAX_TEMPLATE_EXPRESSIONS
    ensures ParseFrom(PrintAll(parts), "", count) == Reparsed(parts, count)
    decreases |parts|
  {
    if parts != [] {
      var later := parts[1..];
      NormalTail(parts);
      assert PartFits(parts[0]) && PartsFit(later) by {
        assert forall q :: q in later ==> q in parts;
      }
      ReparsedStep(parts, count);
      if parts[0].Literal? {
        ParsePrinted(later, count);
        StartsWithBrace(later);
        ParseLiteralThen(parts[0].text, PrintAll(later), count);
      } else {
        ParseExpressionThen(parts[0], PrintAll(later), count);
        if count + 1 <= MAX_TEMPLATE_EXPRESSIONS {
          ParsePrinted(later, count + 1);
        }
      }
    }
  }

  // ---- The limit on names is implied by the one on templates ----

  lemma {:induction false} ByteLenConcat(a: string, b: string)
    ensures ByteLen(a + b) == ByteLen(a) + ByteLen(b)
  {
    if a == "" {
      assert a + b == b;
    } else {
      assert (a + b)[1..] == a[1..] + b;
      ByteLenConcat(a[1..], b);
    }
  }

  lemma {:induction false} NameInJoin(names: seq<string>, n: string)
    requires n in names
    ensures ByteLen(n) <= ByteLen(Join(names, ","))
    decreases |names|
  {
    if |names| > 1 {
      ByteLenConcat(names[0] + ",", Join(names[1..], ","));
      ByteLenConcat(names[0], ",");
      if n != names[0] {
        NameInJoin(names[1..], n);
      }
    }
  }

  lemma {:induction false} NameInPrint(p: Part, n: string)
    requires p.Expression? && n in p.names
    ensures ByteLen(n) <= ByteLen(Print(p))
  {
    var star := if p.exploded then "*" else "";
    NameInJoin(p.names, n);
    ByteLenConcat(Join(p.names, ","), star);
    ByteLenConcat(p.op, Join(p.names, ",") + star);
    ByteLenConcat(ExprText(p), "}");
    ByteLenConcat("{", ExprText(p) + "}");
  }

  lemma {:induction false} PartInPrint(parts: seq<Part>, p: Part)
    requires p in parts
    ensures ByteLen(Print(p)) <= ByteLen(PrintAll(parts))
    decreases |parts|
  {
    ByteLenConcat(Print(parts[0]), PrintAll(parts[1..]));
    if p != parts[0] {
      PartInPrint(parts[1..], p);
    }
  }

  /** Printing normal parts and parsing the text gives them back; only the two limits can prevent it. */
  lemma {:induction false} ParserInvertsPrinting(parts: seq<Part>)
    requires NormalParts(parts) && AllUnmistakable(parts)
    ensures New(PrintAll(parts))
         == if ByteLen(PrintAll(parts)) > MAX_TEMPLATE_LENGTH then Err(TemplateTooLong)
            else if Expressions(parts) > MAX_TEMPLATE_EXPRESSIONS then Err(TooManyExpressions)
            else Ok(parts)
  {
    if ByteLen(PrintAll(parts)) <= MAX_TEMPLATE_LENGTH {
      forall p, n | p in parts && p.Expression? && n in p.names ensures ByteLen(n) <= MAX_VARIABLE_LENGTH {
        PartInPrint(parts, p);
        NameInPrint(p, n);
      }
      assert PartsFit(parts);
      ParsePrinted(parts, 0);
    }
  }

  lemma {:induction false} MistakenOperator(p: Part)
    requires p.Expression? && Normal(p) && !Unmistakable(p)
    ensures GetOperator(ExprText(p)) != p.op
  {
    assert p.names[0] in p.names;
    assert ExprText(p)[0] == p.names[0][0];
  }

  lemma {:induction false} ReparsedLiteral(parts: seq<Part>, count: nat)
    requires NormalParts(parts) && parts != [] && parts[0].Literal?
    requires ParseFrom(PrintAll(parts), "", count) == Ok(parts)
    ensures ParseFrom(PrintAll(parts[1..]), "", count) == Ok(parts[1..])
  {
    var rest := PrintAll(parts[1..]);
    NormalTail(parts);
    StartsWithBrace(parts[1..]);
    ParseLiteralThen(parts[0].text, rest, count);
    PrefixedSame(parts[0], parts, ParseFrom(rest, "", count));
  }

  lemma {:induction false} ReparsedExpression(parts: seq<Part>, count: nat)
    requires NormalParts(parts) && parts != [] && parts[0].Expression?
    requires ParseFrom(PrintAll(parts), "", count) == Ok(parts)
    ensures ParseFrom(PrintAll(parts[1..]), "", count + 1) == Ok(parts[1..])
    ensures GetOperator(ExprText(parts[0])) == parts[0].op
  {
    var e, rest := ExprText(parts[0]), PrintAll(parts[1..]);
    NormalTail(parts);
    ExprTextIsPlain(parts[0]);
    ParseBraced(e, rest, count);
    PrefixedSame(ParseExpression(e), parts, ParseFrom(rest, "", count + 1));
  }

  lemma {:induction false} ReparsedIsUnmistakable(parts: seq<Part>, count: nat)
    requires NormalParts(parts) && ParseFrom(PrintAll(parts), "", count) == Ok(parts)
    ensures AllUnmistakable(parts)
    decreases |parts|
  {
    if parts != [] {
      NormalTail(parts);
      if parts[0].Literal? {
        ReparsedLiteral(parts, count);
        ReparsedIsUnmistakable(parts[1..], count);
      } else {
        ReparsedExpression(parts, count);
        ReparsedIsUnmistakable(parts[1..], count + 1);
        if !Unmistakable(parts[0]) {
          MistakenOperator(parts[0]);
        }
      }
    }
  }

  lemma {:induction false} PrefixedSame(q: Part, parts: seq<Part>, r: Result<seq<Part>, ParseError>)
    requires Prefixed([q], r) == Ok(parts) && parts != []
    ensures q == parts[0] && r == Ok(parts[1..])
  {
    AppendDrop([q], r.value);
  }

  /** Exactly the unmistakable normal parts, within the limits, survive printing and parsing. */
  lemma {:induction false} ReparsesExactly(parts: seq<Part>)
    requires NormalParts(parts)
    ensures New(PrintAll(parts)) == Ok(parts)
       <==> AllUnmistakable(parts) && ByteLen(PrintAll(parts)) <= MAX_TEMPLATE_LENGTH
            && Expressions(parts) <= MAX_TEMPLATE_EXPRESSIONS
  {
    if AllUnmistakable(parts) {
      ParserInvertsPrinting(parts);
    } else if New(PrintAll(parts)) == Ok(parts) {
      ReparsedIsUnmistakable(parts, 0);
    }
  }

  // ---- What the parser leaves is normal ----

  lemma {:induction false} TrimIsTrimmed(s: string)
    ensures TrimSpace(TrimSpace(s)) == TrimSpace(s)
    decreases |s|
  {
    if s != "" {
      if IsSpace(s[0]) {
        TrimIsTrimmed(s[1..]);
      } else if IsSpace(s[|s| - 1]) {
        TrimIsTrimmed(s[..|s| - 1]);
      }
    }
  }

  lemma {:induction false} CleanNamesAreGood(xs: seq<string>)
    requires forall x :: x in xs ==> ',' !in x && '}' !in x
    ensures GoodNames(CleanNames(xs))
    decreases |xs|
  {
    if xs != [] {
      assert xs[0] in xs;
      CleanNamesAreGood(xs[1..]);
      TrimIsTrimmed(Without(xs[0], '*'));
    }
  }

  lemma {:induction false} SplitLetters(s: string, c: char, x: string, d: char)
    requires x in Split(s, c) && d in x
    ensures d in s
    decreases |s|
  {
    var n := IndexOf(s, c);
    if n < |s| && x != s[..n] {
      SplitLetters(s[n + 1..], c, x, d);
    }
  }

  lemma {:induction false} ParsedExpressionIsNormal(expr: string)
    requires '}' !in expr
    ensures Normal(ParseExpression(expr))
  {
    var body := expr[|GetOperator(expr)|..];
    var xs := Split(body, ',');
    forall x | x in xs ensures ',' !in x && '}' !in x {
      forall d | d in x ensures d in body {
        SplitLetters(body, ',', x, d);
      }
    }
    CleanNamesAreGood(xs);
  }

  lemma {:induction false} NormalJoin(current: string, p: Part, later: seq<Part>)
    requires '{' !in current && p.Expression? && Normal(p) && NormalParts(later)
    ensures NormalParts(Flush(current) + [p] + later)
  {
    var all := Flush(current) + [p] + later;
    var k := |Flush(current)|;
    forall i | 0 <= i < |all| - 1 ensures all[i].Expression? || all[i + 1].Expression? {
      assert i > k ==> all[i] == later[i - k - 1] && all[i + 1] == later[i - k];
    }
  }

  /** What the parser returns is normal. So by ReparsesExactly printing and parsing it again changes
      nothing, unless a name begins with an operator character that a blank kept from being read as one. */
  lemma {:induction false} ParsedIsNormal(s: string, current: string, count: nat)
    requires '{' !in current && ParseFrom(s, current, count).Ok?
    ensures NormalParts(ParseFrom(s, current, count).value)
    decreases |s|
  {
    if s != "" {
      if s[0] == '{' {
        var end := IndexOf(s, '}');
        ParsedIsNormal(s[end + 1..], "", count + 1);
        assert '}' !in s[1..end];
        ParsedExpressionIsNormal(s[1..end]);
        NormalJoin(current, ParseExpression(s[1..end]), ParseFrom(s[end + 1..], "", count + 1).value);
      } else {
        ParsedIsNormal(s[1..], current + [s[0]], count);
      }
    }
  }

  lemma {:induction false} AsciiLength(s: string)
    requires forall i :: 0 <= i < |s| ==> s[i] as int < 0x80
    ensures ByteLen(s) == |s|
  {
    if s != "" {
      AsciiLength(s[1..]);
    }
  }

  lemma {:induction false} HiddenNames()
    ensures ParseExpression(" +a") == Expression("+a", "", ["+a"], false) && GetNames(" +a") == ["+a"]
  {
    assert GetOperator(" +a") == "" && " +a"[0..] == " +a";
    assert Split(" +a", ',') == [" +a"] by {
      assert ',' !in " +a";
      assert IndexOf(" +a", ',') == 3;
    }
    assert Without(" +a", '*') == " +a";
    assert " +a"[1..] == "+a" && TrimSpace("+a") == "+a";
    assert CleanName(" +a") == "+a";
    assert [" +a"][1..] == [];
  }

  lemma {:induction false} HiddenPartIsNormal()
    ensures NormalParts([Expression("+a", "", ["+a"], false)]) && !Unmistakable(Expression("+a", "", ["+a"], false))
  {
    assert TrimSpace("+a") == "+a";
  }

  lemma {:induction false} ParsesOne(e: string, p: Part)
    requires '}' !in e && ParseExpression(e) == p && NamesFit(GetNames(e))
    ensures ParseFrom("{" + (e + "}") + "", "", 0) == Ok([p])
  {
    ParseBraced(e, "", 0);
    assert ParseFrom("", "", 1) == Ok([]) && [p] + [] == [p];
  }

  lemma {:induction false} ParsesHidden()
    ensures ParseFrom("{ +a}", "", 0) == Ok([Expression("+a", "", ["+a"], false)])
  {
    HiddenNames();
    AsciiLength("+a");
    assert NamesFit(["+a"]);
    ParsesOne(" +a", Expression("+a", "", ["+a"], false));
    HiddenText();
  }

  lemma {:induction false} HiddenText()
    ensures "{" + (" +a" + "}") + "" == "{ +a}"
  {
  }

  /** The blank in `{ +a}` hides the operator: the parser returns a part that prints as `{+a}` and parses
      back as another one. */
  lemma {:induction false} BlankHidesOperator()
    ensures var parts := [Expression("+a", "", ["+a"], false)];
            New("{ +a}") == Ok(parts) && !AllUnmistakable(parts) && New(PrintAll(parts)) != Ok(parts)
  {
    NewHidden();
    HiddenPartIsNormal();
    OneMistakable(Expression("+a", "", ["+a"], false));
  }

  lemma {:induction false} NewHidden()
    ensures New("{ +a}") == Ok([Expression("+a", "", ["+a"], false)])
  {
    ParsesHidden();
    AsciiLength("{ +a}");
  }

  lemma {:induction false} OneMistakable(p: Part)
    requires NormalParts([p]) && !Unmistakable(p)
    ensures !AllUnmistakable([p]) && New(PrintAll([p])) != Ok([p])
  {
    ReparsesExactly([p]);
    assert p in [p];
  }
}
