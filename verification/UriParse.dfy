/** What NewUriTemplate makes of any template at all, and of an expression however its names are spaced and
    starred. */
module UriParse {
  import opened Wrappers
  import opened Text
  import opened UriTemplate

  // ---- One expression ----

  /** A name as it may stand between commas: blanks, the name or nothing, a star or none, blanks. */
  datatype Item = Item(before: string, name: string, star: bool, after: string) {
    function Text(): string {
      before + (name + ((if star then "*" else "") + after))
    }

    predicate Good() {
      Blank(before) && Blank(after) && (name == "" || GoodName(name))
    }
  }

  predicate Blank(s: string) {
    forall c :: c in s ==> IsSpace(c)
  }

  predicate AllGood(items: seq<Item>) {
    forall item :: item in items ==> item.Good()
  }

  function Texts(items: seq<Item>): (texts: seq<string>)
    ensures |texts| == |items|
  {
    if items == [] then [] else [items[0].Text()] + Texts(items[1..])
  }

  /** The names that are there. */
  function NamesOf(items: seq<Item>): seq<string> {
    if items == [] then [] else (if items[0].name == "" then [] else [items[0].name]) + NamesOf(items[1..])
  }

  predicate Starred(items: seq<Item>) {
    exists item :: item in items && item.star
  }

  lemma {:induction false} TrimBefore(before: string, s: string)
    requires Blank(before)
    ensures TrimSpace(before + s) == TrimSpace(s)
    decreases |before|
  {
    if before == "" {
      EmptyPlus(s);
    } else {
      assert (before + s)[1..] == before[1..] + s;
      TrimBefore(before[1..], s);
    }
  }

  lemma {:induction false} TrimBlank(after: string)
    requires Blank(after)
    ensures TrimSpace(after) == ""
    decreases |after|
  {
    if after != "" {
      TrimBlank(after[1..]);
    }
  }

  lemma {:induction false} TrimAfter(s: string, after: string)
    requires Blank(after) && s != "" && !IsSpace(s[0])
    ensures TrimSpace(s + after) == TrimSpace(s)
    decreases |after|
  {
    if after == "" {
      assert s + after == s;
    } else {
      var all := s + after;
      assert all[|all| - 1] == after[|after| - 1] && all[..|all| - 1] == s + after[..|after| - 1];
      TrimAfter(s, after[..|after| - 1]);
    }
  }

  lemma {:induction false} TrimmedStart(n: string)
    requires n != "" && TrimSpace(n) == n
    ensures !IsSpace(n[0])
  {
    if IsSpace(n[0]) {
      TrimShorter(n[1..]);
    }
  }

  lemma {:induction false} TrimShorter(s: string)
    ensures |TrimSpace(s)| <= |s|
    decreases |s|
  {
    if s != "" {
      if IsSpace(s[0]) {
        TrimShorter(s[1..]);
      } else if IsSpace(s[|s| - 1]) {
        TrimShorter(s[..|s| - 1]);
      }
    }
  }

  lemma {:induction false} TrimAround(before: string, n: string, after: string)
    requires Blank(before) && Blank(after) && (n == "" || TrimSpace(n) == n)
    ensures TrimSpace(before + (n + after)) == n
  {
    TrimBefore(before, n + after);
    if n == "" {
      EmptyPlus(after);
      TrimBlank(after);
    } else {
      TrimmedStart(n);
      TrimAfter(n, after);
    }
  }

  lemma {:induction false} BlankWithout(s: string)
    requires Blank(s)
    ensures Without(s, '*') == s && ',' !in s && '}' !in s && '*' !in s
  {
  }

  lemma {:induction false} StarWithout(star: bool)
    ensures Without(if star then "*" else "", '*') == ""
  {
  }

  lemma {:induction false} CleansItem(item: Item)
    requires item.Good()
    ensures CleanName(item.Text()) == item.name
    ensures ',' !in item.Text() && ('*' in item.Text() <==> item.star)
  {
    var star := if item.star then "*" else "";
    BlankWithout(item.before);
    BlankWithout(item.after);
    StarWithout(item.star);
    WithoutConcat(item.before, item.name + (star + item.after), '*');
    WithoutConcat(item.name, star + item.after, '*');
    WithoutConcat(star, item.after, '*');
    EmptyPlus(item.after);
    TrimAround(item.before, item.name, item.after);
    assert item.star ==> star[0] == '*';
  }

  lemma {:induction false} CleansItems(items: seq<Item>)
    requires AllGood(items)
    ensures CleanNames(Texts(items)) == NamesOf(items)
    ensures forall x :: x in Texts(items) ==> ',' !in x
    ensures (exists x :: x in Texts(items) && '*' in x) <==> Starred(items)
    decreases |items|
  {
    if items != [] {
      var texts := Texts(items);
      assert forall item :: item in items <==> item == items[0] || item in items[1..];
      CleansItem(items[0]);
      CleansItems(items[1..]);
      assert texts[1..] == Texts(items[1..]);
      assert forall x :: x in texts <==> x == texts[0] || x in texts[1..];
    }
  }

  lemma {:induction false} OperatorBefore(op: string, text: string)
    requires op == "" || (|op| == 1 && op[0] in OPERATORS)
    requires op == "" && text != "" ==> text[0] !in OPERATORS
    ensures GetOperator(op + text) == op && (op + text)[|op|..] == text && ('*' in op + text <==> '*' in text)
  {
    AppendDrop(op, text);
    assert '*' !in OPERATORS;
    if op == "" {
      EmptyPlus(text);
    } else {
      assert op == [op[0]];
    }
  }

  lemma {:induction false} ItemsRead(items: seq<Item>)
    requires items != [] && AllGood(items)
    ensures CleanNames(Split(Join(Texts(items), ","), ',')) == NamesOf(items)
    ensures '*' in Join(Texts(items), ",") <==> Starred(items)
  {
    CleansItems(items);
    assert [','] == ",";
    SplitJoin(Texts(items), ',');
    JoinHas(Texts(items), '*');
  }

  /** An expression's operator is its first character if that is one; its names are what stands between the
      commas, without blanks around and stars, and without the empty ones; and a star after any name makes the
      whole expression exploded. */
  lemma {:induction false} ParsesItems(op: string, items: seq<Item>)
    requires items != [] && AllGood(items) && (op == "" || (|op| == 1 && op[0] in OPERATORS))
    requires var text := Join(Texts(items), ","); op == "" && text != "" ==> text[0] !in OPERATORS
    ensures ParseExpression(op + Join(Texts(items), ","))
         == Expression(FirstName(NamesOf(items)), op, NamesOf(items), Starred(items))
  {
    OperatorBefore(op, Join(Texts(items), ","));
    ItemsRead(items);
  }

  // ---- A whole template ----

  /** Ordinary text, or what stands between braces. */
  datatype Chunk = Plain(text: string) | Braces(expr: string)

  /** Text is not empty, has no opening brace and stands next to no other; an expression has no closing one. */
  predicate Proper(chunks: seq<Chunk>) {
    && (forall c :: c in chunks ==> if c.Plain? then c.text != "" && '{' !in c.text else '}' !in c.expr)
    && (forall i :: 0 <= i < |chunks| - 1 ==> chunks[i].Braces? || chunks[i + 1].Braces?)
  }

  function Show(chunks: seq<Chunk>): string {
    if chunks == [] then ""
    else (if chunks[0].Plain? then chunks[0].text else "{" + (chunks[0].expr + "}")) + Show(chunks[1..])
  }

  function BracesIn(chunks: seq<Chunk>): nat {
    if chunks == [] then 0 else (if chunks[0].Braces? then 1 else 0) + BracesIn(chunks[1..])
  }

  function PartsOf(chunks: seq<Chunk>): (parts: seq<Part>)
    ensures |parts| == |chunks|
    ensures forall i :: 0 <= i < |chunks| ==>
              parts[i] == if chunks[i].Plain? then Literal(chunks[i].text) else ParseExpression(chunks[i].expr)
  {
    seq(|chunks|, i requires 0 <= i < |chunks| =>
      if chunks[i].Plain? then Literal(chunks[i].text) else ParseExpression(chunks[i].expr))
  }

  /** What is left behind the last whole chunk: nothing, or an expression that is not closed. */
  predicate Rest(rest: string) {
    rest == "" || (rest[0] == '{' && '}' !in rest)
  }

  lemma {:induction false} WithoutFits(s: string, c: char)
    ensures ByteLen(Without(s, c)) <= ByteLen(s)
  {
    if s != "" {
      WithoutFits(s[1..], c);
      ByteLenConcat([s[0]], Without(s[1..], c));
      assert [s[0]][1..] == "";
    }
  }

  lemma {:induction false} TrimFits(s: string)
    ensures ByteLen(TrimSpace(s)) <= ByteLen(s)
    decreases |s|
  {
    if s != "" {
      if IsSpace(s[0]) {
        TrimFits(s[1..]);
      } else if IsSpace(s[|s| - 1]) {
        TrimFits(s[..|s| - 1]);
        Cut(s, |s| - 1);
        ByteLenConcat(s[..|s| - 1], s[|s| - 1..]);
      }
    }
  }

  lemma {:induction false} SplitFits(s: string, c: char, x: string)
    requires x in Split(s, c)
    ensures ByteLen(x) <= ByteLen(s)
    decreases |s|
  {
    var n := IndexOf(s, c);
    Cut(s, n);
    ByteLenConcat(s[..n], s[n..]);
    if n < |s| && x != s[..n] {
      assert Split(s, c) == [s[..n]] + Split(s[n + 1..], c);
      assert s[n..][1..] == s[n + 1..];
      SplitFits(s[n + 1..], c, x);
    }
  }

  lemma {:induction false} CleanFits(xs: seq<string>, n: string) returns (x: string)
    requires n in CleanNames(xs)
    ensures x in xs && ByteLen(n) <= ByteLen(x)
    decreases |xs|
  {
    WithoutFits(xs[0], '*');
    TrimFits(Without(xs[0], '*'));
    if n == CleanName(xs[0]) {
      x := xs[0];
    } else {
      x := CleanFits(xs[1..], n);
    }
  }

  lemma {:induction false} NamesFitWithin(expr: string)
    requires ByteLen(expr) <= MAX_VARIABLE_LENGTH
    ensures NamesFit(GetNames(expr))
  {
    var op := GetOperator(expr);
    PrefixCut(op, expr);
    ByteLenConcat(op, expr[|op|..]);
    forall n | n in GetNames(expr) ensures ByteLen(n) <= MAX_VARIABLE_LENGTH {
      var x := CleanFits(Split(expr[|op|..], ','), n);
      SplitFits(expr[|op|..], ',', x);
    }
  }

  predicate ExprsFit(chunks: seq<Chunk>) {
    forall c :: c in chunks && c.Braces? ==> ByteLen(c.expr) <= MAX_VARIABLE_LENGTH
  }

  lemma {:induction false} ShowFits(chunks: seq<Chunk>)
    ensures forall c :: c in chunks && c.Braces? ==> ByteLen(c.expr) <= ByteLen(Show(chunks))
    decreases |chunks|
  {
    if chunks != [] {
      var c, later := chunks[0], chunks[1..];
      ShowFits(later);
      assert forall x :: x in chunks <==> x == c || x in later;
      ByteLenConcat(if c.Plain? then c.text else "{" + (c.expr + "}"), Show(later));
      if c.Braces? {
        ByteLenConcat("{", c.expr + "}");
        ByteLenConcat(c.expr, "}");
      }
    }
  }

  lemma {:induction false} ProperLater(chunks: seq<Chunk>)
    requires chunks != [] && Proper(chunks)
    ensures Proper(chunks[1..])
    ensures if chunks[0].Plain? then chunks[0].text != "" && '{' !in chunks[0].text else '}' !in chunks[0].expr
    ensures ExprsFit(chunks) ==> ExprsFit(chunks[1..])
    ensures chunks[0].Plain? && |chunks| > 1 ==> chunks[1].Braces?
  {
    var later := chunks[1..];
    assert forall c :: c in later ==> c in chunks;
    forall i | 0 <= i < |later| - 1 ensures later[i].Braces? || later[i + 1].Braces? {
      assert chunks[i + 1] == later[i];
    }
  }

  lemma {:induction false} BraceFollows(later: seq<Chunk>, rest: string)
    requires Rest(rest) && (later != [] ==> later[0].Braces?)
    ensures var more := Show(later) + rest; more == "" || more[0] == '{'
  {
    if later == [] {
      EmptyPlus(rest);
    } else {
      assert Show(later)[0] == '{';
    }
  }

  /** The result for these chunks, after `count` expressions. */
  function Parsed(chunks: seq<Chunk>, rest: string, count: nat): Result<seq<Part>, ParseError> {
    if count + BracesIn(chunks) > MAX_TEMPLATE_EXPRESSIONS then Err(TooManyExpressions)
    else if rest != "" then Err(Unclosed)
    else Ok(PartsOf(chunks))
  }

  lemma {:induction false} ParsedStep(chunks: seq<Chunk>, rest: string, count: nat)
    requires chunks != []
    ensures var p := if chunks[0].Plain? then Literal(chunks[0].text) else ParseExpression(chunks[0].expr);
            Parsed(chunks, rest, count)
              == Prefixed([p], Parsed(chunks[1..], rest, if chunks[0].Braces? then count + 1 else count))
  {
    var p := if chunks[0].Plain? then Literal(chunks[0].text) else ParseExpression(chunks[0].expr);
    assert PartsOf(chunks) == [p] + PartsOf(chunks[1..]);
  }

  lemma {:induction false} ParseRest(rest: string, count: nat)
    requires Rest(rest) && count <= MAX_TEMPLATE_EXPRESSIONS
    ensures ParseFrom(rest, "", count) == Parsed([], rest, count)
  {
    assert PartsOf([]) == [];
    if rest != "" {
      var n := IndexOf(rest, '}');
      assert n == |rest|;
    }
  }

  lemma {:induction false} ParsesPlain(text: string, later: seq<Chunk>, rest: string, count: nat)
    requires text != "" && '{' !in text && Rest(rest) && (later != [] ==> later[0].Braces?)
    ensures ParseFrom(Show([Plain(text)] + later) + rest, "", count)
         == Prefixed([Literal(text)], ParseFrom(Show(later) + rest, "", count))
  {
    assert ([Plain(text)] + later)[1..] == later;
    Assoc(text, Show(later), rest);
    BraceFollows(later, rest);
    ParseLiteralThen(text, Show(later) + rest, count);
  }

  lemma {:induction false} ParsesBraces(expr: string, later: seq<Chunk>, rest: string, count: nat)
    requires '}' !in expr && ByteLen(expr) <= MAX_VARIABLE_LENGTH
    ensures ParseFrom(Show([Braces(expr)] + later) + rest, "", count)
         == if count + 1 > MAX_TEMPLATE_EXPRESSIONS then Err(TooManyExpressions)
            else Prefixed([ParseExpression(expr)], ParseFrom(Show(later) + rest, "", count + 1))
  {
    assert ([Braces(expr)] + later)[1..] == later;
    Assoc("{" + (expr + "}"), Show(later), rest);
    NamesFitWithin(expr);
    ParseBraced(expr, Show(later) + rest, count);
  }

  /** The chunks parse so after any number of expressions. (Told apart from the parser, so that proofs about
      rows of chunks do not look into it.) */
  ghost predicate Parses(chunks: seq<Chunk>, rest: string) {
    forall count: nat :: count <= MAX_TEMPLATE_EXPRESSIONS ==>
      ParseFrom(Show(chunks) + rest, "", count) == Parsed(chunks, rest, count)
  }

  lemma {:induction false} ParsesNone(rest: string)
    requires Rest(rest)
    ensures Parses([], rest)
  {
    EmptyPlus(rest);
    forall count: nat | count <= MAX_TEMPLATE_EXPRESSIONS
      ensures ParseFrom(Show([]) + rest, "", count) == Parsed([], rest, count)
    {
      ParseRest(rest, count);
    }
  }

  lemma {:induction false} ParsesOneMore(c: Chunk, later: seq<Chunk>, rest: string)
    requires Parses(later, rest) && Rest(rest)
    requires if c.Plain? then c.text != "" && '{' !in c.text && (later != [] ==> later[0].Braces?)
             else '}' !in c.expr && ByteLen(c.expr) <= MAX_VARIABLE_LENGTH
    ensures Parses([c] + later, rest)
  {
    forall count: nat | count <= MAX_TEMPLATE_EXPRESSIONS
      ensures ParseFrom(Show([c] + later) + rest, "", count) == Parsed([c] + later, rest, count)
    {
      ParsesStep(c, later, rest, count);
    }
  }

  lemma {:induction false} ParsesStep(c: Chunk, later: seq<Chunk>, rest: string, count: nat)
    requires Parses(later, rest) && Rest(rest) && count <= MAX_TEMPLATE_EXPRESSIONS
    requires if c.Plain? then c.text != "" && '{' !in c.text && (later != [] ==> later[0].Braces?)
             else '}' !in c.expr && ByteLen(c.expr) <= MAX_VARIABLE_LENGTH
    ensures ParseFrom(Show([c] + later) + rest, "", count) == Parsed([c] + later, rest, count)
  {
    ParsedStep([c] + later, rest, count);
    assert ([c] + later)[1..] == later;
    if c.Plain? {
      ParsesPlain(c.text, later, rest, count);
    } else {
      ParsesBraces(c.expr, later, rest, count);
    }
  }

  lemma {:induction false} ParsesChunks(chunks: seq<Chunk>, rest: string)
    requires Proper(chunks) && ExprsFit(chunks) && Rest(rest)
    ensures Parses(chunks, rest)
    decreases |chunks|
  {
    if chunks == [] {
      ParsesNone(rest);
    } else {
      ProperLater(chunks);
      ParsesChunks(chunks[1..], rest);
      assert chunks[0] in chunks;
      ParsesOneMore(chunks[0], chunks[1..], rest);
      HeadTail(chunks);
    }
  }

  lemma {:induction false} ParsesFromStart(chunks: seq<Chunk>, rest: string)
    requires Parses(chunks, rest)
    ensures ParseFrom(Show(chunks) + rest, "", 0) == Parsed(chunks, rest, 0)
  {
  }

  /** A template is refused when it is too long, has too many expressions, or has one that is not closed, and
      for no other reason; otherwise its parts are its texts and expressions in their order. */
  lemma {:induction false} NewParses(chunks: seq<Chunk>, rest: string)
    requires Proper(chunks) && Rest(rest)
    ensures New(Show(chunks) + rest)
         == if ByteLen(Show(chunks) + rest) > MAX_TEMPLATE_LENGTH then Err(TemplateTooLong)
            else if BracesIn(chunks) > MAX_TEMPLATE_EXPRESSIONS then Err(TooManyExpressions)
            else if rest != "" then Err(Unclosed)
            else Ok(PartsOf(chunks))
  {
    if ByteLen(Show(chunks) + rest) <= MAX_TEMPLATE_LENGTH {
      ByteLenConcat(Show(chunks), rest);
      ShowFits(chunks);
      ParsesChunks(chunks, rest);
      ParsesFromStart(chunks, rest);
    }
  }

  lemma {:induction false} ProperWith(c: Chunk, later: seq<Chunk>)
    requires Proper(later) && (c.Plain? && later != [] ==> later[0].Braces?)
    requires if c.Plain? then c.text != "" && '{' !in c.text else '}' !in c.expr
    ensures Proper([c] + later)
  {
    var all := [c] + later;
    forall i | 0 <= i < |all| - 1 ensures all[i].Braces? || all[i + 1].Braces? {
      if i > 0 {
        assert all[i] == later[i - 1] && all[i + 1] == later[i];
      }
    }
  }

  lemma {:induction false} TakesBraces(t: string) returns (chunks: seq<Chunk>, rest: string)
    requires t != "" && t[0] == '{'
    ensures Proper(chunks) && Rest(rest) && t == Show(chunks) + rest
    ensures chunks != [] ==> chunks[0].Braces?
    decreases |t|, 0
  {
    var n := IndexOf(t, '}');
    if n == |t| {
      assert t[..n] == t;
      chunks, rest := [], t;
      EmptyPlus(t);
    } else {
      var later;
      later, rest := Chunks(t[n + 1..]);
      var c := Braces(t[1..n]);
      chunks := [c] + later;
      ProperWith(c, later);
      BracesCut(t, n);
      assert chunks[1..] == later;
      Assoc("{" + (c.expr + "}"), Show(later), rest);
    }
  }

  lemma {:induction false} BracesCut(t: string, n: nat)
    requires 0 < n < |t| && t[0] == '{' && t[n] == '}' && '}' !in t[..n]
    ensures '}' !in t[1..n] && t == "{" + (t[1..n] + "}") + t[n + 1..]
  {
    assert forall c :: c in t[1..n] ==> c in t[..n];
  }

  /** Every template is such a row of chunks with such a rest. */
  lemma {:induction false} Chunks(t: string) returns (chunks: seq<Chunk>, rest: string)
    ensures Proper(chunks) && Rest(rest) && t == Show(chunks) + rest
    decreases |t|, 1
  {
    var n := IndexOf(t, '{');
    Cut(t, n);
    if n == |t| {
      chunks, rest := if t == "" then [] else [Plain(t)], "";
      assert chunks != [] ==> chunks[1..] == [] && t[..n] == t;
      assert Show(chunks) == t by { assert t + "" == t; }
      assert t + "" == t;
    } else if n == 0 {
      chunks, rest := TakesBraces(t);
    } else {
      var later;
      later, rest := TakesBraces(t[n..]);
      chunks := [Plain(t[..n])] + later;
      ProperWith(Plain(t[..n]), later);
      assert chunks[1..] == later;
      Assoc(t[..n], Show(later), rest);
    }
  }
}
