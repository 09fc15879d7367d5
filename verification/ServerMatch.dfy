/** Matching a URI against a server template, the two round trips with expansion, and the registry
    that finds the template of a URI. */
module ServerMatch {
  import opened Wrappers
  import opened Text
  import opened Regex
  import opened ServerTemplate
  import opened ServerExpand

  const QUERY_LEAD := "[" + "?&" + "]"

  /** The pattern text an expression is replaced by (server/resource_template.go:279-299). */
  function GroupText(op: string, modifier: string): string {
    if op == "+" then "(.+)"
    else if op == "#" then "#" + RunGroup("?", "*)")
    else if op == "." then "\\." + RunGroup("./", "+)")
    else if op == "/" then (if modifier == "*" then "(/.*)" else "/" + RunGroup("/", "+)"))
    else if op == ";" then ";" + RunGroup(";?&#", "+)")
    else if op == "?" || op == "&" then QUERY_LEAD + RunGroup("&#", "+)")
    else RunGroup("/", "+)")
  }

  /** The loop that puts the groups into the quoted template. */
  function BuildPattern(ms: seq<Submatch>, pattern: string): string {
    if ms == [] then pattern
    else
      var modifier := if |ms[0].groups| > 2 then ms[0].groups[2] else "";
      BuildPattern(ms[1..], ReplaceFirst(pattern, QuoteMeta(ms[0].full), GroupText(OpOf(ms[0]), modifier)))
  }

  /** The operator's prefix is taken off a captured value (server/resource_template.go:325-338). */
  function Clean(op: string, value: string): string {
    if op in {"/", ".", "#"} && op <= value then value[1..] else value
  }

  function Assign(ms: seq<Submatch>, captures: seq<string>, acc: map<string, string>): map<string, string> {
    if ms == [] || captures == [] then acc
    else Assign(ms[1..], captures[1..], acc[NameOf(ms[0]) := Clean(OpOf(ms[0]), captures[0])])
  }

  /** The variables and whether the URI matches. */
  function Matches(uri: string, t: string): (map<string, string>, bool) {
    var ms := Expressions(VARIABLE, t);
    if ms == [] then (map[], uri == t)
    else
      var captures := FindSubmatch("^" + BuildPattern(ms, QuoteMeta(t)) + "$", uri);
      if captures.None? then (map[], false) else (Assign(ms, captures.value, map[]), true)
  }

  lemma {:induction false} GroupTexts()
    ensures RunGroup("?", "*)") == "([^?]*)" && RunGroup("./", "+)") == "([^./]+)" && RunGroup("/", "+)") == "([^/]+)"
    ensures RunGroup(";?&#", "+)") == "([^;?&#]+)" && RunGroup("&#", "+)") == "([^&#]+)"
  {
  }

  lemma {:induction false} LedGroupTexts()
    ensures "#" + "([^?]*)" == "#([^?]*)" && "\\." + "([^./]+)" == "\\.([^./]+)" && "/" + "([^/]+)" == "/([^/]+)"
    ensures ";" + "([^;?&#]+)" == ";([^;?&#]+)" && QUERY_LEAD + "([^&#]+)" == "[?&]([^&#]+)"
  {
  }

  /** The switch over operators when the pattern is built. */
  method GroupFor(op: string, modifier: string) returns (replacement: string)
    ensures replacement == GroupText(op, modifier)
  {
    GroupTexts();
    LedGroupTexts();
    match op {
      case "+" => replacement := "(.+)";
      case "#" => replacement := "#([^?]*)";
      case "." => replacement := "\\.([^./]+)";
      case "/" =>
        if modifier == "*" {
          replacement := "(/.*)";
        } else {
          replacement := "/([^/]+)";
        }
      case ";" => replacement := ";([^;?&#]+)";
      case "?" => replacement := "[?&]([^&#]+)";
      case "&" => replacement := "[?&]([^&#]+)";
      case _ => replacement := "([^/]+)";
    }
  }

  /** The switch over operators when a captured value is cleaned. */
  method CleanValue(op: string, captured: string) returns (value: string)
    ensures value == Clean(op, captured)
    ensures if op in {"/", ".", "#"} && op <= captured then captured == op + value else value == captured
  {
    value := captured;
    match op {
      case "/" =>
        if "/" <= value {
          value := value[1..];
        }
      case "." =>
        if "." <= value {
          value := value[1..];
        }
      case "#" =>
        if "#" <= value {
          value := value[1..];
        }
      case _ =>
    }
  }

  method BuildRegex(matches: seq<Submatch>, t: string) returns (regexPattern: string)
    ensures regexPattern == BuildPattern(matches, QuoteMeta(t))
  {
    regexPattern := QuoteMeta(t);
    var i := 0;
    while i < |matches|
      invariant 0 <= i <= |matches|
      invariant BuildPattern(matches, QuoteMeta(t)) == BuildPattern(matches[i..], regexPattern)
    {
      var m := matches[i];
      assert matches[i..][1..] == matches[i + 1..];
      var modifier := if |m.groups| > 2 then m.groups[2] else "";
      var replacement := GroupFor(OpOf(m), modifier);
      regexPattern := ReplaceFirst(regexPattern, QuoteMeta(m.full), replacement);
      i := i + 1;
    }
  }

  method AssignVariables(matches: seq<Submatch>, captures: seq<string>) returns (variables: map<string, string>)
    ensures variables == Assign(matches, captures, map[])
  {
    variables := map[];
    var i := 0;
    while i < |matches|
      invariant 0 <= i <= |matches|
      invariant Assign(matches, captures, map[])
             == Assign(matches[i..], if i <= |captures| then captures[i..] else [], variables)
    {
      assert matches[i..][1..] == matches[i + 1..];
      if i < |captures| {
        assert captures[i..][1..] == captures[i + 1..];
        var value := CleanValue(OpOf(matches[i]), captures[i]);
        variables := variables[NameOf(matches[i]) := value];
      }
      i := i + 1;
    }
  }

  method MatchesTemplate(uri: string, t: string) returns (variables: map<string, string>, ok: bool)
    ensures (variables, ok) == Matches(uri, t)
  {
    variables := map[];
    var matches := Expressions(VARIABLE, t);
    if |matches| == 0 {
      return variables, uri == t;
    }
    var regexPattern := BuildRegex(matches, t);
    var submatches := FindSubmatch("^" + regexPattern + "$", uri);
    if submatches.None? {
      return variables, false;
    }
    variables := AssignVariables(matches, submatches.value);
    return variables, true;
  }

  // ---- The pattern that the replacement loop builds ----

  function TokenText(t: Token): string {
    if t.Ch? then QuoteMeta1(t.c) else GroupText(t.op, "")
  }

  function PatternText(toks: seq<Token>): string {
    if toks == [] then "" else TokenText(toks[0]) + PatternText(toks[1..])
  }

  function TokenPieces(t: Token): seq<Piece> {
    if t.Ch? then [Chr(t.c)]
    else if t.op == "+" then [Run(NotIn({'\n'}), 1, false)]
    else if t.op == "#" then [Chr('#'), Run(NotIn(SetOf("?")), 0, false)]
    else if t.op == "." then [Chr('.'), Run(NotIn(SetOf("./")), 1, false)]
    else if t.op == "/" then [Chr('/'), Run(NotIn(SetOf("/")), 1, false)]
    else if t.op == ";" then [Chr(';'), Run(NotIn(SetOf(";?&#")), 1, false)]
    else if t.op == "?" || t.op == "&" then [OneOf(In(SetOf("?&"))), Run(NotIn(SetOf("&#")), 1, false)]
    else [Run(NotIn(SetOf("/")), 1, false)]
  }

  function Pieces(toks: seq<Token>): seq<Piece> {
    if toks == [] then [] else TokenPieces(toks[0]) + Pieces(toks[1..])
  }

  lemma {:induction false} CompileToken(t: Token, rest: string)
    ensures Compile(TokenText(t) + rest) == Prepend(TokenPieces(t), Compile(rest))
  {
    if t.Ch? {
      CompileQuotedChar(t.c, rest);
    } else if t.op == "+" {
      CompileAnyGroup(rest);
    } else if t.op == "#" || t.op == "." {
      CompileLed('#', "#", "?", "*)", 0, rest);
      CompileLed('.', "\\.", "./", "+)", 1, rest);
    } else if t.op == "/" || t.op == ";" {
      CompileSegment(t, rest);
    } else if t.op == "?" || t.op == "&" {
      CompileQuery(rest);
    } else {
      CompileNegatedGroup("/", "+)", 1, rest);
    }
  }

  lemma {:induction false} CompileSegment(t: Token, rest: string)
    requires t.Expr? && (t.op == "/" || t.op == ";")
    ensures Compile(TokenText(t) + rest) == Prepend(TokenPieces(t), Compile(rest))
  {
    if t.op == "/" {
      CompileLed('/', "/", "/", "+)", 1, rest);
    } else {
      CompileLed(';', ";", ";?&#", "+)", 1, rest);
    }
  }

  lemma {:induction false} CompileLed(c: char, lead: string, chars: string, quant: string, min: nat, rest: string)
    requires lead == QuoteMeta1(c)
    requires ']' !in chars && ((quant == "+)" && min == 1) || (quant == "*)" && min == 0))
    ensures Compile(lead + RunGroup(chars, quant) + rest)
         == Prepend([Chr(c), Run(NotIn(SetOf(chars)), min, false)], Compile(rest))
  {
    var more := RunGroup(chars, quant) + rest;
    Assoc(lead, RunGroup(chars, quant), rest);
    CompileQuotedChar(c, more);
    CompileNegatedGroup(chars, quant, min, rest);
    assert [Chr(c)] + [Run(NotIn(SetOf(chars)), min, false)] == [Chr(c), Run(NotIn(SetOf(chars)), min, false)];
    PrependTwice([Chr(c)], [Run(NotIn(SetOf(chars)), min, false)], Compile(rest));
  }

  lemma {:induction false} CompileQuery(rest: string)
    ensures Compile(QUERY_LEAD + RunGroup("&#", "+)") + rest)
         == Prepend([OneOf(In(SetOf("?&"))), Run(NotIn(SetOf("&#")), 1, false)], Compile(rest))
  {
    var more := RunGroup("&#", "+)") + rest;
    CompileOneOf("?&", more);
    Assoc(QUERY_LEAD, RunGroup("&#", "+)"), rest);
    assert [OneOf(In(SetOf("?&")))] + [Run(NotIn(SetOf("&#")), 1, false)]
        == [OneOf(In(SetOf("?&"))), Run(NotIn(SetOf("&#")), 1, false)];
    CompileNegatedGroup("&#", "+)", 1, rest);
    PrependTwice([OneOf(In(SetOf("?&")))], [Run(NotIn(SetOf("&#")), 1, false)], Compile(rest));
  }

  lemma {:induction false} CompilePattern(toks: seq<Token>)
    ensures Compile(PatternText(toks)) == Some(Pieces(toks))
    decreases |toks|
  {
    if toks != [] {
      CompilePattern(toks[1..]);
      CompileToken(toks[0], PatternText(toks[1..]));
    }
  }

  lemma {:induction false} TextBraceFree(t: Token)
    requires WellFormed(t)
    ensures '{' !in TokenText(t)
  {
    if t.Expr? {
      GroupBraceFree("?", "*)");
      GroupBraceFree("./", "+)");
      GroupBraceFree("/", "+)");
      GroupBraceFree(";?&#", "+)");
      GroupBraceFree("&#", "+)");
    }
  }

  lemma {:induction false} GroupBraceFree(chars: string, quant: string)
    requires '{' !in chars && '{' !in quant
    ensures '{' !in RunGroup(chars, quant)
  {
  }

  lemma {:induction false} QuotedExpression(op: string, name: string)
    ensures var q := QuoteMeta(Show(Expr(op, name))); |q| > 1 && q[0] == '\\' && q[1] == '{'
  {
    var s := Show(Expr(op, name));
    assert s[0] == '{' && IsMeta('{');
    assert QuoteMeta1('{') == "\\{";
  }

  lemma {:induction false} ReplacesExpression(done: string, t: Token, rest: string)
    requires t.Expr? && '{' !in done
    ensures ReplaceFirst(done + (QuoteMeta(Show(t)) + rest), QuoteMeta(Show(t)), GroupText(t.op, ""))
         == (done + GroupText(t.op, "")) + rest
  {
    var q := QuoteMeta(Show(t));
    QuotedExpression(t.op, t.name);
    assert q[..1] == ['\\'];
    ReplaceFirstAt(done, q, GroupText(t.op, ""), rest, 1);
    Assoc(done, q, rest);
  }

  lemma {:induction false} QuotesChar(c: char)
    ensures QuoteMeta(Show(Ch(c))) == TokenText(Ch(c))
  {
    assert QuoteMeta([c]) == QuoteMeta1(c) + QuoteMeta("");
  }

  lemma {:induction false} BuildsPattern(done: string, toks: seq<Token>)
    requires AllWellFormed(toks) && '{' !in done
    ensures BuildPattern(Submatches(toks), done + QuoteMeta(Print(toks))) == done + PatternText(toks)
    decreases |toks|
  {
    if toks != [] {
      var t, later := toks[0], toks[1..];
      assert WellFormed(t);
      TextBraceFree(t);
      QuoteMetaConcat(Show(t), Print(later));
      Assoc(done, TokenText(t), QuoteMeta(Print(later)));
      Assoc(done, TokenText(t), PatternText(later));
      BuildsPattern(done + TokenText(t), later);
      if t.Ch? {
        QuotesChar(t.c);
      } else {
        ReplacesExpression(done, t, QuoteMeta(Print(later)));
        assert Submatches(toks)[1..] == Submatches(later);
      }
    }
  }

  /** On a well-formed template the loop of replacements builds the pattern of the template's
      pieces, so matching is matching those pieces. */
  lemma {:induction false} MatchesPieces(uri: string, toks: seq<Token>)
    requires AllWellFormed(toks) && Submatches(toks) != []
    ensures var f := Match(Pieces(toks), uri, true);
            Matches(uri, Print(toks))
              == if f.None? then (map[], false) else (Assign(Submatches(toks), f.value.captures, map[]), true)
  {
    ScannersAgree(toks);
    BuildsPattern("", toks);
    assert "" + QuoteMeta(Print(toks)) == QuoteMeta(Print(toks)) && "" + PatternText(toks) == PatternText(toks);
    CompilePattern(toks);
    FindSubmatchIs(PatternText(toks), Pieces(toks), uri);
  }

  // ---- Match, then expand ----

  function ExprNames(toks: seq<Token>): set<string> {
    if toks == [] then {}
    else if toks[0].Ch? then ExprNames(toks[1..])
    else {toks[0].name} + ExprNames(toks[1..])
  }

  lemma {:induction false} ExprNamesAre(toks: seq<Token>, n: string)
    ensures n in ExprNames(toks) <==> exists i :: 0 <= i < |toks| && toks[i].Expr? && toks[i].name == n
    decreases |toks|
  {
    if toks != [] {
      ExprNamesAre(toks[1..], n);
      if i :| 0 <= i < |toks| && toks[i].Expr? && toks[i].name == n {
        assert i > 0 ==> toks[1..][i - 1] == toks[i];
      }
      if i :| 0 <= i < |toks[1..]| && toks[1..][i].Expr? && toks[1..][i].name == n {
        assert toks[i + 1] == toks[1..][i];
      }
    }
  }

  predicate DistinctNames(toks: seq<Token>) {
    forall i, j :: 0 <= i < j < |toks| && toks[i].Expr? && toks[j].Expr? ==> toks[i].name != toks[j].name
  }

  predicate OpsAmong(toks: seq<Token>, ops: set<string>) {
    forall t :: t in toks && t.Expr? ==> t.op in ops
  }

  /** The captures, in order, are the values of the expressions. */
  predicate Agrees(toks: seq<Token>, captures: seq<string>, vars: map<string, string>) {
    if toks == [] then true
    else if toks[0].Ch? then Agrees(toks[1..], captures, vars)
    else captures != [] && toks[0].name in vars && vars[toks[0].name] == captures[0]
         && Agrees(toks[1..], captures[1..], vars)
  }

  lemma {:induction false} AssignKeeps(toks: seq<Token>, captures: seq<string>, acc: map<string, string>, n: string)
    requires n in acc && n !in ExprNames(toks)
    ensures var m := Assign(Submatches(toks), captures, acc); n in m && m[n] == acc[n]
    decreases |toks|
  {
    if toks != [] {
      if toks[0].Ch? {
        AssignKeeps(toks[1..], captures, acc, n);
      } else if captures != [] {
        var ms := Submatches(toks);
        assert ms[1..] == Submatches(toks[1..]);
        AssignKeeps(toks[1..], captures[1..], acc[toks[0].name := Clean(toks[0].op, captures[0])], n);
      }
    }
  }

  lemma {:induction false} SpellsFirst(t: Token, ps: seq<Piece>, s: string, captures: seq<string>)
    requires t.Expr? && t.op in {"", "+", "/", "."}
    requires Spells(TokenPieces(t) + ps, s, captures)
    ensures captures != [] && Clean(t.op, captures[0]) == captures[0]
    ensures var one := Replacement(t.op, t.name, captures[0]);
            one <= s && Spells(ps, s[|one|..], captures[1..])
  {
    var all := TokenPieces(t) + ps;
    var lead := t.op == "/" || t.op == ".";
    if lead {
      var run := all[1..];
      assert Spells(run, s[1..], captures);
      assert run[1..] == ps;
      var w := captures[0];
      assert w <= s[1..] && s[1..][|w|..] == s[|w| + 1..];
      assert run[0].cls == NotIn(SetOf("/")) || run[0].cls == NotIn(SetOf("./"));
      assert '/' in "/" && '.' in "./" && '/' in "./";
      assert w != "" ==> w[0] in w;
      HeadTail(s);
    } else {
      assert all[1..] == ps;
    }
  }

  lemma {:induction false} SpelledIsSubstituted(toks: seq<Token>, s: string, captures: seq<string>, acc: map<string, string>)
    requires AllWellFormed(toks) && OpsAmong(toks, {"", "+", "/", "."}) && DistinctNames(toks)
    requires Spells(Pieces(toks), s, captures)
    ensures Agrees(toks, captures, Assign(Submatches(toks), captures, acc))
    decreases |toks|
  {
    if toks != [] {
      var t, later := toks[0], toks[1..];
      assert forall x :: x in later ==> x in toks;
      if t.Ch? {
        assert Pieces(toks)[1..] == Pieces(later);
        SpelledIsSubstituted(later, s[1..], captures, acc);
      } else {
        SpellsFirst(t, Pieces(later), s, captures);
        var one := Replacement(t.op, t.name, captures[0]);
        SpelledIsSubstituted(later, s[|one|..], captures[1..], acc[t.name := captures[0]]);
        FirstAssigned(toks, captures, acc);
      }
    }
  }

  lemma {:induction false} FirstAssigned(toks: seq<Token>, captures: seq<string>, acc: map<string, string>)
    requires toks != [] && toks[0].Expr? && DistinctNames(toks) && captures != []
    requires Clean(toks[0].op, captures[0]) == captures[0]
    requires Agrees(toks[1..], captures[1..], Assign(Submatches(toks[1..]), captures[1..], acc[toks[0].name := captures[0]]))
    ensures Agrees(toks, captures, Assign(Submatches(toks), captures, acc))
  {
    var acc' := acc[toks[0].name := captures[0]];
    assert Submatches(toks)[1..] == Submatches(toks[1..]);
    ExprNamesAre(toks[1..], toks[0].name);
    AssignKeeps(toks[1..], captures[1..], acc', toks[0].name);
  }

  lemma {:induction false} BraceInReplacement(t: Token, v: string, s: string)
    requires t.Expr? && t.op in {"", "+", "/", "."} && Replacement(t.op, t.name, v) <= s
    ensures '{' in v || '{' in s[|Replacement(t.op, t.name, v)|..] ==> '{' in s
  {
    var one := Replacement(t.op, t.name, v);
    PrefixCut(one, s);
    assert forall c :: c in v ==> c in one;
  }

  lemma {:induction false} AgreeingSubstitution(toks: seq<Token>, s: string, captures: seq<string>, vars: map<string, string>)
    requires OpsAmong(toks, {"", "+", "/", "."}) && Agrees(toks, captures, vars)
    requires Spells(Pieces(toks), s, captures)
    ensures Bound(toks, vars) && Substitute(toks, vars) == s
    ensures '{' !in s ==> BraceFree(toks, vars)
    decreases |toks|
  {
    if toks != [] {
      var t, later := toks[0], toks[1..];
      assert forall x :: x in toks <==> x == t || x in later;
      if t.Ch? {
        assert Pieces(toks)[1..] == Pieces(later);
        AgreeingSubstitution(later, s[1..], captures, vars);
        HeadTail(s);
      } else {
        SpellsFirst(t, Pieces(later), s, captures);
        var one := Replacement(t.op, t.name, captures[0]);
        AgreeingSubstitution(later, s[|one|..], captures[1..], vars);
        PrefixCut(one, s);
        BraceInReplacement(t, captures[0], s);
      }
    }
  }

  lemma {:induction false} PiecesAreSimple(toks: seq<Token>)
    ensures Simple(Pieces(toks))
  {
    if toks != [] {
      PiecesAreSimple(toks[1..]);
    }
  }

  lemma {:induction false} NoExpressions(toks: seq<Token>, vars: map<string, string>)
    requires Submatches(toks) == []
    ensures Bound(toks, vars) && BraceFree(toks, vars) && Substitute(toks, vars) == Print(toks)
    decreases |toks|
  {
    if toks != [] {
      NoExpressions(toks[1..], vars);
      assert forall x :: x in toks <==> x == toks[0] || x in toks[1..];
    }
  }

  /** Expanding a template with the variables that a URI was matched to gives that URI back, however
      ambiguous the split was. */
  lemma {:induction false} MatchThenExpand(toks: seq<Token>, uri: string)
    requires toks != [] && AllWellFormed(toks) && DistinctNames(toks) && OpsAmong(toks, {"", "+", "/", "."})
    requires '{' !in uri && Matches(uri, Print(toks)).1
    ensures Expand(Print(toks), Matches(uri, Print(toks)).0) == Ok(uri)
  {
    var vars := Matches(uri, Print(toks)).0;
    if Submatches(toks) == [] {
      ScannersAgree(toks);
      NoExpressions(toks, vars);
    } else {
      MatchesPieces(uri, toks);
      PiecesAreSimple(toks);
      MatchSound(Pieces(toks), uri, true);
      var f := Match(Pieces(toks), uri, true).value;
      assert uri[..f.length] == uri;
      SpelledIsSubstituted(toks, uri, f.captures, map[]);
      AgreeingSubstitution(toks, uri, f.captures, vars);
    }
    BraceFreeIsSimultaneous(toks, vars);
  }

  // ---- Expand, then match ----

  /** A nonempty value within what its expression can match again. */
  predicate Fits(t: Token, vars: map<string, string>) {
    t.Expr? ==>
      t.op in {"", "/", "."} && t.name in vars
      && var v := vars[t.name]; v != "" && '/' !in v && '{' !in v && (t.op == "." ==> '.' !in v)
  }

  predicate AllFit(toks: seq<Token>, vars: map<string, string>) {
    forall t :: t in toks ==> Fits(t, vars)
  }

  /** Every expression is followed by the end or by what expands to text starting with `/`. */
  predicate Followed(toks: seq<Token>) {
    forall i :: 0 <= i < |toks| - 1 && toks[i].Expr? ==>
      toks[i + 1] == Ch('/') || (toks[i + 1].Expr? && toks[i + 1].op == "/")
  }

  function Values(toks: seq<Token>, vars: map<string, string>): seq<string>
    requires Bound(toks, vars)
  {
    if toks == [] then []
    else if toks[0].Ch? then Values(toks[1..], vars)
    else [vars[toks[0].name]] + Values(toks[1..], vars)
  }

  lemma {:induction false} MatchFirst(t: Token, ps: seq<Piece>, vars: map<string, string>, rest: string, captures: seq<string>)
    requires t.Expr? && Fits(t, vars) && (rest == "" || rest[0] == '/')
    requires Whole(ps, rest, captures)
    ensures Whole(TokenPieces(t) + ps, SubstituteOne(t, vars) + rest, [vars[t.name]] + captures)
  {
    var v, f := vars[t.name], Found(captures, |rest|);
    PiecesOfFitting(t, vars);
    WholeIsMatch(ps, rest, captures);
    if t.op == "" {
      MatchValue(v, "/", ps, rest, f);
    } else if t.op == "." {
      MatchLed('.', "./", v, ps, rest, f);
    } else {
      MatchLed('/', "/", v, ps, rest, f);
    }
    WholeIsMatch(TokenPieces(t) + ps, SubstituteOne(t, vars) + rest, [v] + captures);
  }

  lemma {:induction false} PiecesOfFitting(t: Token, vars: map<string, string>)
    requires t.Expr? && Fits(t, vars)
    ensures t.op == "" ==> TokenPieces(t) == [Run(NotIn(SetOf("/")), 1, false)] && SubstituteOne(t, vars) == vars[t.name]
    ensures t.op == "." ==>
      TokenPieces(t) == [Chr('.'), Run(NotIn(SetOf("./")), 1, false)] && SubstituteOne(t, vars) == ['.'] + vars[t.name]
    ensures t.op == "/" ==>
      TokenPieces(t) == [Chr('/'), Run(NotIn(SetOf("/")), 1, false)] && SubstituteOne(t, vars) == ['/'] + vars[t.name]
  {
  }

  lemma {:induction false} MatchLed(lead: char, chars: string, v: string, ps: seq<Piece>, rest: string, f: Found)
    requires v != "" && '/' in chars && (forall c :: c in chars ==> c !in v) && (rest == "" || rest[0] == '/')
    requires Match(ps, rest, true) == Some(f)
    ensures Match([Chr(lead), Run(NotIn(SetOf(chars)), 1, false)] + ps, [lead] + v + rest, true)
         == Some(Found([v] + f.captures, 1 + |v| + f.length))
  {
    var run := Run(NotIn(SetOf(chars)), 1, false);
    MatchValue(v, chars, ps, rest, f);
    CharThen(lead, [run] + ps, v + rest, true, Found([v] + f.captures, |v| + f.length));
    Assoc([lead], v, rest);
    Pair(Chr(lead), run, ps);
  }

  lemma {:induction false} MatchValue(v: string, chars: string, ps: seq<Piece>, rest: string, f: Found)
    requires v != "" && '/' in chars && (forall c :: c in chars ==> c !in v) && (rest == "" || rest[0] == '/')
    requires Match(ps, rest, true) == Some(f)
    ensures Match([Run(NotIn(SetOf(chars)), 1, false)] + ps, v + rest, true)
         == Some(Found([v] + f.captures, |v| + f.length))
  {
    var run := Run(NotIn(SetOf(chars)), 1, false);
    ValueClass(v, chars);
    RunThen(run, ps, v, rest, true, f);
  }

  lemma {:induction false} ValueClass(v: string, chars: string)
    requires '/' in chars && forall c :: c in chars ==> c !in v
    ensures NotIn(SetOf(chars)).Holds(v) && !NotIn(SetOf(chars)).Has('/')
  {
  }

  lemma {:induction false} FitsIsBound(toks: seq<Token>, vars: map<string, string>)
    requires AllFit(toks, vars)
    ensures Bound(toks, vars) && BraceFree(toks, vars)
  {
    forall t | t in toks && t.Expr? ensures t.name in vars && '{' !in vars[t.name] {
      assert Fits(t, vars);
    }
  }

  lemma {:induction false} FollowedLater(toks: seq<Token>)
    requires toks != [] && Followed(toks)
    ensures Followed(toks[1..])
  {
    var later := toks[1..];
    forall i | 0 <= i < |later| - 1 && later[i].Expr?
      ensures later[i + 1] == Ch('/') || (later[i + 1].Expr? && later[i + 1].op == "/")
    {
      assert toks[i + 1] == later[i];
    }
  }

  lemma {:induction false} StartsWithSlash(toks: seq<Token>, vars: map<string, string>)
    requires toks != [] && Bound(toks, vars) && (toks[0] == Ch('/') || (toks[0].Expr? && toks[0].op == "/"))
    ensures Substitute(toks, vars) != "" && Substitute(toks, vars)[0] == '/'
  {
  }

  lemma {:induction false} SubstitutedMatches(toks: seq<Token>, vars: map<string, string>)
    requires AllWellFormed(toks) && Followed(toks) && AllFit(toks, vars)
    ensures Bound(toks, vars)
    ensures Whole(Pieces(toks), Substitute(toks, vars), Values(toks, vars))
    decreases |toks|
  {
    FitsIsBound(toks, vars);
    if toks == [] {
      WholeIsMatch([], "", []);
    } else {
      var t, later := toks[0], toks[1..];
      FollowedLater(toks);
      SubstitutedMatches(later, vars);
      assert Fits(t, vars);
      if t.Ch? {
        WholeChar(t.c, Pieces(later), Substitute(later, vars), Values(later, vars));
      } else {
        if later != [] {
          assert toks[1] == later[0];
          StartsWithSlash(later, vars);
        }
        MatchFirst(t, Pieces(later), vars, Substitute(later, vars), Values(later, vars));
      }
    }
  }

  lemma {:induction false} AssignsValues(toks: seq<Token>, vars: map<string, string>, acc: map<string, string>)
    requires AllFit(toks, vars) && Bound(toks, vars)
    ensures var m := Assign(Submatches(toks), Values(toks, vars), acc);
            m.Keys == acc.Keys + ExprNames(toks)
            && (forall n :: n in ExprNames(toks) ==> n in vars && m[n] == vars[n])
            && (forall n :: n in acc && n !in ExprNames(toks) ==> m[n] == acc[n])
    decreases |toks|
  {
    if toks != [] {
      var t, later := toks[0], toks[1..];
      assert forall x :: x in later ==> x in toks;
      assert Fits(t, vars);
      if t.Ch? {
        AssignsValues(later, vars, acc);
      } else {
        assert Submatches(toks)[1..] == Submatches(later) && Values(toks, vars)[1..] == Values(later, vars);
        CleanKeeps(t.op, vars[t.name]);
        AssignsValues(later, vars, acc[t.name := vars[t.name]]);
      }
    }
  }

  lemma {:induction false} CleanKeeps(op: string, v: string)
    requires op in {"", "/", "."} && '/' !in v && (op == "." ==> '.' !in v)
    ensures Clean(op, v) == v
  {
    assert v != "" ==> v[0] in v;
  }

  function Restrict(vars: map<string, string>, names: set<string>): map<string, string> {
    map n | n in names && n in vars :: vars[n]
  }

  lemma {:induction false} AssignsExactly(toks: seq<Token>, vars: map<string, string>)
    requires AllFit(toks, vars) && Bound(toks, vars)
    ensures Assign(Submatches(toks), Values(toks, vars), map[]) == Restrict(vars, ExprNames(toks))
  {
    AssignsValues(toks, vars, map[]);
  }

  lemma {:induction false} NoExpressionNames(toks: seq<Token>)
    requires Submatches(toks) == []
    ensures ExprNames(toks) == {}
    decreases |toks|
  {
    if toks != [] {
      NoExpressionNames(toks[1..]);
    }
  }

  lemma {:induction false} SubstitutedGivesValues(toks: seq<Token>, vars: map<string, string>)
    requires AllWellFormed(toks) && Followed(toks) && AllFit(toks, vars) && Bound(toks, vars)
    ensures Matches(Substitute(toks, vars), Print(toks)) == (Restrict(vars, ExprNames(toks)), true)
  {
    if Submatches(toks) == [] {
      ScannersAgree(toks);
      NoExpressions(toks, vars);
      NoExpressionNames(toks);
    } else {
      SubstitutedMatches(toks, vars);
      WholeIsMatch(Pieces(toks), Substitute(toks, vars), Values(toks, vars));
      AssignsExactly(toks, vars);
      MatchesPieces(Substitute(toks, vars), toks);
    }
  }

  /** Matching an expanded template gives back exactly the values it was expanded with. */
  lemma {:induction false} ExpandThenMatch(toks: seq<Token>, vars: map<string, string>)
    requires toks != [] && AllWellFormed(toks) && Followed(toks) && AllFit(toks, vars)
    ensures ExprNames(toks) <= vars.Keys && Expand(Print(toks), vars).Ok?
    ensures Matches(Expand(Print(toks), vars).value, Print(toks)) == (Restrict(vars, ExprNames(toks)), true)
  {
    FitsIsBound(toks, vars);
    BraceFreeIsSimultaneous(toks, vars);
    SubstitutedGivesValues(toks, vars);
    forall n | n in ExprNames(toks) ensures n in vars {
      ExprNamesAre(toks, n);
    }
  }

  // ---- The registry ----

  datatype Registered = Registered(uriTemplate: string, enabled: bool)

  /** What a lookup may answer, whatever order the map is walked in: an enabled template that
      matches, with its variables, or nothing when there is none. */
  predicate FindResult(templates: map<string, Registered>, uri: string, r: Option<(string, map<string, string>)>) {
    match r
    case Some((name, vars)) =>
      name in templates && templates[name].enabled && Matches(uri, templates[name].uriTemplate) == (vars, true)
    case None =>
      forall n :: n in templates && templates[n].enabled ==> !Matches(uri, templates[n].uriTemplate).1
  }

  class ResourceTemplateRegistry {
    var templates: map<string, Registered>

    constructor ()
      ensures templates == map[]
    {
      templates := map[];
    }

    method RegisterTemplate(name: string, uriTemplate: string) returns (ok: bool)
      modifies this
      ensures ok == (name !in old(templates))
      ensures templates == if ok then old(templates)[name := Registered(uriTemplate, true)] else old(templates)
    {
      if name in templates {
        return false;
      }
      templates := templates[name := Registered(uriTemplate, true)];
      return true;
    }

    method UnregisterTemplate(name: string)
      modifies this
      ensures templates == old(templates) - {name}
    {
      templates := templates - {name};
    }

    method SetEnabled(name: string, enabled: bool)
      requires name in templates
      modifies this
      ensures templates == old(templates)[name := old(templates)[name].(enabled := enabled)]
    {
      templates := templates[name := templates[name].(enabled := enabled)];
    }

    method FindTemplateForURI(uri: string) returns (r: Option<(string, map<string, string>)>)
      ensures FindResult(templates, uri, r)
    {
      var left := templates.Keys;
      while left != {}
        invariant left <= templates.Keys
        invariant forall n :: n in templates.Keys - left && templates[n].enabled
                    ==> !Matches(uri, templates[n].uriTemplate).1
        decreases |left|
      {
        var name :| name in left;
        left := left - {name};
        if templates[name].enabled {
          var variables, ok := MatchesTemplate(uri, templates[name].uriTemplate);
          if ok {
            return Some((name, variables));
          }
        }
      }
      return None;
    }
  }

  /** The expansion of an enabled template is always found; when the found template is that one, so
      are the variables it was expanded with. */
  lemma {:induction false} ExpansionIsFound(templates: map<string, Registered>, name: string, toks: seq<Token>,
                                            vars: map<string, string>,
                                            r: Option<(string, map<string, string>)>)
    requires toks != [] && AllWellFormed(toks) && Followed(toks) && AllFit(toks, vars)
    requires name in templates && templates[name] == Registered(Print(toks), true)
    requires Expand(Print(toks), vars).Ok? ==> FindResult(templates, Expand(Print(toks), vars).value, r)
    ensures r.Some? && (r.value.0 == name ==> r.value.1 == Restrict(vars, ExprNames(toks)))
  {
    ExpandThenMatch(toks, vars);
  }
}
