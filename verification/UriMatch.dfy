/** Matching a URI against the templates of shared/uri_template.go, and what it undoes of expansion. */
module UriMatch {
  import opened Text
  import opened Regex
  import opened UriTemplate
  import opened UriExpand

  const MAX_REGEX_LENGTH := 1000000

  datatype MatchError = UriTooLong | PatternTooLong | BadPattern

  datatype MatchResult = Failed(error: MatchError) | NoMatch | Matched(vars: Variables)

  /** A capturing group of the pattern: its variable and whether its value may be a list. */
  datatype Group = Group(name: string, exploded: bool)

  // ---- Building the pattern ----

  /** One pattern of a query expression. */
  function QueryPattern(lead: string, name: string): string {
    lead + (QuoteMeta(name) + ("=" + RunGroup("&", "+)")))
  }

  /** The patterns of a query expression, one for each name: the first starts with the operator. */
  function QueryPatterns(lead: string, names: seq<string>): string
    decreases |names|
  {
    if names == [] then "" else QueryPattern(lead, names[0]) + QueryPatterns("&", names[1..])
  }

  function ListPattern(): string {
    "(" + ListGroup("/")
  }

  /** The pattern of any other expression (shared/uri_template.go:462-484). */
  function PathPattern(op: string, exploded: bool): string {
    if op == "" then (if exploded then ListPattern() else RunGroup("/,", "+)"))
    else if op == "+" || op == "#" then "(.+)"
    else if op == "." then "\\." + RunGroup("/,", "+)")
    else if op == "/" then "/" + (if exploded then ListPattern() else RunGroup("/,", "+)"))
    else RunGroup("/", "+)")
  }

  function PartPattern(p: Part): string {
    if p.Literal? then QuoteMeta(p.text)
    else if IsQuery(p.op) then QueryPatterns("\\" + p.op, p.names)
    else PathPattern(p.op, p.exploded)
  }

  function PatternFrom(parts: seq<Part>): string {
    if parts == [] then "" else PartPattern(parts[0]) + PatternFrom(parts[1..])
  }

  function FullPattern(parts: seq<Part>): string {
    "^" + PatternFrom(parts) + "$"
  }

  function GroupsOfNames(names: seq<string>, exploded: bool): seq<Group> {
    if names == [] then [] else [Group(names[0], exploded)] + GroupsOfNames(names[1..], exploded)
  }

  function PartGroups(p: Part): seq<Group> {
    if p.Literal? then []
    else if IsQuery(p.op) then GroupsOfNames(p.names, p.exploded)
    else [Group(p.name, p.exploded)]
  }

  function GroupsFrom(parts: seq<Part>): seq<Group> {
    if parts == [] then [] else PartGroups(parts[0]) + GroupsFrom(parts[1..])
  }

  /** A captured text as a value: a list when it may be one and has a comma. */
  function Captured(text: string, exploded: bool): Value {
    if exploded && ',' in text then Items(Split(text, ',')) else Scalar(text)
  }

  function Collect(groups: seq<Group>, captures: seq<string>, acc: Variables): Variables {
    if groups == [] || captures == [] then acc
    else
      Collect(groups[1..], captures[1..],
              acc[Without(groups[0].name, '*') := Captured(captures[0], groups[0].exploded)])
  }

  function MatchUri(parts: seq<Part>, uri: string): MatchResult {
    if ByteLen(uri) > MAX_TEMPLATE_LENGTH then Failed(UriTooLong)
    else if ByteLen(FullPattern(parts)) > MAX_REGEX_LENGTH then Failed(PatternTooLong)
    else if CompileAnchored(FullPattern(parts)).None? then Failed(BadPattern)
    else
      var captures := FindSubmatch(FullPattern(parts), uri);
      if captures.None? then NoMatch else Matched(Collect(GroupsFrom(parts), captures.value, map[]))
  }

  // ---- The code's loops ----

  lemma {:induction false} QueryStep(pattern: string, lead: string, groups: seq<Group>, p: Part, i: nat)
    requires p.Expression? && i < |p.names|
    ensures pattern + QueryPatterns(lead, p.names[i..])
         == pattern + QueryPattern(lead, p.names[i]) + QueryPatterns("&", p.names[i + 1..])
    ensures groups + GroupsOfNames(p.names[i..], p.exploded)
         == groups + [Group(p.names[i], p.exploded)] + GroupsOfNames(p.names[i + 1..], p.exploded)
  {
    DropDrop(p.names, i, 1);
    Assoc(pattern, QueryPattern(lead, p.names[i]), QueryPatterns("&", p.names[i + 1..]));
    Assoc(groups, [Group(p.names[i], p.exploded)], GroupsOfNames(p.names[i + 1..], p.exploded));
  }

  method QueryGroups(p: Part) returns (pattern: string, groups: seq<Group>)
    requires p.Expression? && IsQuery(p.op)
    ensures pattern == PartPattern(p) && groups == PartGroups(p)
  {
    pattern, groups := "", [];
    ghost var lead := "\\" + p.op;
    assert p.names[0..] == p.names;
    for i := 0 to |p.names|
      invariant lead == if i == 0 then "\\" + p.op else "&"
      invariant QueryPatterns("\\" + p.op, p.names) == pattern + QueryPatterns(lead, p.names[i..])
      invariant GroupsOfNames(p.names, p.exploded) == groups + GroupsOfNames(p.names[i..], p.exploded)
    {
      QueryStep(pattern, lead, groups, p, i);
      var prefix := "\\" + p.op;
      if i > 0 {
        prefix := "&";
      }
      pattern := pattern + QueryPattern(prefix, p.names[i]);
      groups := groups + [Group(p.names[i], p.exploded)];
      lead := "&";
    }
    assert p.names[|p.names|..] == [];
  }

  lemma {:induction false} WordTexts()
    ensures RunGroup("/,", "+)") == "([^/,]+)" && RunGroup("/", "+)") == "([^/]+)"
  {
  }

  lemma {:induction false} ListText()
    ensures ListPattern() == "([^/]+(?:,[^/]+)*)"
  {
  }

  lemma {:induction false} LedTexts()
    ensures "\\." + RunGroup("/,", "+)") == "\\.([^/,]+)" && "/" + RunGroup("/,", "+)") == "/([^/,]+)"
    ensures "/" + ListPattern() == "/([^/]+(?:,[^/]+)*)"
  {
    WordTexts();
    ListText();
  }

  /** The switch over operators in partToRegExp. */
  method PathGroup(op: string, exploded: bool) returns (pattern: string)
    ensures pattern == PathPattern(op, exploded)
  {
    WordTexts();
    ListText();
    LedTexts();
    match op {
      case "" =>
        if exploded {
          pattern := "([^/]+(?:,[^/]+)*)";
        } else {
          pattern := "([^/,]+)";
        }
      case "+" => pattern := "(.+)";
      case "#" => pattern := "(.+)";
      case "." => pattern := "\\.([^/,]+)";
      case "/" =>
        if exploded {
          pattern := "/([^/]+(?:,[^/]+)*)";
        } else {
          pattern := "/([^/,]+)";
        }
      case _ => pattern := "([^/]+)";
    }
  }

  /** partToRegExp. */
  method PartToRegExp(p: Part) returns (pattern: string, groups: seq<Group>)
    requires p.Expression?
    ensures pattern == PartPattern(p) && groups == PartGroups(p)
  {
    if p.op == "?" || p.op == "&" {
      pattern, groups := QueryGroups(p);
      return;
    }
    pattern := PathGroup(p.op, p.exploded);
    groups := [Group(p.name, p.exploded)];
  }

  method BuildPattern(parts: seq<Part>) returns (pattern: string, groups: seq<Group>)
    ensures pattern == FullPattern(parts) && groups == GroupsFrom(parts)
  {
    pattern, groups := "^", [];
    assert parts[0..] == parts;
    for i := 0 to |parts|
      invariant "^" + PatternFrom(parts) == pattern + PatternFrom(parts[i..])
      invariant GroupsFrom(parts) == groups + GroupsFrom(parts[i..])
    {
      DropDrop(parts, i, 1);
      var more, named := QuoteMeta(if parts[i].Literal? then parts[i].text else ""), [];
      if parts[i].Expression? {
        more, named := PartToRegExp(parts[i]);
      }
      Assoc(pattern, more, PatternFrom(parts[i + 1..]));
      Assoc(groups, named, GroupsFrom(parts[i + 1..]));
      pattern := pattern + more;
      groups := groups + named;
    }
    assert parts[|parts|..] == [];
    pattern := pattern + "$";
  }

  method CollectVariables(groups: seq<Group>, captures: seq<string>) returns (result: Variables)
    ensures result == Collect(groups, captures, map[])
  {
    result := map[];
    assert groups[0..] == groups && captures[0..] == captures;
    for i := 0 to |groups|
      invariant Collect(groups, captures, map[])
             == Collect(groups[i..], if i <= |captures| then captures[i..] else [], result)
    {
      DropDrop(groups, i, 1);
      if i >= |captures| {
        continue;
      }
      DropDrop(captures, i, 1);
      var value := captures[i];
      var cleanName := Without(groups[i].name, '*');
      if groups[i].exploded && ',' in value {
        result := result[cleanName := Items(Split(value, ','))];
      } else {
        result := result[cleanName := Scalar(value)];
      }
    }
  }

  /** Match. */
  method MatchTemplate(parts: seq<Part>, uri: string) returns (r: MatchResult)
    ensures r == MatchUri(parts, uri)
  {
    if ByteLen(uri) > MAX_TEMPLATE_LENGTH {
      return Failed(UriTooLong);
    }
    var pattern, groups := BuildPattern(parts);
    if ByteLen(pattern) > MAX_REGEX_LENGTH {
      return Failed(PatternTooLong);
    }
    if CompileAnchored(pattern).None? {
      return Failed(BadPattern);
    }
    var captures := FindSubmatch(pattern, uri);
    if captures.None? {
      return NoMatch;
    }
    var result := CollectVariables(groups, captures.value);
    return Matched(result);
  }

  // ---- The pieces of the pattern ----

  const ANY := Run(NotIn({'\n'}), 1, false)
  const WORD := Run(NotIn(SetOf("/,")), 1, false)
  const LIST := ListRun(NotIn(SetOf("/")), ',')
  const PARAM := Run(NotIn(SetOf("&")), 1, false)

  function QueryPieces(lead: char, names: seq<string>): seq<Piece>
    decreases |names|
  {
    if names == [] then [] else [Chr(lead)] + (Chars(names[0]) + ([Chr('=')] + [PARAM])) + QueryPieces('&', names[1..])
  }

  function PathPieces(op: string, exploded: bool): seq<Piece> {
    if op == "" then (if exploded then [LIST] else [WORD])
    else if op == "+" || op == "#" then [ANY]
    else if op == "." then [Chr('.')] + [WORD]
    else if op == "/" then [Chr('/')] + (if exploded then [LIST] else [WORD])
    else [Run(NotIn(SetOf("/")), 1, false)]
  }

  function PartPieces(p: Part): seq<Piece> {
    if p.Literal? then Chars(p.text)
    else if IsQuery(p.op) then QueryPieces(p.op[0], p.names)
    else PathPieces(p.op, p.exploded)
  }

  function PiecesFrom(parts: seq<Part>): seq<Piece> {
    if parts == [] then [] else PartPieces(parts[0]) + PiecesFrom(parts[1..])
  }

  /** Text that reads as the given pieces whatever follows it. */
  ghost predicate ReadsAs(text: string, ps: seq<Piece>) {
    forall rest: string :: Compile(text + rest) == Prepend(ps, Compile(rest))
  }

  lemma {:induction false} ReadsBoth(a: string, ps: seq<Piece>, b: string, qs: seq<Piece>)
    requires ReadsAs(a, ps) && ReadsAs(b, qs)
    ensures ReadsAs(a + b, ps + qs)
  {
    forall rest: string ensures Compile(a + b + rest) == Prepend(ps + qs, Compile(rest)) {
      Assoc(a, b, rest);
      PrependTwice(ps, qs, Compile(rest));
    }
  }

  lemma {:induction false} ReadsNothing()
    ensures ReadsAs("", [])
  {
    forall rest: string ensures Compile("" + rest) == Prepend([], Compile(rest)) {
      assert "" + rest == rest;
      assert Compile(rest).Some? ==> [] + Compile(rest).value == Compile(rest).value;
    }
  }

  lemma {:induction false} ReadsEscaped(c: char)
    ensures ReadsAs(['\\', c], [Chr(c)])
  {
    forall rest: string ensures Compile(['\\', c] + rest) == Prepend([Chr(c)], Compile(rest)) {
      AppendDrop(['\\', c], rest);
      CompileNext(['\\', c] + rest, Chr(c), rest);
    }
  }

  lemma {:induction false} ReadsChar(c: char)
    requires !IsMeta(c)
    ensures ReadsAs([c], [Chr(c)])
  {
    forall rest: string ensures Compile([c] + rest) == Prepend([Chr(c)], Compile(rest)) {
      CompileQuotedChar(c, rest);
    }
  }

  lemma {:induction false} ReadsQuoted(s: string)
    ensures ReadsAs(QuoteMeta(s), Chars(s))
  {
    forall rest: string ensures Compile(QuoteMeta(s) + rest) == Prepend(Chars(s), Compile(rest)) {
      CompileQuoted(s, rest);
    }
  }

  lemma {:induction false} ReadsRun(chars: string)
    requires ']' !in chars
    ensures ReadsAs(RunGroup(chars, "+)"), [Run(NotIn(SetOf(chars)), 1, false)])
  {
    forall rest: string
      ensures Compile(RunGroup(chars, "+)") + rest) == Prepend([Run(NotIn(SetOf(chars)), 1, false)], Compile(rest))
    {
      CompileNegatedGroup(chars, "+)", 1, rest);
    }
  }

  lemma {:induction false} ReadsList()
    ensures ReadsAs(ListPattern(), [LIST])
  {
    forall rest: string ensures Compile(ListPattern() + rest) == Prepend([LIST], Compile(rest)) {
      CompileListGroup("/", rest);
    }
  }

  lemma {:induction false} ReadsAny()
    ensures ReadsAs("(.+)", [ANY])
  {
    forall rest: string ensures Compile("(.+)" + rest) == Prepend([ANY], Compile(rest)) {
      CompileAnyGroup(rest);
    }
  }

  lemma {:induction false} ReadsItem(exploded: bool)
    ensures ReadsAs(if exploded then ListPattern() else RunGroup("/,", "+)"), if exploded then [LIST] else [WORD])
  {
    ReadsList();
    ReadsRun("/,");
  }

  lemma {:induction false} ReadsDotted()
    ensures ReadsAs("\\." + RunGroup("/,", "+)"), [Chr('.')] + [WORD])
  {
    ReadsEscaped('.');
    assert "\\." == ['\\', '.'];
    ReadsRun("/,");
    ReadsBoth("\\.", [Chr('.')], RunGroup("/,", "+)"), [WORD]);
  }

  lemma {:induction false} ReadsSlashed(exploded: bool)
    ensures ReadsAs("/" + (if exploded then ListPattern() else RunGroup("/,", "+)")),
                    [Chr('/')] + (if exploded then [LIST] else [WORD]))
  {
    ReadsChar('/');
    ReadsItem(exploded);
    ReadsBoth("/", [Chr('/')], if exploded then ListPattern() else RunGroup("/,", "+)"),
              if exploded then [LIST] else [WORD]);
  }

  lemma {:induction false} ReadsPath(op: string, exploded: bool)
    ensures ReadsAs(PathPattern(op, exploded), PathPieces(op, exploded))
  {
    if op == "" {
      ReadsItem(exploded);
    } else if op == "+" || op == "#" {
      ReadsAny();
    } else if op == "." {
      ReadsDotted();
    } else if op == "/" {
      ReadsSlashed(exploded);
    } else {
      ReadsRun("/");
    }
  }

  lemma {:induction false} ReadsQuery(lead: string, c: char, names: seq<string>)
    requires ReadsAs(lead, [Chr(c)])
    ensures ReadsAs(QueryPatterns(lead, names), QueryPieces(c, names))
    decreases |names|
  {
    if names == [] {
      ReadsNothing();
    } else {
      ReadsChar('=');
      ReadsRun("&");
      ReadsBoth("=", [Chr('=')], RunGroup("&", "+)"), [PARAM]);
      ReadsQuoted(names[0]);
      ReadsBoth(QuoteMeta(names[0]), Chars(names[0]), "=" + RunGroup("&", "+)"), [Chr('=')] + [PARAM]);
      ReadsBoth(lead, [Chr(c)], QuoteMeta(names[0]) + ("=" + RunGroup("&", "+)")), Chars(names[0]) + ([Chr('=')] + [PARAM]));
      ReadsChar('&');
      ReadsQuery("&", '&', names[1..]);
      ReadsBoth(QueryPattern(lead, names[0]), [Chr(c)] + (Chars(names[0]) + ([Chr('=')] + [PARAM])),
                QueryPatterns("&", names[1..]), QueryPieces('&', names[1..]));
    }
  }

  lemma {:induction false} ReadsPart(p: Part)
    ensures ReadsAs(PartPattern(p), PartPieces(p))
  {
    if p.Literal? {
      ReadsQuoted(p.text);
    } else if IsQuery(p.op) {
      ReadsEscaped(p.op[0]);
      assert "\\" + p.op == ['\\', p.op[0]];
      ReadsQuery("\\" + p.op, p.op[0], p.names);
    } else {
      ReadsPath(p.op, p.exploded);
    }
  }

  lemma {:induction false} ReadsParts(parts: seq<Part>)
    ensures ReadsAs(PatternFrom(parts), PiecesFrom(parts))
    decreases |parts|
  {
    if parts == [] {
      ReadsNothing();
    } else {
      ReadsPart(parts[0]);
      ReadsParts(parts[1..]);
      ReadsBoth(PartPattern(parts[0]), PartPieces(parts[0]), PatternFrom(parts[1..]), PiecesFrom(parts[1..]));
    }
  }

  /** The generated pattern always compiles, to the pieces of the parts; only the two length limits can
      make Match fail. */
  lemma {:induction false} MatchesPieces(parts: seq<Part>, uri: string)
    ensures MatchUri(parts, uri)
         == if ByteLen(uri) > MAX_TEMPLATE_LENGTH then Failed(UriTooLong)
            else if ByteLen(FullPattern(parts)) > MAX_REGEX_LENGTH then Failed(PatternTooLong)
            else
              var f := Match(PiecesFrom(parts), uri, true);
              if f.None? then NoMatch else Matched(Collect(GroupsFrom(parts), f.value.captures, map[]))
  {
    ReadsParts(parts);
    var text, ps := PatternFrom(parts), PiecesFrom(parts);
    assert text + "" == text && ps + [] == ps;
    assert Compile(text + "") == Prepend(ps, Compile(""));
    FindSubmatchIs(text, ps, uri);
  }
}
