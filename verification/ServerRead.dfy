/** What a match of a server template means in terms of the URI alone: which URIs match, and how the
    returned variables stand in them, for all eight operators. */
module ServerRead {
  import opened Wrappers
  import opened Text
  import opened Regex
  import opened ServerTemplate
  import opened ServerExpand
  import opened ServerMatch

  /** What may stand in the URI before the value of an expression. A fragment that starts with `#` loses it,
      so that its value then follows `##`. */
  predicate MayLead(op: string, lead: string, value: string) {
    if op == "" || op == "+" then lead == ""
    else if op == "?" || op == "&" then lead == "?" || lead == "&"
    else if op == "#" then lead == "##" || (lead == "#" && !("#" <= value))
    else lead == op
  }

  /** What a value may be. Only a fragment may be empty. */
  predicate MayBe(op: string, value: string) {
    if op == "+" then value != "" && '\n' !in value
    else if op == "#" then '?' !in value
    else if op == "." then value != "" && '.' !in value && '/' !in value
    else if op == ";" then value != "" && ';' !in value && '?' !in value && '&' !in value && '#' !in value
    else if op == "?" || op == "&" then value != "" && '&' !in value && '#' !in value
    else value != "" && '/' !in value
  }

  /** The URI is, token by token, the template's characters and for each expression its lead and value. */
  ghost predicate ReadsAs(toks: seq<Token>, values: seq<string>, s: string)
    decreases |toks|
  {
    if toks == [] then s == "" && values == []
    else if toks[0].Ch? then s != "" && s[0] == toks[0].c && ReadsAs(toks[1..], values, s[1..])
    else
      values != [] && MayBe(toks[0].op, values[0])
      && exists lead :: MayLead(toks[0].op, lead, values[0]) && ReadsFirst(toks, values, s, lead)
  }

  ghost predicate ReadsFirst(toks: seq<Token>, values: seq<string>, s: string, lead: string)
    requires toks != [] && values != []
    decreases |toks|, 0
  {
    lead + values[0] <= s && ReadsAs(toks[1..], values[1..], s[|lead + values[0]|..])
  }

  // ---- From the captures to the values ----

  function ValuesFrom(toks: seq<Token>, captures: seq<string>): seq<string>
    requires |captures| == |Submatches(toks)|
  {
    if toks == [] then []
    else if toks[0].Ch? then ValuesFrom(toks[1..], captures)
    else [Clean(toks[0].op, captures[0])] + ValuesFrom(toks[1..], captures[1..])
  }

  /** How one expression's pieces spell the start of a string. */
  predicate SpellsOne(op: string, s: string, lead: string, capture: string) {
    && lead + capture <= s
    && (if op == "+" then lead == "" else if op == "?" || op == "&" then lead == "?" || lead == "&" else lead == op)
    && (if op == "#" then '?' !in capture else MayBe(op, capture))
  }

  lemma {:induction false} RunSpells(p: Piece, ps: seq<Piece>, s: string, captures: seq<string>)
    requires p.Run?
    ensures Spells([p] + ps, s, captures) <==>
            captures != [] && captures[0] <= s && p.cls.Holds(captures[0]) && p.min <= |captures[0]|
            && (p.single ==> |captures[0]| <= 1) && Spells(ps, s[|captures[0]|..], captures[1..])
  {
    assert ([p] + ps)[1..] == ps;
  }

  lemma {:induction false} LedSpells(q: Piece, p: Piece, ps: seq<Piece>, s: string, captures: seq<string>)
    requires p.Run? && (q.Chr? || q.OneOf?)
    ensures Spells([q, p] + ps, s, captures) <==>
            s != "" && (if q.Chr? then s[0] == q.c else q.cls.Has(s[0])) && Spells([p] + ps, s[1..], captures)
  {
    assert ([q, p] + ps)[1..] == [p] + ps;
  }

  lemma {:induction false} Classes(v: string)
    ensures NotIn(SetOf("/")).Holds(v) <==> '/' !in v
    ensures NotIn(SetOf("?")).Holds(v) <==> '?' !in v
    ensures NotIn(SetOf("./")).Holds(v) <==> '.' !in v && '/' !in v
    ensures NotIn(SetOf(";?&#")).Holds(v) <==> ';' !in v && '?' !in v && '&' !in v && '#' !in v
    ensures NotIn(SetOf("&#")).Holds(v) <==> '&' !in v && '#' !in v
    ensures NotIn({'\n'}).Holds(v) <==> '\n' !in v
  {
    var a, b, c, d, e := "/", "?", "./", ";?&#", "&#";
    assert a[0] in a && b[0] in b && c[0] in c && c[1] in c;
    assert d[0] in d && d[1] in d && d[2] in d && d[3] in d && e[0] in e && e[1] in e;
  }

  lemma {:induction false} LeadOut(lead: char, s: string, w: string)
    ensures s != "" && s[0] == lead && w <= s[1..] <==> [lead] + w <= s
  {
    if s != "" && s[0] == lead && w <= s[1..] {
      HeadTail(s);
      PrefixCut(w, s[1..]);
      Assoc([lead], w, s[1..][|w|..]);
    }
    if [lead] + w <= s {
      assert ([lead] + w)[1..] == w;
      assert s[1..][..|w|] == s[..|w| + 1][1..];
    }
  }

  lemma {:induction false} LedRun(q: Piece, cls: CharClass, min: nat, ps: seq<Piece>, s: string, captures: seq<string>)
    requires q.Chr? || q.OneOf?
    ensures Spells([q, Run(cls, min, false)] + ps, s, captures) <==>
            s != "" && captures != [] && [s[0]] + captures[0] <= s && (if q.Chr? then s[0] == q.c else q.cls.Has(s[0]))
            && cls.Holds(captures[0]) && min <= |captures[0]| && Spells(ps, s[1 + |captures[0]|..], captures[1..])
  {
    var p := Run(cls, min, false);
    LedSpells(q, p, ps, s, captures);
    if s != "" && captures != [] {
      RunSpells(p, ps, s[1..], captures);
      LeadOut(s[0], s, captures[0]);
    }
  }

  function LeadOf(op: string, s: string): string {
    if op == "" || op == "+" || s == "" then "" else s[..1]
  }

  predicate SpellsFirst(t: Token, ps: seq<Piece>, s: string, captures: seq<string>)
    requires t.Expr?
  {
    && captures != [] && SpellsOne(t.op, s, LeadOf(t.op, s), captures[0])
    && Spells(ps, s[|LeadOf(t.op, s) + captures[0]|..], captures[1..])
  }

  lemma {:induction false} UnledSpells(t: Token, ps: seq<Piece>, s: string, captures: seq<string>)
    requires t.Expr? && (t.op == "" || t.op == "+")
    ensures Spells(TokenPieces(t) + ps, s, captures) <==> SpellsFirst(t, ps, s, captures)
  {
    RunSpells(TokenPieces(t)[0], ps, s, captures);
    if captures != [] {
      Classes(captures[0]);
      EmptyPlus(captures[0]);
    }
  }

  lemma {:induction false} LedByOperator(t: Token, cls: CharClass, min: nat, ps: seq<Piece>, s: string, captures: seq<string>)
    requires t.Expr? && |t.op| == 1 && t.op[0] in "#./;"
    requires TokenPieces(t) == [Chr(t.op[0]), Run(cls, min, false)]
    requires captures != [] ==>
      (cls.Holds(captures[0]) && min <= |captures[0]| <==>
       if t.op == "#" then '?' !in captures[0] else MayBe(t.op, captures[0]))
    ensures Spells(TokenPieces(t) + ps, s, captures) <==> SpellsFirst(t, ps, s, captures)
  {
    LedRun(Chr(t.op[0]), cls, min, ps, s, captures);
    if s != "" {
      assert s[..1] == [s[0]];
    }
  }

  lemma {:induction false} OperatorSpells(t: Token, ps: seq<Piece>, s: string, captures: seq<string>)
    requires t.Expr? && t.op in {"#", ".", "/", ";"}
    ensures Spells(TokenPieces(t) + ps, s, captures) <==> SpellsFirst(t, ps, s, captures)
  {
    if captures != [] {
      Classes(captures[0]);
    }
    var run := TokenPieces(t)[1];
    LedByOperator(t, run.cls, run.min, ps, s, captures);
  }

  lemma {:induction false} QuerySpells(t: Token, ps: seq<Piece>, s: string, captures: seq<string>)
    requires t.Expr? && (t.op == "?" || t.op == "&")
    ensures Spells(TokenPieces(t) + ps, s, captures) <==> SpellsFirst(t, ps, s, captures)
  {
    LedRun(TokenPieces(t)[0], TokenPieces(t)[1].cls, 1, ps, s, captures);
    if captures != [] {
      Classes(captures[0]);
    }
    if s != "" {
      QueryLead(s);
    }
  }

  lemma {:induction false} QueryLead(s: string)
    requires s != ""
    ensures In(SetOf("?&")).Has(s[0]) <==> s[..1] == "?" || s[..1] == "&"
    ensures s[..1] == [s[0]]
  {
    var q := "?&";
    assert q[0] in q && q[1] in q;
  }

  lemma {:induction false} OneOperator(op: string)
    requires |op| == 1 && op[0] in OPERATORS
    ensures op in {"+", "#", ".", "/", ";", "?", "&"}
  {
    assert op == [op[0]];
  }

  lemma {:induction false} TokenSpells(t: Token, ps: seq<Piece>, s: string, captures: seq<string>)
    requires t.Expr? && WellFormed(t)
    ensures Spells(TokenPieces(t) + ps, s, captures) <==> SpellsFirst(t, ps, s, captures)
  {
    if t.op == "" || t.op == "+" {
      UnledSpells(t, ps, s, captures);
    } else if t.op == "?" || t.op == "&" {
      QuerySpells(t, ps, s, captures);
    } else {
      OneOperator(t.op);
      OperatorSpells(t, ps, s, captures);
    }
  }

  /** A cleaned capture and its lead are the lead and the capture as they stand. */
  lemma {:induction false} CleanedLead(op: string, s: string, lead: string, capture: string) returns (whole: string)
    requires SpellsOne(op, s, lead, capture)
    ensures MayLead(op, whole, Clean(op, capture)) && MayBe(op, Clean(op, capture))
    ensures whole + Clean(op, capture) == lead + capture
  {
    whole := if op == "#" && "#" <= capture then "##" else lead;
    assert capture != "" ==> capture[0] in capture;
    if op == "#" && "#" <= capture {
      HeadTail(capture);
      Assoc("#", "#", capture[1..]);
    }
  }

  lemma {:induction false} SpelledReads(toks: seq<Token>, s: string, captures: seq<string>)
    requires AllWellFormed(toks) && Spells(Pieces(toks), s, captures)
    ensures |captures| == |Submatches(toks)| && ReadsAs(toks, ValuesFrom(toks, captures), s)
    decreases |toks|
  {
    if toks != [] {
      var t, later := toks[0], toks[1..];
      assert forall x :: x in later ==> x in toks;
      if t.Ch? {
        assert Pieces(toks)[1..] == Pieces(later);
        SpelledReads(later, s[1..], captures);
      } else {
        TokenSpells(t, Pieces(later), s, captures);
        var lead := LeadOf(t.op, s);
        SpelledReads(later, s[|lead + captures[0]|..], captures[1..]);
        FirstReads(toks, s, lead, captures);
      }
    }
  }

  lemma {:induction false} FirstReads(toks: seq<Token>, s: string, lead: string, captures: seq<string>)
    requires toks != [] && toks[0].Expr? && captures != [] && SpellsOne(toks[0].op, s, lead, captures[0])
    requires |captures[1..]| == |Submatches(toks[1..])|
    requires ReadsAs(toks[1..], ValuesFrom(toks[1..], captures[1..]), s[|lead + captures[0]|..])
    ensures |captures| == |Submatches(toks)| && ReadsAs(toks, ValuesFrom(toks, captures), s)
  {
    var values := ValuesFrom(toks, captures);
    assert values[0] == Clean(toks[0].op, captures[0]) && values[1..] == ValuesFrom(toks[1..], captures[1..]);
    var whole := CleanedLead(toks[0].op, s, lead, captures[0]);
    assert ReadsFirst(toks, values, s, whole);
  }

  // ---- The returned variables are those values ----

  lemma {:induction false} AssignedValues(toks: seq<Token>, captures: seq<string>, acc: map<string, string>)
    requires DistinctNames(toks) && |captures| == |Submatches(toks)|
    ensures var vars := Assign(Submatches(toks), captures, acc);
            Bound(toks, vars) && Values(toks, vars) == ValuesFrom(toks, captures)
    decreases |toks|
  {
    if toks != [] {
      var t, later := toks[0], toks[1..];
      assert forall x :: x in toks <==> x == t || x in later;
      if t.Ch? {
        AssignedValues(later, captures, acc);
      } else {
        var acc' := acc[t.name := Clean(t.op, captures[0])];
        assert Submatches(toks)[1..] == Submatches(later);
        AssignedValues(later, captures[1..], acc');
        ExprNamesAre(later, t.name);
        AssignKeeps(later, captures[1..], acc', t.name);
      }
    }
  }

  lemma {:induction false} AssignedNames(toks: seq<Token>, captures: seq<string>, acc: map<string, string>)
    requires |captures| == |Submatches(toks)|
    ensures Assign(Submatches(toks), captures, acc).Keys == acc.Keys + ExprNames(toks)
    decreases |toks|
  {
    if toks != [] {
      if toks[0].Ch? {
        AssignedNames(toks[1..], captures, acc);
      } else {
        assert Submatches(toks)[1..] == Submatches(toks[1..]);
        AssignedNames(toks[1..], captures[1..], acc[toks[0].name := Clean(toks[0].op, captures[0])]);
      }
    }
  }

  lemma {:induction false} NothingToRead(toks: seq<Token>, vars: map<string, string>)
    requires Submatches(toks) == []
    ensures Bound(toks, vars) && Values(toks, vars) == [] && ReadsAs(toks, [], Print(toks))
    decreases |toks|
  {
    if toks != [] {
      NothingToRead(toks[1..], vars);
      assert forall x :: x in toks <==> x == toks[0] || x in toks[1..];
      assert Print(toks)[1..] == Print(toks[1..]);
    }
  }

  /** A URI that matches is, token by token, the template's own characters and for each expression its lead
      followed by the variable that the match returns. */
  lemma {:induction false} MatchReads(toks: seq<Token>, uri: string)
    requires AllWellFormed(toks) && DistinctNames(toks) && Matches(uri, Print(toks)).1
    ensures var vars := Matches(uri, Print(toks)).0;
            vars.Keys == ExprNames(toks) && Bound(toks, vars) && ReadsAs(toks, Values(toks, vars), uri)
  {
    if Submatches(toks) == [] {
      ScannersAgree(toks);
      NothingToRead(toks, Matches(uri, Print(toks)).0);
      NoExpressionNames(toks);
    } else {
      MatchesPieces(uri, toks);
      PiecesAreSimple(toks);
      MatchSound(Pieces(toks), uri, true);
      var captures := Match(Pieces(toks), uri, true).value.captures;
      assert uri[..|uri|] == uri;
      SpelledReads(toks, uri, captures);
      AssignedValues(toks, captures, map[]);
      AssignedNames(toks, captures, map[]);
    }
  }

  lemma {:induction false} MatchHasReading(toks: seq<Token>, uri: string) returns (values: seq<string>)
    requires AllWellFormed(toks) && Matches(uri, Print(toks)).1
    ensures ReadsAs(toks, values, uri)
  {
    if Submatches(toks) == [] {
      ScannersAgree(toks);
      NothingToRead(toks, map[]);
      values := [];
    } else {
      MatchesPieces(uri, toks);
      PiecesAreSimple(toks);
      MatchSound(Pieces(toks), uri, true);
      var captures := Match(Pieces(toks), uri, true).value.captures;
      assert uri[..|uri|] == uri;
      SpelledReads(toks, uri, captures);
      values := ValuesFrom(toks, captures);
    }
  }

  // ---- Every reading is a match ----

  lemma {:induction false} SplitLead(op: string, s: string, lead: string, value: string) returns (capture: string)
    requires op == "" || (|op| == 1 && op[0] in OPERATORS)
    requires MayLead(op, lead, value) && MayBe(op, value) && lead + value <= s
    ensures SpellsOne(op, s, LeadOf(op, s), capture) && LeadOf(op, s) + capture == lead + value
  {
    if lead == "##" {
      capture := "#" + value;
      Assoc("#", "#", value);
    } else {
      capture := value;
    }
    if lead != "" {
      assert s[..1] == (lead + value)[..1] == lead[..1];
    }
  }

  lemma {:induction false} ReadSpells(toks: seq<Token>, values: seq<string>, s: string) returns (captures: seq<string>)
    requires AllWellFormed(toks) && ReadsAs(toks, values, s)
    ensures Spells(Pieces(toks), s, captures)
    decreases |toks|
  {
    captures := [];
    if toks != [] {
      var t, later := toks[0], toks[1..];
      assert forall x :: x in later ==> x in toks;
      if t.Ch? {
        captures := ReadSpells(later, values, s[1..]);
        assert Pieces(toks)[1..] == Pieces(later);
      } else {
        assert WellFormed(t);
        var lead :| MayLead(t.op, lead, values[0]) && ReadsFirst(toks, values, s, lead);
        var capture := SplitLead(t.op, s, lead, values[0]);
        var more := ReadSpells(later, values[1..], s[|lead + values[0]|..]);
        captures := [capture] + more;
        assert captures[1..] == more;
        TokenSpells(t, Pieces(later), s, captures);
      }
    }
  }

  lemma {:induction false} OnlyReading(toks: seq<Token>, values: seq<string>, s: string)
    requires Submatches(toks) == [] && ReadsAs(toks, values, s)
    ensures s == Print(toks)
    decreases |toks|
  {
    if toks != [] {
      OnlyReading(toks[1..], values, s[1..]);
      HeadTail(s);
    }
  }

  lemma {:induction false} ReadingMatches(toks: seq<Token>, values: seq<string>, uri: string)
    requires AllWellFormed(toks) && ReadsAs(toks, values, uri)
    ensures Matches(uri, Print(toks)).1
  {
    if Submatches(toks) == [] {
      ScannersAgree(toks);
      OnlyReading(toks, values, uri);
    } else {
      MatchesPieces(uri, toks);
      PiecesAreSimple(toks);
      var captures := ReadSpells(toks, values, uri);
      assert uri[..|uri|] == uri;
      MatchGreediest(Pieces(toks), uri, true, |uri|, captures);
    }
  }

  ghost predicate CanRead(toks: seq<Token>, uri: string) {
    exists values :: ReadsAs(toks, values, uri)
  }

  lemma {:induction false} CanReadMatches(toks: seq<Token>, uri: string)
    requires AllWellFormed(toks) && CanRead(toks, uri)
    ensures Matches(uri, Print(toks)).1
  {
    var values :| ReadsAs(toks, values, uri);
    ReadingMatches(toks, values, uri);
  }

  /** The URIs that match are those that can be read in that way, whatever the values. */
  lemma {:induction false} MatchesIffReads(toks: seq<Token>, uri: string)
    requires AllWellFormed(toks)
    ensures Matches(uri, Print(toks)).1 <==> CanRead(toks, uri)
  {
    if CanRead(toks, uri) {
      CanReadMatches(toks, uri);
    } else if Matches(uri, Print(toks)).1 {
      var values := MatchHasReading(toks, uri);
    }
  }
}
