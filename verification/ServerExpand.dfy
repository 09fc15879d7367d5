/** Expansion of the server's URI templates: the loop of first-occurrence replacements, and the
    simultaneous substitution it amounts to. */
module ServerExpand {
  import opened Wrappers
  import opened Text
  import opened Regex
  import opened ServerTemplate

  /** What one expression is replaced by (server/resource_template.go:506-525). */
  function Replacement(op: string, name: string, value: string): string {
    if op == "+" then value
    else if op == "#" then "#" + value
    else if op == "." then "." + value
    else if op == "/" then "/" + value
    else if op == ";" then ";" + name + "=" + value
    else if op == "?" then "?" + name + "=" + value
    else if op == "&" then "&" + name + "=" + value
    else value
  }

  /** Every operator but `+` goes before its value, and the three that make parameters put the name between. */
  lemma {:induction false} ReplacementShape(op: string, name: string, value: string)
    requires op == "" || (|op| == 1 && op[0] in OPERATORS)
    ensures Replacement(op, name, value)
         == (if op == "+" then "" else op) + (if op in {";", "?", "&"} then name + "=" else "") + value
  {
    assert "" + "" + value == value;
    if op != "" && op != "+" {
      if op in {";", "?", "&"} {
        Assoc(op, name, "=");
      } else {
        assert op + "" == op;
        assert op in {"#", ".", "/"} by {
          assert [op[0]] == op;
        }
      }
    }
  }

  /** The switch over operators in ExpandURITemplate. */
  method FormatValue(op: string, varName: string, value: string) returns (replacement: string)
    ensures replacement == Replacement(op, varName, value)
  {
    match op {
      case "+" => replacement := value;
      case "#" => replacement := "#" + value;
      case "." => replacement := "." + value;
      case "/" => replacement := "/" + value;
      case ";" => replacement := ";" + varName + "=" + value;
      case "?" => replacement := "?" + varName + "=" + value;
      case "&" => replacement := "&" + varName + "=" + value;
      case _ => replacement := value;
    }
  }

  /** The replacement loop on the matches that are left. */
  function ReplaceAll(ms: seq<Submatch>, result: string, vars: map<string, string>): Result<string, Error> {
    if ms == [] then Ok(result)
    else if NameOf(ms[0]) !in vars then Err(MissingVariable(NameOf(ms[0])))
    else
      var replacement := Replacement(OpOf(ms[0]), NameOf(ms[0]), vars[NameOf(ms[0])]);
      ReplaceAll(ms[1..], ReplaceFirst(result, ms[0].full, replacement), vars)
  }

  function Expand(t: string, vars: map<string, string>): Result<string, Error> {
    var e := Validate(t);
    if e.Some? then Err(e.value) else ReplaceAll(Expressions(PLAIN_VARIABLE, t), t, vars)
  }

  method ExpandURITemplate(t: string, vars: map<string, string>) returns (r: Result<string, Error>)
    ensures r == Expand(t, vars)
  {
    var err := ValidateURITemplate(t);
    if err.Some? {
      return Err(err.value);
    }
    var result := t;
    var matches := Expressions(PLAIN_VARIABLE, t);
    var i := 0;
    while i < |matches|
      invariant 0 <= i <= |matches|
      invariant Expand(t, vars) == ReplaceAll(matches[i..], result, vars)
    {
      var m := matches[i];
      assert matches[i..][1..] == matches[i + 1..];
      var varName := NameOf(m);
      if varName !in vars {
        return Err(MissingVariable(varName));
      }
      var replacement := FormatValue(OpOf(m), varName, vars[varName]);
      result := ReplaceFirst(result, m.full, replacement);
      i := i + 1;
    }
    return Ok(result);
  }

  /** The names of the expressions, each at its first occurrence. */
  function Names(ms: seq<Submatch>, seen: set<string>): seq<string> {
    if ms == [] then []
    else if NameOf(ms[0]) in seen then Names(ms[1..], seen)
    else [NameOf(ms[0])] + Names(ms[1..], seen + {NameOf(ms[0])})
  }

  method ExtractTemplateVariables(t: string) returns (variables: seq<string>)
    ensures variables == Names(Expressions(VARIABLE, t), {})
  {
    var matches := Expressions(VARIABLE, t);
    variables := [];
    var seen := {};
    var i := 0;
    while i < |matches|
      invariant 0 <= i <= |matches|
      invariant variables + Names(matches[i..], seen) == Names(matches, {})
    {
      assert matches[i..][1..] == matches[i + 1..];
      var varName := NameOf(matches[i]);
      if varName !in seen {
        Assoc(variables, [varName], Names(matches[i + 1..], seen + {varName}));
        variables := variables + [varName];
        seen := seen + {varName};
      }
      i := i + 1;
    }
  }

  /** The extracted names are distinct and are the names that occur. */
  lemma {:induction false} NamesAreDistinct(ms: seq<Submatch>, seen: set<string>)
    ensures var names := Names(ms, seen);
            (forall i, j :: 0 <= i < j < |names| ==> names[i] != names[j])
            && forall n :: n in names <==> n !in seen && exists m :: m in ms && NameOf(m) == n
    decreases |ms|
  {
    if ms != [] {
      var n := NameOf(ms[0]);
      var seen' := if n in seen then seen else seen + {n};
      NamesAreDistinct(ms[1..], seen');
      assert forall m :: m in ms <==> m == ms[0] || m in ms[1..];
      assert ms[0] in ms;
    }
  }

  // ---- One-pass substitution ----

  predicate Bound(toks: seq<Token>, vars: map<string, string>) {
    forall t :: t in toks && t.Expr? ==> t.name in vars
  }

  function SubstituteOne(t: Token, vars: map<string, string>): string
    requires t.Expr? ==> t.name in vars
  {
    match t
    case Ch(c) => [c]
    case Expr(op, name) => Replacement(op, name, vars[name])
  }

  function Substitute(toks: seq<Token>, vars: map<string, string>): string
    requires Bound(toks, vars)
  {
    if toks == [] then "" else SubstituteOne(toks[0], vars) + Substitute(toks[1..], vars)
  }

  predicate BraceFree(toks: seq<Token>, vars: map<string, string>)
    requires Bound(toks, vars)
  {
    forall t :: t in toks && t.Expr? ==> '{' !in vars[t.name]
  }

  // ---- Where a replacement lands ----

  /** The text of an expression has its opening brace only at its start. */
  lemma {:induction false} ShowsBraceOnce(t: Token)
    requires WellFormed(t) && t.Expr?
    ensures var x := Show(t); x != "" && x[0] == '{' && x[0] !in x[1..]
  {
    assert Show(t)[1..] == t.op + (t.name + "}");
    assert forall c :: c in t.name ==> IsNameChar(c);
    assert !IsNameChar('{') && '{' !in OPERATORS;
  }

  /** At every expression, the first occurrence of its text is the expression itself: the loop replaces
      each expression where it stands. `done` is the text before, already substituted. */
  predicate InPlace(done: string, toks: seq<Token>, vars: map<string, string>)
    requires Bound(toks, vars)
    decreases |toks|
  {
    toks == []
    || ((toks[0].Expr? ==> Index(done + Print(toks), Show(toks[0])) == |done|)
        && InPlace(done + SubstituteOne(toks[0], vars), toks[1..], vars))
  }

  /** No expression's text occurs in what the substitution has put before it. */
  predicate Clear(done: string, toks: seq<Token>, vars: map<string, string>)
    requires Bound(toks, vars)
    decreases |toks|
  {
    toks == []
    || ((toks[0].Expr? ==> !Occurs(done, Show(toks[0])))
        && Clear(done + SubstituteOne(toks[0], vars), toks[1..], vars))
  }

  lemma {:induction false} FirstIsOwn(done: string, toks: seq<Token>)
    requires AllWellFormed(toks) && toks != [] && toks[0].Expr?
    ensures Index(done + Print(toks), Show(toks[0])) == |done| <==> !Occurs(done, Show(toks[0]))
  {
    var x, rest := Show(toks[0]), Print(toks[1..]);
    assert WellFormed(toks[0]);
    ShowsBraceOnce(toks[0]);
    Assoc(done, x, rest);
    IndexBefore(done, x, rest);
  }

  /** The loop replaces each expression where it stands exactly when no expression's text occurs in what
      the values before it have become. */
  lemma {:induction false} InPlaceIffClear(done: string, toks: seq<Token>, vars: map<string, string>)
    requires AllWellFormed(toks) && Bound(toks, vars)
    ensures InPlace(done, toks, vars) <==> Clear(done, toks, vars)
    decreases |toks|
  {
    if toks != [] {
      if toks[0].Expr? {
        FirstIsOwn(done, toks);
      }
      InPlaceIffClear(done + SubstituteOne(toks[0], vars), toks[1..], vars);
    }
  }

  // ---- When a replacement has the right effect ----

  /** Replacing the first `target` in `done + target` gives `done + value`: it is the last one, or the value
      may stand in the wrong place because it trades places with the target. */
  predicate Harmless(done: string, target: string, value: string) {
    var p := Index(done, target);
    p < 0 || (var between := done[p + |target|..]; value + (between + target) == target + (between + value))
  }

  /** What replacing the first `target` makes of `done + target`: when it occurs in `done` already, the value
      goes there and the last one stays. */
  function Displace(done: string, target: string, value: string): string {
    var p := Index(done, target);
    if p < 0 then done + value else done[..p] + (value + (done[p + |target|..] + target))
  }

  lemma {:induction false} SpliceInPlace(done: string, target: string, value: string, rest: string)
    ensures Splice(done + target + rest, |done|, |target|, value) == (done + value) + rest
  {
    var s := done + target + rest;
    assert s[..|done|] == done && s[|done| + |target|..] == rest;
    Assoc(done, value, rest);
  }

  lemma {:induction false} SpliceEarlier(done: string, target: string, value: string, rest: string, p: nat)
    requires p + |target| <= |done|
    ensures Splice(done + target + rest, p, |target|, value)
         == (done[..p] + (value + (done[p + |target|..] + target))) + rest
  {
    var s := done + target + rest;
    var x, y := done[..p], done[p + |target|..];
    assert s[..p] == x && s[p + |target|..] == (y + target) + rest;
    Assoc(value, y + target, rest);
    Assoc(x, value + (y + target), rest);
  }

  lemma {:induction false} ReplaceIsDisplace(done: string, target: string, value: string, rest: string)
    requires target != "" && target[0] !in target[1..]
    ensures ReplaceFirst(done + (target + rest), target, value) == Displace(done, target, value) + rest
  {
    Assoc(done, target, rest);
    IndexBefore(done, target, rest);
    if Occurs(done, target) {
      ReplacesEarlier(done, target, value, rest);
    } else {
      ReplacesInPlace(done, target, value, rest);
    }
  }

  lemma {:induction false} ReplacesEarlier(done: string, target: string, value: string, rest: string)
    requires Occurs(done, target) && Index(done + target + rest, target) == Index(done, target)
    ensures ReplaceFirst(done + target + rest, target, value) == Displace(done, target, value) + rest
  {
    ReplacedAt(done + target + rest, target, value, Index(done, target));
    SpliceEarlier(done, target, value, rest, Index(done, target));
  }

  lemma {:induction false} ReplacesInPlace(done: string, target: string, value: string, rest: string)
    requires !Occurs(done, target) && Index(done + target + rest, target) == |done|
    ensures ReplaceFirst(done + target + rest, target, value) == Displace(done, target, value) + rest
  {
    ReplacedAt(done + target + rest, target, value, |done|);
    SpliceInPlace(done, target, value, rest);
  }

  lemma {:induction false} CancelLeft(x: string, a: string, b: string)
    ensures x + a == x + b <==> a == b
  {
    AppendDrop(x, a);
    AppendDrop(x, b);
  }

  lemma {:induction false} CancelRight(a: string, b: string, rest: string)
    requires |a| == |b|
    ensures a + rest == b + rest <==> a == b
  {
    AppendDrop(a, rest);
    AppendDrop(b, rest);
  }

  lemma {:induction false} DisplaceIffHarmless(done: string, target: string, value: string)
    ensures Displace(done, target, value) == done + value <==> Harmless(done, target, value)
    ensures |Displace(done, target, value)| == |done + value|
  {
    var p := Index(done, target);
    if p >= 0 {
      var x, between := done[..p], done[p + |target|..];
      CutAround(done, p, target);
      TradePlaces(x, target, between, value);
    }
  }

  lemma {:induction false} TradePlaces(x: string, target: string, between: string, value: string)
    ensures x + (value + (between + target)) == x + (target + between) + value
       <==> value + (between + target) == target + (between + value)
  {
    Assoc(target, between, value);
    Assoc(x, target + between, value);
    CancelLeft(x, value + (between + target), target + (between + value));
  }

  /** One replacement has the effect of substitution exactly when it is harmless. */
  lemma {:induction false} ReplaceIffHarmless(done: string, target: string, value: string, rest: string)
    requires target != "" && target[0] !in target[1..]
    ensures ReplaceFirst(done + (target + rest), target, value) == (done + value) + rest
       <==> Harmless(done, target, value)
  {
    ReplaceIsDisplace(done, target, value, rest);
    DisplaceIffHarmless(done, target, value);
    CancelRight(Displace(done, target, value), done + value, rest);
  }

  /** Every step of the loop leaves the text that one-pass substitution has at that point. */
  predicate StepsAgree(done: string, toks: seq<Token>, vars: map<string, string>)
    requires Bound(toks, vars)
    decreases |toks|
  {
    toks == []
    || (var next := done + SubstituteOne(toks[0], vars);
        (toks[0].Expr? ==>
           ReplaceFirst(done + Print(toks), Show(toks[0]), SubstituteOne(toks[0], vars)) == next + Print(toks[1..]))
        && StepsAgree(next, toks[1..], vars))
  }

  predicate AllHarmless(done: string, toks: seq<Token>, vars: map<string, string>)
    requires Bound(toks, vars)
    decreases |toks|
  {
    toks == []
    || ((toks[0].Expr? ==> Harmless(done, Show(toks[0]), SubstituteOne(toks[0], vars)))
        && AllHarmless(done + SubstituteOne(toks[0], vars), toks[1..], vars))
  }

  lemma {:induction false} FirstStepAgrees(done: string, toks: seq<Token>, vars: map<string, string>)
    requires AllWellFormed(toks) && Bound(toks, vars) && toks != [] && toks[0].Expr?
    ensures var one := SubstituteOne(toks[0], vars);
            ReplaceFirst(done + Print(toks), Show(toks[0]), one) == (done + one) + Print(toks[1..]) <==>
            Harmless(done, Show(toks[0]), one)
  {
    assert WellFormed(toks[0]);
    ShowsBraceOnce(toks[0]);
    ReplaceIffHarmless(done, Show(toks[0]), SubstituteOne(toks[0], vars), Print(toks[1..]));
  }

  /** The loop agrees with one-pass substitution at every step exactly when every replacement is harmless,
      which only looks at the template and the values. */
  lemma {:induction false} StepsAgreeIffHarmless(done: string, toks: seq<Token>, vars: map<string, string>)
    requires AllWellFormed(toks) && Bound(toks, vars)
    ensures StepsAgree(done, toks, vars) <==> AllHarmless(done, toks, vars)
    decreases |toks|
  {
    if toks != [] {
      if toks[0].Expr? {
        FirstStepAgrees(done, toks, vars);
      }
      StepsAgreeIffHarmless(done + SubstituteOne(toks[0], vars), toks[1..], vars);
    }
  }

  lemma {:induction false} ClearIsHarmless(done: string, toks: seq<Token>, vars: map<string, string>)
    requires Bound(toks, vars) && Clear(done, toks, vars)
    ensures AllHarmless(done, toks, vars)
    decreases |toks|
  {
    if toks != [] {
      ClearIsHarmless(done + SubstituteOne(toks[0], vars), toks[1..], vars);
    }
  }

  lemma {:induction false} SubstitutedBraceFree(t: Token, vars: map<string, string>)
    requires WellFormed(t) && (t.Expr? ==> t.name in vars && '{' !in vars[t.name])
    ensures '{' !in SubstituteOne(t, vars)
  {
    if t.Expr? {
      assert forall c :: c in t.name ==> IsNameChar(c);
      assert !IsNameChar('{');
    }
  }

  lemma {:induction false} BraceFreeIsClear(done: string, toks: seq<Token>, vars: map<string, string>)
    requires AllWellFormed(toks) && Bound(toks, vars) && BraceFree(toks, vars) && '{' !in done
    ensures Clear(done, toks, vars)
    decreases |toks|
  {
    if toks != [] {
      assert WellFormed(toks[0]);
      SubstitutedBraceFree(toks[0], vars);
      BraceFreeIsClear(done + SubstituteOne(toks[0], vars), toks[1..], vars);
      if toks[0].Expr? && Occurs(done, Show(toks[0])) {
        OccursLetter(done, Show(toks[0]), '{');
      }
    }
  }

  // ---- The whole loop ----

  /** What the loop makes of the expressions, from left to right. */
  function Displaced(done: string, toks: seq<Token>, vars: map<string, string>): string
    requires Bound(toks, vars)
    decreases |toks|
  {
    if toks == [] then done
    else
      var one := SubstituteOne(toks[0], vars);
      Displaced(if toks[0].Ch? then done + one else Displace(done, Show(toks[0]), one), toks[1..], vars)
  }

  lemma {:induction false} ReplaceAllDisplaces(done: string, toks: seq<Token>, vars: map<string, string>)
    requires AllWellFormed(toks) && Bound(toks, vars)
    ensures ReplaceAll(Submatches(toks), done + Print(toks), vars) == Ok(Displaced(done, toks, vars))
    decreases |toks|
  {
    if toks == [] {
      assert done + "" == done;
    } else {
      var t, rest := toks[0], Print(toks[1..]);
      assert WellFormed(t);
      if t.Expr? {
        var one := SubstituteOne(t, vars);
        ReplaceAllDisplaces(Displace(done, Show(t), one), toks[1..], vars);
        ShowsBraceOnce(t);
        ReplaceIsDisplace(done, Show(t), one, rest);
        assert Submatches(toks)[1..] == Submatches(toks[1..]);
      } else {
        ReplaceAllDisplaces(done + [t.c], toks[1..], vars);
        Assoc(done, [t.c], rest);
      }
    }
  }

  /** For all values: the loop never looks past the expression at hand, and puts its value at the first
      occurrence of its text in what the values before have become, or else in its own place. */
  lemma {:induction false} ExpandDisplaces(toks: seq<Token>, vars: map<string, string>)
    requires toks != [] && AllWellFormed(toks) && Bound(toks, vars)
    ensures Expand(Print(toks), vars) == Ok(Displaced("", toks, vars))
  {
    PrintedIsValid(toks);
    ScannersAgree(toks);
    ReplaceAllDisplaces("", toks, vars);
    assert "" + Print(toks) == Print(toks);
  }

  lemma {:induction false} HarmlessIsDisplaced(done: string, toks: seq<Token>, vars: map<string, string>)
    requires Bound(toks, vars) && AllHarmless(done, toks, vars)
    ensures Displaced(done, toks, vars) == done + Substitute(toks, vars)
    decreases |toks|
  {
    if toks == [] {
      assert done + "" == done;
    } else {
      var t, one := toks[0], SubstituteOne(toks[0], vars);
      if t.Expr? {
        DisplaceIffHarmless(done, Show(t), one);
      }
      HarmlessIsDisplaced(done + one, toks[1..], vars);
      Assoc(done, one, Substitute(toks[1..], vars));
    }
  }

  /** Repeated first-occurrence replacement is one-pass substitution whenever every replacement is
      harmless. */
  lemma {:induction false} SequentialIsSimultaneous(toks: seq<Token>, vars: map<string, string>)
    requires toks != [] && AllWellFormed(toks) && Bound(toks, vars) && AllHarmless("", toks, vars)
    ensures Expand(Print(toks), vars) == Ok(Substitute(toks, vars))
  {
    ExpandDisplaces(toks, vars);
    HarmlessIsDisplaced("", toks, vars);
    EmptyPlus(Substitute(toks, vars));
  }

  /** In particular when no value holds `{`. */
  lemma {:induction false} BraceFreeIsSimultaneous(toks: seq<Token>, vars: map<string, string>)
    requires toks != [] && AllWellFormed(toks) && Bound(toks, vars) && BraceFree(toks, vars)
    ensures Expand(Print(toks), vars) == Ok(Substitute(toks, vars))
  {
    BraceFreeIsClear("", toks, vars);
    ClearIsHarmless("", toks, vars);
    SequentialIsSimultaneous(toks, vars);
  }

  predicate NoExpressionIn(toks: seq<Token>) {
    forall t :: t in toks ==> t.Ch?
  }

  lemma {:induction false} OnlyText(done: string, toks: seq<Token>, vars: map<string, string>)
    requires NoExpressionIn(toks)
    ensures Bound(toks, vars) && Displaced(done, toks, vars) == done + Substitute(toks, vars)
    decreases |toks|
  {
    if toks == [] {
      assert done + "" == done;
    } else {
      assert toks[0] in toks;
      assert forall t :: t in toks[1..] ==> t in toks;
      OnlyText(done + SubstituteOne(toks[0], vars), toks[1..], vars);
      Assoc(done, SubstituteOne(toks[0], vars), Substitute(toks[1..], vars));
    }
  }

  lemma {:induction false} SubstituteConcat(done: string, a: seq<Token>, b: seq<Token>, vars: map<string, string>)
    requires Bound(a, vars) && Bound(b, vars)
    ensures Bound(a + b, vars) && Substitute(a + b, vars) == Substitute(a, vars) + Substitute(b, vars)
    ensures Displaced(done, a + b, vars) == Displaced(Displaced(done, a, vars), b, vars)
    decreases |a|
  {
    if a == [] {
      assert a + b == b;
      EmptyPlus(Substitute(b, vars));
    } else {
      var one := SubstituteOne(a[0], vars);
      assert (a + b)[1..] == a[1..] + b;
      SubstituteConcat(if a[0].Ch? then done + one else Displace(done, Show(a[0]), one), a[1..], b, vars);
      Assoc(one, Substitute(a[1..], vars), Substitute(b, vars));
    }
  }

  /** When all expressions but the last are harmless, the last one decides: the loop's text is that of
      one-pass substitution exactly when the last replacement is harmless too. */
  lemma {:induction false} LastDecides(front: seq<Token>, t: Token, back: seq<Token>, vars: map<string, string>)
    requires AllWellFormed(front + ([t] + back)) && t.Expr? && NoExpressionIn(back)
    requires Bound(front, vars) && t.name in vars && AllHarmless("", front, vars)
    ensures Bound(front + ([t] + back), vars)
    ensures Expand(Print(front + ([t] + back)), vars) == Ok(Substitute(front + ([t] + back), vars))
       <==> Harmless(Substitute(front, vars), Show(t), SubstituteOne(t, vars))
  {
    var done := Substitute(front, vars);
    OnlyText("", back, vars);
    assert ([t] + back)[1..] == back;
    SubstituteConcat("", front, [t] + back, vars);
    ExpandDisplaces(front + ([t] + back), vars);
    HarmlessIsDisplaced("", front, vars);
    EmptyPlus(done);
    LastStep(done, t, back, vars);
  }

  lemma {:induction false} LastStep(done: string, t: Token, back: seq<Token>, vars: map<string, string>)
    requires t.Expr? && t.name in vars && NoExpressionIn(back) && Bound([t] + back, vars)
    ensures Displaced(done, [t] + back, vars) == done + Substitute([t] + back, vars)
       <==> Harmless(done, Show(t), SubstituteOne(t, vars))
  {
    var one := SubstituteOne(t, vars);
    var next := Displace(done, Show(t), one);
    OnlyText(next, back, vars);
    FirstExpression(done, t, back, vars);
    DisplaceIffHarmless(done, Show(t), one);
    Assoc(done, one, Substitute(back, vars));
    CancelRight(next, done + one, Substitute(back, vars));
  }

  lemma {:induction false} ShowsDiffer(a: string, b: string)
    requires IsIdentifier(a) && IsIdentifier(b) && Occurs(Show(Expr("", a)), Show(Expr("", b)))
    ensures a == b
  {
    var s, x := Show(Expr("", a)), Show(Expr("", b));
    ShowIs(a);
    ShowIs(b);
    var p := Index(s, x);
    assert s[p..p + |x|][0] == s[p] && s[p..p + |x|][|x| - 1] == s[p + |x| - 1];
    assert p == 0 && |x| == |s|;
    assert s[1..|s| - 1] == a && x[1..|x| - 1] == b;
  }

  lemma {:induction false} ShowIs(n: string)
    requires IsIdentifier(n)
    ensures var x := Show(Expr("", n));
            |x| == |n| + 2 && x[0] == '{' && x[|x| - 1] == '}' && x[1..|x| - 1] == n
            && (forall i :: 0 < i < |x| ==> x[i] != '{') && (forall i :: 0 <= i < |x| - 1 ==> x[i] != '}')
  {
    var x := Show(Expr("", n));
    assert x == ['{'] + (n + "}");
    assert !IsNameChar('{') && !IsNameChar('}');
    assert forall i :: 0 < i < |x| - 1 ==> x[i] == n[i - 1];
  }

  lemma {:induction false} FirstExpression(done: string, t: Token, rest: seq<Token>, vars: map<string, string>)
    requires t.Expr? && Bound([t] + rest, vars) && Bound(rest, vars)
    ensures var one := SubstituteOne(t, vars);
            && Displaced(done, [t] + rest, vars) == Displaced(Displace(done, Show(t), one), rest, vars)
            && Substitute([t] + rest, vars) == one + Substitute(rest, vars)
            && (AllHarmless(done, [t] + rest, vars) <==> Harmless(done, Show(t), one) && AllHarmless(done + one, rest, vars))
  {
    assert ([t] + rest)[1..] == rest;
  }

  lemma {:induction false} ThreeExpressions(a: Token, b: Token, c: Token, vars: map<string, string>)
    requires a.Expr? && b.Expr? && c.Expr? && a.name in vars && b.name in vars && c.name in vars
    ensures var va, vb, vc := SubstituteOne(a, vars), SubstituteOne(b, vars), SubstituteOne(c, vars);
            && Displaced("", [a, b, c], vars) == Displace(Displace(Displace("", Show(a), va), Show(b), vb), Show(c), vc)
            && Substitute([a, b, c], vars) == va + (vb + (vc + ""))
            && (AllHarmless("", [a, b, c], vars) ==> Harmless("" + va, Show(b), vb))
  {
    var va, vb := SubstituteOne(a, vars), SubstituteOne(b, vars);
    assert [a, b, c] == [a] + [b, c] && [b, c] == [b] + [c] && [c] == [c] + [];
    var da := Displace("", Show(a), va);
    FirstExpression("", a, [b, c], vars);
    FirstExpression(da, b, [c], vars);
    FirstExpression(Displace(da, Show(b), vb), c, [], vars);
    FirstExpression("" + va, b, [c], vars);
  }

  /** The first misplacement puts `c` in front of `c + b`, the second takes it out again. */
  lemma {:induction false} MovesThere(b: string, c: string)
    requires b != "" && b[0] !in b[1..] && c != "" && !Occurs(c, b)
    ensures Index(c + b, b) == |c| && (c + b)[|c| + |b|..] == ""
    ensures Displace(c + b, b, c) == c + (c + b)
  {
    IndexBefore(c, b, "");
    assert c + b + "" == c + b;
    assert (c + b)[..|c|] == c && c + (c + ("" + b)) == c + (c + b);
  }

  lemma {:induction false} MovesBack(b: string, c: string)
    ensures Displace(c + (c + b), c, "") == (c + b) + c
  {
    var d := c + (c + b);
    AppendDrop(c, c + b);
    assert c <= d && Index(d, c) == 0;
    assert d[..0] == "" && "" + ("" + (d[|c|..] + c)) == d[|c|..] + c;
  }

  lemma {:induction false} NotHarmless(b: string, c: string)
    requires b != "" && b[0] !in b[1..] && c != "" && !Occurs(c, b) && c + b != b + c
    ensures !Harmless("" + (c + b), b, c)
  {
    MovesThere(b, c);
    assert "" + (c + b) == c + b;
    assert c + ("" + b) == c + b && b + ("" + c) == b + c;
  }

  /** Two misplaced values can make up for each other: a replacement of this template is not harmless, but
      the text comes out right. So being harmless throughout is exact for the steps, not for the last text. */
  lemma {:induction false} WrongPlacesCanCancel(a: string, b: string, c: string)
    requires IsIdentifier(a) && IsIdentifier(b) && IsIdentifier(c) && a != b && b != c && a != c
    ensures var toks := [Expr("", a), Expr("", b), Expr("", c)];
            var vars := map[a := Show(Expr("", c)) + Show(Expr("", b)), b := Show(Expr("", c)), c := ""];
            !AllHarmless("", toks, vars) && Expand(Print(toks), vars) == Ok(Substitute(toks, vars))
  {
    var ta, tb, tc := Expr("", a), Expr("", b), Expr("", c);
    var vars := map[a := Show(tc) + Show(tb), b := Show(tc), c := ""];
    ExpandDisplaces([ta, tb, tc], vars);
    ThreeExpressions(ta, tb, tc, vars);
    ShowIs(a);
    ShowsBraceOnce(tb);
    ShowsBraceOnce(tc);
    if Occurs(Show(tc), Show(tb)) {
      ShowsDiffer(c, b);
    }
    NotSwapped(b, c);
    NotHarmless(Show(tb), Show(tc));
    Cancels(Show(ta), Show(tb), Show(tc));
  }

  lemma {:induction false} Cancels(a: string, b: string, c: string)
    requires a != "" && b != "" && b[0] !in b[1..] && c != "" && !Occurs(c, b)
    ensures Displace(Displace(Displace("", a, c + b), b, c), c, "") == (c + b) + (c + ("" + ""))
  {
    assert Index("", a) < 0 && "" + (c + b) == c + b;
    MovesThere(b, c);
    MovesBack(b, c);
    assert c + ("" + "") == c;
  }

  lemma {:induction false} NotSwapped(b: string, c: string)
    requires IsIdentifier(b) && IsIdentifier(c) && b != c
    ensures Show(Expr("", c)) + Show(Expr("", b)) != Show(Expr("", b)) + Show(Expr("", c))
  {
    var B, C := Show(Expr("", b)), Show(Expr("", c));
    ShowIs(b);
    ShowIs(c);
    if |B| == |C| {
      assert (C + B)[..|C|] == C && (B + C)[..|C|] == B;
    } else if |C| < |B| {
      assert (C + B)[|C|] == '{' && (B + C)[|C|] == B[|C|];
    } else {
      assert (B + C)[|B|] == '{' && (C + B)[|B|] == C[|B|];
    }
  }

  /** In `{a}{b}`, when the value of `a` is the text `{b}`, that text is replaced in its turn and the second
      expression stays: expansion is wrong exactly when the value of `b` does not commute with it. */
  lemma {:induction false} BraceInValueIsReplacedAgain(a: string, b: string, v: string)
    requires IsIdentifier(a) && IsIdentifier(b) && a != b
    ensures var toks := [Expr("", a), Expr("", b)];
            var vars := map[a := Show(Expr("", b)), b := v];
            && Expand(Print(toks), vars) == Ok(v + Show(Expr("", b)))
            && Substitute(toks, vars) == Show(Expr("", b)) + v
            && (Expand(Print(toks), vars) != Ok(Substitute(toks, vars))
                <==> v + Show(Expr("", b)) != Show(Expr("", b)) + v)
  {
    var ta, tb := Expr("", a), Expr("", b);
    var vars := map[a := Show(tb), b := v];
    TwoExpressions(ta, tb, vars);
    assert AllWellFormed([ta, tb]);
    ScannersAgree([ta, tb]);
    PrintedIsValid([ta, tb]);
    TwoReplacements(Show(ta), a, Show(tb), b, vars);
  }

  lemma {:induction false} TwoReplacements(fa: string, a: string, fb: string, b: string, vars: map<string, string>)
    requires fa != "" && fb != "" && a in vars && b in vars && vars[a] == fb
    ensures ReplaceAll([Submatch(fa, ["", a, ""]), Submatch(fb, ["", b, ""])], fa + fb, vars) == Ok(vars[b] + fb)
  {
    var ma, mb := Submatch(fa, ["", a, ""]), Submatch(fb, ["", b, ""]);
    assert [ma, mb][1..] == [mb] && [mb][1..] == [];
    ReplaceFirstAt("", fa, fb, fb, 0);
    assert "" + fa + fb == fa + fb && "" + fb + fb == fb + fb;
    ReplaceFirstAt("", fb, vars[b], fb, 0);
    assert "" + fb + fb == fb + fb && "" + vars[b] + fb == vars[b] + fb;
    assert ReplaceAll([mb], fb + fb, vars) == Ok(vars[b] + fb);
  }

  lemma {:induction false} TwoExpressions(a: Token, b: Token, vars: map<string, string>)
    requires a.Expr? && b.Expr? && a.name in vars && b.name in vars
    ensures Print([a, b]) == Show(a) + Show(b)
    ensures Substitute([a, b], vars) == SubstituteOne(a, vars) + SubstituteOne(b, vars)
    ensures Submatches([a, b]) == [Submatch(Show(a), [a.op, a.name, ""]), Submatch(Show(b), [b.op, b.name, ""])]
  {
    assert [a, b][1..] == [b] && [b][1..] == [];
    assert Print([b]) == Show(b) + Print([]) == Show(b);
    assert Substitute([b], vars) == SubstituteOne(b, vars) + Substitute([], vars) == SubstituteOne(b, vars);
    assert Submatches([b]) == [Submatch(Show(b), [b.op, b.name, ""])] + Submatches([]);
  }

  /** On a template that validation accepts, expansion succeeds exactly when every extracted name
      is bound. */
  lemma {:induction false} ExpandsIffBound(t: string, vars: map<string, string>)
    requires Validate(t).None?
    ensures Expand(t, vars).Ok? <==> forall n :: n in Names(Expressions(VARIABLE, t), {}) ==> n in vars
  {
    ValidationIsTheGrammar(t);
    var toks :| toks != [] && AllWellFormed(toks) && Print(toks) == t;
    ScannersAgree(toks);
    var ms := Submatches(toks);
    NamesAreDistinct(ms, {});
    ReplaceAllOk(ms, t, vars);
  }

  lemma {:induction false} ReplaceAllOk(ms: seq<Submatch>, result: string, vars: map<string, string>)
    ensures ReplaceAll(ms, result, vars).Ok? <==> forall m :: m in ms ==> NameOf(m) in vars
    decreases |ms|
  {
    if ms != [] {
      assert forall m :: m in ms <==> m == ms[0] || m in ms[1..];
      if NameOf(ms[0]) in vars {
        var r := Replacement(OpOf(ms[0]), NameOf(ms[0]), vars[NameOf(ms[0])]);
        ReplaceAllOk(ms[1..], ReplaceFirst(result, ms[0].full, r), vars);
      }
    }
  }
}
