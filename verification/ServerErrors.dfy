/** Which error the server's templates report: the first place where the braces go wrong, else the first bad
    name, else the first unbound one; and the order in which names are extracted. */
module ServerErrors {
  import opened Wrappers
  import opened Text
  import opened Regex
  import opened ServerTemplate
  import opened ServerExpand

  // ---- Braces ----

  /** How many braces are open at the end of the text. */
  function Depth(s: string): int {
    multiset(s)['{'] as int - multiset(s)['}'] as int
  }

  predicate OneLevel(depth: int) {
    depth == 0 || depth == 1
  }

  /** The braces go wrong at `p`, and not before. */
  predicate FirstWrong(s: string, depth: nat, p: nat) {
    p < |s| && !OneLevel(depth + Depth(s[..p + 1])) && forall q :: 0 <= q <= p ==> OneLevel(depth + Depth(s[..q]))
  }

  predicate NeverWrong(s: string, depth: nat) {
    forall q :: 0 <= q <= |s| ==> OneLevel(depth + Depth(s[..q]))
  }

  function BraceStep(c: char): int {
    if c == '{' then 1 else if c == '}' then -1 else 0
  }

  lemma {:induction false} DepthOfTail(s: string, q: nat)
    requires s != "" && q < |s|
    ensures Depth(s[..q + 1]) == BraceStep(s[0]) + Depth(s[1..][..q])
  {
    assert s[..q + 1] == [s[0]] + s[1..][..q];
  }

  lemma {:induction false} WrongLater(s: string, depth: nat, p: nat)
    requires 0 < p && FirstWrong(s, depth, p)
    ensures depth + BraceStep(s[0]) >= 0 && OneLevel(depth + BraceStep(s[0]))
    ensures FirstWrong(s[1..], depth + BraceStep(s[0]), p - 1)
  {
    DepthOfTail(s, 0);
    assert OneLevel(depth + Depth(s[..1]));
    DepthOfTail(s, p);
    forall q | 0 <= q <= p - 1 ensures OneLevel(depth + BraceStep(s[0]) + Depth(s[1..][..q])) {
      DepthOfTail(s, q);
      assert OneLevel(depth + Depth(s[..q + 1]));
    }
  }

  lemma {:induction false} BracesGoWrong(s: string, depth: nat, p: nat)
    requires FirstWrong(s, depth, p)
    ensures BraceError(s, depth) == Some(if s[p] == '{' then NestedBraces else UnmatchedClosing)
    decreases p
  {
    assert Depth(s[..0]) == 0;
    assert OneLevel(depth + Depth(s[..0]));
    if p == 0 {
      DepthOfTail(s, 0);
    } else {
      WrongLater(s, depth, p);
      BracesGoWrong(s[1..], depth + BraceStep(s[0]), p - 1);
    }
  }

  lemma {:induction false} NeverLater(s: string, depth: nat)
    requires s != "" && NeverWrong(s, depth)
    ensures depth + BraceStep(s[0]) >= 0 && NeverWrong(s[1..], depth + BraceStep(s[0]))
    ensures Depth(s) == BraceStep(s[0]) + Depth(s[1..])
  {
    DepthOfTail(s, 0);
    assert OneLevel(depth + Depth(s[..1]));
    DepthOfTail(s, |s| - 1);
    assert s[..|s|] == s && s[1..][..|s| - 1] == s[1..];
    forall q | 0 <= q <= |s| - 1 ensures OneLevel(depth + BraceStep(s[0]) + Depth(s[1..][..q])) {
      DepthOfTail(s, q);
      assert OneLevel(depth + Depth(s[..q + 1]));
    }
  }

  lemma {:induction false} BracesStayRight(s: string, depth: nat)
    requires NeverWrong(s, depth)
    ensures BraceError(s, depth) == if depth + Depth(s) == 0 then None else Some(UnmatchedOpening)
    decreases |s|
  {
    assert s[..0] == "" && OneLevel(depth + Depth(s[..0]));
    if s != "" {
      NeverLater(s, depth);
      assert OneLevel(depth + Depth(s[..1]));
      DepthOfTail(s, 0);
      BracesStayRight(s[1..], depth + BraceStep(s[0]));
    }
  }

  // ---- Validation ----

  lemma {:induction false} FirstBadName(ms: seq<Submatch>, k: nat)
    requires k < |ms| && !IsIdentifier(NameOf(ms[k])) && forall i :: 0 <= i < k ==> IsIdentifier(NameOf(ms[i]))
    ensures NameError(ms) == Some(if NameOf(ms[k]) == "" then EmptyName else InvalidName(NameOf(ms[k])))
    decreases k
  {
    if k > 0 {
      assert IsIdentifier(NameOf(ms[0]));
      forall i | 0 <= i < k - 1 ensures IsIdentifier(NameOf(ms[1..][i])) {
        assert ms[1..][i] == ms[i + 1];
      }
      FirstBadName(ms[1..], k - 1);
    }
  }

  /** Validation reports the first place where the braces go wrong: a second opening brace, or a closing one
      that nothing opened. */
  lemma {:induction false} ReportsFirstBrace(t: string, p: nat)
    requires FirstWrong(t, 0, p)
    ensures Validate(t) == Some(if t[p] == '{' then NestedBraces else UnmatchedClosing)
  {
    BracesGoWrong(t, 0, p);
  }

  /** If there is no such place: that the last brace is open, if it is, and else the first name that is no
      identifier. */
  lemma {:induction false} ReportsFirstName(t: string, k: nat)
    requires t != "" && NeverWrong(t, 0)
    ensures Depth(t) != 0 ==> Validate(t) == Some(UnmatchedOpening)
    ensures var ms := Expressions(ANY_VARIABLE, t);
            Depth(t) == 0 && k < |ms| && !IsIdentifier(NameOf(ms[k]))
              && (forall i :: 0 <= i < k ==> IsIdentifier(NameOf(ms[i]))) ==>
              Validate(t) == Some(if NameOf(ms[k]) == "" then EmptyName else InvalidName(NameOf(ms[k])))
  {
    BracesStayRight(t, 0);
    var ms := Expressions(ANY_VARIABLE, t);
    if k < |ms| && !IsIdentifier(NameOf(ms[k])) && forall i :: 0 <= i < k ==> IsIdentifier(NameOf(ms[i])) {
      FirstBadName(ms, k);
    }
  }

  // ---- Expansion ----

  lemma {:induction false} FirstUnbound(ms: seq<Submatch>, result: string, vars: map<string, string>, k: nat)
    requires k < |ms| && NameOf(ms[k]) !in vars && forall i :: 0 <= i < k ==> NameOf(ms[i]) in vars
    ensures ReplaceAll(ms, result, vars) == Err(MissingVariable(NameOf(ms[k])))
    decreases k
  {
    if k > 0 {
      assert NameOf(ms[0]) in vars;
      forall i | 0 <= i < k - 1 ensures NameOf(ms[1..][i]) in vars {
        assert ms[1..][i] == ms[i + 1];
      }
      var r := Replacement(OpOf(ms[0]), NameOf(ms[0]), vars[NameOf(ms[0])]);
      FirstUnbound(ms[1..], ReplaceFirst(result, ms[0].full, r), vars, k - 1);
    }
  }

  /** The expressions among the tokens, in order. */
  function ExprsOf(toks: seq<Token>): seq<Token> {
    if toks == [] then [] else (if toks[0].Expr? then [toks[0]] else []) + ExprsOf(toks[1..])
  }

  lemma {:induction false} SubmatchAt(toks: seq<Token>, i: nat)
    requires i < |Submatches(toks)|
    ensures |ExprsOf(toks)| == |Submatches(toks)| && ExprsOf(toks)[i].Expr?
    ensures NameOf(Submatches(toks)[i]) == ExprsOf(toks)[i].name
    decreases |toks|
  {
    if toks[0].Ch? {
      EmptyPlus(ExprsOf(toks[1..]));
      SubmatchAt(toks[1..], i);
    } else {
      SameCount(toks[1..]);
      if i > 0 {
        SubmatchAt(toks[1..], i - 1);
      }
    }
  }

  lemma {:induction false} SameCount(toks: seq<Token>)
    ensures |ExprsOf(toks)| == |Submatches(toks)|
    decreases |toks|
  {
    if toks != [] {
      SameCount(toks[1..]);
    }
  }

  /** Expansion of a valid template fails on the first expression whose name is not bound. */
  lemma {:induction false} ReportsFirstUnbound(toks: seq<Token>, vars: map<string, string>, k: nat)
    requires toks != [] && AllWellFormed(toks) && k < |ExprsOf(toks)|
    requires ExprsOf(toks)[k].Expr? && ExprsOf(toks)[k].name !in vars
    requires forall i :: 0 <= i < k ==> ExprsOf(toks)[i].Expr? && ExprsOf(toks)[i].name in vars
    ensures Expand(Print(toks), vars) == Err(MissingVariable(ExprsOf(toks)[k].name))
  {
    PrintedIsValid(toks);
    ScannersAgree(toks);
    SameCount(toks);
    var ms := Submatches(toks);
    SubmatchAt(toks, k);
    forall i | 0 <= i < k ensures NameOf(ms[i]) in vars {
      SubmatchAt(toks, i);
    }
    FirstUnbound(ms, Print(toks), vars, k);
  }

  // ---- The order of extracted names ----

  /** Where a name first occurs. */
  predicate FirstAt(ms: seq<Submatch>, p: nat, n: string) {
    p < |ms| && NameOf(ms[p]) == n && forall q :: 0 <= q < p ==> NameOf(ms[q]) != n
  }

  lemma {:induction false} FirstInTail(ms: seq<Submatch>, p: nat, n: string)
    requires FirstAt(ms, p, n) && p > 0
    ensures FirstAt(ms[1..], p - 1, n)
  {
    forall q | 0 <= q < p - 1 ensures NameOf(ms[1..][q]) != n {
      assert ms[1..][q] == ms[q + 1];
    }
  }

  lemma {:induction false} NamesStart(ms: seq<Submatch>, seen: set<string>)
    requires ms != [] && NameOf(ms[0]) !in seen
    ensures var names, n := Names(ms, seen), NameOf(ms[0]);
            names == [n] + Names(ms[1..], seen + {n}) && forall i :: 0 < i < |names| ==> names[i] != n
  {
    NamesAreDistinct(ms, seen);
    var names := Names(ms, seen);
    assert names[0] == NameOf(ms[0]);
  }

  lemma {:induction false} SeenIsSkipped(ms: seq<Submatch>, seen: set<string>, i: nat, p: nat)
    requires i < |Names(ms, seen)| && FirstAt(ms, p, Names(ms, seen)[i])
    ensures NameOf(ms[p]) !in seen
  {
    NamesAreDistinct(ms, seen);
    assert Names(ms, seen)[i] in Names(ms, seen);
  }

  /** The names are extracted in the order in which they first occur. */
  lemma {:induction false} NamesInOrder(ms: seq<Submatch>, seen: set<string>, i: nat, j: nat, p: nat, q: nat)
    requires i < j < |Names(ms, seen)|
    requires FirstAt(ms, p, Names(ms, seen)[i]) && FirstAt(ms, q, Names(ms, seen)[j])
    ensures p < q
    decreases |ms|
  {
    var names := Names(ms, seen);
    var n := NameOf(ms[0]);
    SeenIsSkipped(ms, seen, i, p);
    SeenIsSkipped(ms, seen, j, q);
    if n in seen {
      FirstInTail(ms, p, names[i]);
      FirstInTail(ms, q, names[j]);
      NamesInOrder(ms[1..], seen, i, j, p - 1, q - 1);
    } else {
      NamesStart(ms, seen);
      FirstInTail(ms, q, names[j]);
      if i > 0 {
        FirstInTail(ms, p, names[i]);
        NamesInOrder(ms[1..], seen + {n}, i - 1, j - 1, p - 1, q - 1);
      }
    }
  }
}
