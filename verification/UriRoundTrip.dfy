/** When matching undoes expansion for the templates of shared/uri_template.go: path expressions, then
    query expressions, with scalars or, where the star allows it, lists. */
module UriRoundTrip {
  import opened Wrappers
  import opened Text
  import opened Regex
  import opened UriTemplate
  import opened UriExpand
  import opened UriMatch

  // ---- What is expanded, and what is expected back ----

  function Escapes(vs: seq<string>): (es: seq<string>)
    ensures |es| == |vs|
    ensures forall i :: 0 <= i < |vs| ==> es[i] == QueryEscape(vs[i])
  {
    if vs == [] then [] else [QueryEscape(vs[0])] + Escapes(vs[1..])
  }

  /** The text that a value becomes. */
  function TextOf(v: Value): string {
    Join(Escapes(ItemsOf(v)), ",")
  }

  /** The value that matching gives back: a list of escaped strings where the star allows one, else the
      escaped text. */
  function Back(v: Value, exploded: bool): Value {
    if exploded && |ItemsOf(v)| >= 2 then Items(Escapes(ItemsOf(v))) else Scalar(TextOf(v))
  }

  predicate Short(vs: seq<string>) {
    forall x :: x in vs ==> ByteLen(x) <= MAX_VARIABLE_LENGTH
  }

  predicate Usable(name: string, vars: Variables) {
    name in vars && Short(ItemsOf(vars[name])) && TextOf(vars[name]) != "" && '*' !in name
  }

  predicate NamesIn(names: seq<string>, vars: Variables) {
    forall n :: n in names ==> n in vars
  }

  predicate AllUsable(names: seq<string>, vars: Variables) {
    NamesIn(names, vars) && forall n :: n in names ==> Usable(n, vars)
  }

  predicate NoMark(names: seq<string>) {
    forall n :: n in names ==> '?' !in n
  }

  lemma {:induction false} FirstUsable(names: seq<string>, vars: Variables)
    requires names != [] && AllUsable(names, vars)
    ensures Usable(names[0], vars) && AllUsable(names[1..], vars)
    ensures NoMark(names) ==> '?' !in names[0] && NoMark(names[1..])
  {
    assert names[0] in names;
    assert forall n :: n in names[1..] ==> n in names;
  }

  /** A literal, or `{name}`, `{/name}`, `{.name}` with one string, or `{name*}`, `{+name}` with any number. */
  predicate PathFits(p: Part, vars: Variables) {
    p.Expression? ==>
      p.op in {"", "/", ".", "+"} && p.names == [p.name] && Usable(p.name, vars)
      && (|ItemsOf(vars[p.name])| == 1 || (p.op == "" && p.exploded) || p.op == "+")
  }

  predicate QueryFits(p: Part, vars: Variables) {
    p.Expression? && IsQuery(p.op) && p.names != [] && AllUsable(p.names, vars) && NoMark(p.names)
  }

  predicate AllPathFit(path: seq<Part>, vars: Variables) {
    forall p :: p in path ==> PathFits(p, vars)
  }

  /** An expression of the path is followed by the path's end or by what expands to text starting with `/`;
      `{+name}` stands only at the end of everything. */
  predicate Separated(path: seq<Part>, query: seq<Part>) {
    && (forall i :: 0 <= i < |path| - 1 && path[i].Expression? ==> path[i].op != "+" && StartsSlash(path[i + 1]))
    && (path != [] && path[|path| - 1].Expression? && path[|path| - 1].op == "+" ==> query == [])
  }

  predicate StartsSlash(p: Part) {
    if p.Literal? then "/" <= p.text else p.op == "/"
  }

  /** Continued query expressions, each `{&..}`. */
  predicate TailFits(query: seq<Part>, vars: Variables) {
    forall p :: p in query ==> QueryFits(p, vars) && p.op == "&"
  }

  /** No query, or `{?..}` and then any number of `{&..}`. */
  predicate AllQueryFit(query: seq<Part>, vars: Variables) {
    query == [] || (QueryFits(query[0], vars) && query[0].op == "?" && TailFits(query[1..], vars))
  }

  function QueryText(lead: string, names: seq<string>, vars: Variables): string
    requires NamesIn(names, vars)
    decreases |names|
  {
    if names == [] then ""
    else lead + (names[0] + ("=" + TextOf(vars[names[0]]))) + QueryText("&", names[1..], vars)
  }

  /** The text of a part that fits. */
  function PartText(p: Part, vars: Variables): string
    requires PathFits(p, vars) || QueryFits(p, vars)
  {
    if p.Literal? then p.text
    else if IsQuery(p.op) then QueryText(p.op, p.names, vars)
    else LeadOf(p.op) + TextOf(vars[p.name])
  }

  /** The text before the value of an expression. */
  function LeadOf(op: string): string {
    if op == "+" then "" else op
  }

  predicate Fits(p: Part, vars: Variables) {
    PathFits(p, vars) || QueryFits(p, vars)
  }

  predicate AllFit(parts: seq<Part>, vars: Variables) {
    forall p :: p in parts ==> Fits(p, vars)
  }

  function TextFrom(parts: seq<Part>, vars: Variables): string
    requires AllFit(parts, vars)
  {
    if parts == [] then ""
    else
      assert Fits(parts[0], vars);
      PartText(parts[0], vars) + TextFrom(parts[1..], vars)
  }

  predicate GroupsBound(groups: seq<Group>, vars: Variables) {
    forall g :: g in groups ==> g.name in vars
  }

  function TextsOf(groups: seq<Group>, vars: Variables): seq<string>
    requires GroupsBound(groups, vars)
  {
    if groups == [] then []
    else
      assert groups[0] in groups;
      [TextOf(vars[groups[0].name])] + TextsOf(groups[1..], vars)
  }

  // ---- Text of values ----

  lemma {:induction false} JoinSafe(es: seq<string>)
    requires forall e :: e in es ==> forall c :: c in e ==> Safe(c)
    ensures forall c :: c in Join(es, ",") ==> Safe(c) || c == ','
    decreases |es|
  {
    if |es| > 1 {
      assert forall e :: e in es[1..] ==> e in es;
      JoinSafe(es[1..]);
      assert es[0] in es;
    } else if |es| == 1 {
      assert es[0] in es;
    }
  }

  /** Escaped text has no character that separates anything in a URI, but for the commas of a list. */
  lemma {:induction false} TextIsSafe(v: Value)
    ensures forall c :: c in TextOf(v) ==> Safe(c) || c == ','
    ensures |ItemsOf(v)| == 1 ==> ',' !in TextOf(v) && TextOf(v) == QueryEscape(ItemsOf(v)[0])
    ensures |ItemsOf(v)| >= 2 ==> ',' in TextOf(v)
  {
    JoinSafe(Escapes(ItemsOf(v)));
    var es := Escapes(ItemsOf(v));
    if |es| >= 2 {
      assert Join(es, ",") == es[0] + "," + Join(es[1..], ",");
      assert Join(es, ",")[|es[0]|] == ',';
    }
  }

  lemma {:induction false} SplitsText(v: Value)
    requires |ItemsOf(v)| >= 1
    ensures Split(TextOf(v), ',') == Escapes(ItemsOf(v))
  {
    assert [','] == ",";
    SplitJoin(Escapes(ItemsOf(v)), ',');
  }

  lemma {:induction false} CapturedIsBack(v: Value, exploded: bool)
    requires TextOf(v) != ""
    ensures Captured(TextOf(v), exploded) == Back(v, exploded)
  {
    TextIsSafe(v);
    if |ItemsOf(v)| >= 1 {
      SplitsText(v);
    }
  }

  // ---- Expanding ----

  lemma {:induction false} EncodesAll(vs: seq<string>)
    requires Short(vs)
    ensures EncodeAll(vs) == Ok(Escapes(vs))
    decreases |vs|
  {
    if vs != [] {
      assert vs[0] in vs;
      assert forall x :: x in vs[1..] ==> x in vs;
      EncodesAll(vs[1..]);
    }
  }

  function PairTexts(names: seq<string>, vars: Variables): (pairs: seq<string>)
    requires NamesIn(names, vars)
    ensures |pairs| == |names|
  {
    if names == [] then [] else [names[0] + ("=" + TextOf(vars[names[0]]))] + PairTexts(names[1..], vars)
  }

  lemma {:induction false} PairsAre(names: seq<string>, vars: Variables)
    requires AllUsable(names, vars)
    ensures PairsOf(names, vars) == Ok(PairTexts(names, vars))
    decreases |names|
  {
    if names != [] {
      FirstUsable(names, vars);
      EncodesAll(ItemsOf(vars[names[0]]));
      PairsAre(names[1..], vars);
    }
  }

  lemma {:induction false} PairsJoin(lead: string, names: seq<string>, vars: Variables)
    requires names != [] && NamesIn(names, vars)
    ensures lead + Join(PairTexts(names, vars), "&") == QueryText(lead, names, vars)
    decreases |names|
  {
    var pairs := PairTexts(names, vars);
    if |names| == 1 {
      assert QueryText("&", names[1..], vars) == "";
      assert lead + pairs[0] + "" == lead + pairs[0];
    } else {
      PairsJoin("&", names[1..], vars);
      assert pairs[1..] == PairTexts(names[1..], vars);
      Assoc(pairs[0], "&", Join(pairs[1..], "&"));
      Assoc(lead, pairs[0], "&" + Join(pairs[1..], "&"));
    }
  }

  lemma {:induction false} QueryExpands(p: Part, vars: Variables)
    requires QueryFits(p, vars)
    ensures ExpandPart(p, vars) == Ok(PartText(p, vars)) && PartText(p, vars) != ""
  {
    PairsAre(p.names, vars);
    PairsJoin(p.op, p.names, vars);
  }

  lemma {:induction false} PathExpands(p: Part, vars: Variables)
    requires p.Expression? && PathFits(p, vars)
    ensures ExpandPart(p, vars) == Ok(PartText(p, vars)) && PartText(p, vars) != ""
  {
    var vs := ItemsOf(vars[p.name]);
    EncodesAll(vs);
    if p.op == "/" || p.op == "." {
      assert Join(Escapes(vs), p.op) == TextOf(vars[p.name]);
    } else {
      assert "" + TextOf(vars[p.name]) == TextOf(vars[p.name]);
    }
  }

  /** Query text after its first character has no `?`. */
  lemma {:induction false} QueryTextHasNoMark(lead: string, names: seq<string>, vars: Variables)
    requires AllUsable(names, vars) && NoMark(names)
    ensures '?' !in lead ==> '?' !in QueryText(lead, names, vars)
    ensures names != [] ==> lead <= QueryText(lead, names, vars) && '?' !in QueryText(lead, names, vars)[|lead|..]
    decreases |names|
  {
    if names != [] {
      FirstUsable(names, vars);
      QueryTextHasNoMark("&", names[1..], vars);
      TextIsSafe(vars[names[0]]);
      var more := names[0] + ("=" + TextOf(vars[names[0]]));
      assert '?' !in more;
      Assoc(lead, more, QueryText("&", names[1..], vars));
      AppendDrop(lead, more + QueryText("&", names[1..], vars));
    }
  }

  lemma {:induction false} FitsParts(p: Part, later: seq<Part>, vars: Variables)
    requires Fits(p, vars) && AllFit(later, vars)
    ensures AllFit([p] + later, vars) && TextFrom([p] + later, vars) == PartText(p, vars) + TextFrom(later, vars)
  {
    assert ([p] + later)[1..] == later;
  }

  lemma {:induction false} TailExpands(query: seq<Part>, vars: Variables, hasQuery: bool)
    requires TailFits(query, vars)
    ensures AllFit(query, vars) && ExpandFrom(query, vars, hasQuery) == Ok(TextFrom(query, vars))
    ensures '?' !in TextFrom(query, vars)
    decreases |query|
  {
    if query != [] {
      var p := query[0];
      assert p in query;
      TailExpands(query[1..], vars, true);
      QueryExpands(p, vars);
      QueryTextHasNoMark("&", p.names, vars);
      ReplaceFirstAbsent(PartText(p, vars), "?", "&", '?');
    }
  }

  lemma {:induction false} LeadsQuery(p: Part, vars: Variables, more: string)
    requires QueryFits(p, vars) && p.op == "?" && '?' !in more
    ensures "?" <= PartText(p, vars) + more && '?' !in (PartText(p, vars) + more)[1..]
  {
    QueryTextHasNoMark("?", p.names, vars);
    assert (PartText(p, vars) + more)[1..] == PartText(p, vars)[1..] + more;
  }

  lemma {:induction false} AllQueryExpand(query: seq<Part>, vars: Variables)
    requires AllQueryFit(query, vars)
    ensures AllFit(query, vars) && ExpandFrom(query, vars, false) == Ok(TextFrom(query, vars))
    ensures query != [] ==> "?" <= TextFrom(query, vars) && '?' !in TextFrom(query, vars)[1..]
  {
    if query != [] {
      var p := query[0];
      TailExpands(query[1..], vars, true);
      QueryExpands(p, vars);
      LeadsQuery(p, vars, TextFrom(query[1..], vars));
      HeadTail(query);
      FitsParts(p, query[1..], vars);
    }
  }

  lemma {:induction false} PathTail(path: seq<Part>, query: seq<Part>, vars: Variables)
    requires path != [] && AllPathFit(path, vars) && Separated(path, query)
    ensures AllPathFit(path[1..], vars) && Separated(path[1..], query) && PathFits(path[0], vars)
    ensures path + query == [path[0]] + (path[1..] + query)
    ensures (path + query)[1..] == path[1..] + query
    ensures |path| > 1 && path[0].Expression? ==> StartsSlash(path[1]) && path[0].op != "+"
    ensures |path| == 1 && path[0].Expression? && path[0].op == "+" ==> path[1..] + query == []
  {
    var later := path[1..];
    assert forall p :: p in later ==> p in path;
    forall i | 0 <= i < |later| - 1 && later[i].Expression? ensures later[i].op != "+" && StartsSlash(later[i + 1]) {
      assert path[i + 1] == later[i];
    }
  }

  lemma {:induction false} Expands(path: seq<Part>, query: seq<Part>, vars: Variables)
    requires AllPathFit(path, vars) && Separated(path, query) && AllQueryFit(query, vars)
    ensures AllFit(path + query, vars)
    ensures Expand(path + query, vars) == Ok(TextFrom(path + query, vars))
    decreases |path|
  {
    if path == [] {
      AllQueryExpand(query, vars);
      assert path + query == query;
    } else {
      PathTail(path, query, vars);
      Expands(path[1..], query, vars);
      FitsParts(path[0], path[1..] + query, vars);
      if path[0].Expression? {
        PathExpands(path[0], vars);
      }
    }
  }

  // ---- Matching ----

  lemma {:induction false} PlainConcat(ps: seq<Piece>, qs: seq<Piece>)
    ensures PlainAll(ps + qs) == PlainAll(ps) + PlainAll(qs)
    decreases |ps|
  {
    if ps == [] {
      assert ps + qs == qs;
    } else {
      assert (ps + qs)[1..] == ps[1..] + qs;
      PlainConcat(ps[1..], qs);
    }
  }

  lemma {:induction false} CharsThen(text: string, ps: seq<Piece>, rest: string, f: Found)
    requires Match(ps, rest, true) == Some(f)
    ensures Match(Chars(text) + ps, text + rest, true) == Some(Found(f.captures, |text| + f.length))
    decreases |text|
  {
    if text == "" {
      assert Chars(text) + ps == ps && text + rest == rest;
    } else {
      CharsThen(text[1..], ps, rest, f);
      CharThen(text[0], Chars(text[1..]) + ps, text[1..] + rest, true, Found(f.captures, |text| - 1 + f.length));
      assert Chars(text) + ps == [Chr(text[0])] + (Chars(text[1..]) + ps);
      assert text + rest == [text[0]] + (text[1..] + rest);
    }
  }

  /** A run that overruns into the rest backs up to where the only `?` is. */
  lemma {:induction false} RunBacksUp(p: Piece, ps: seq<Piece>, w: string, rest: string, f: Found)
    requires p.Run? && !p.single && p.cls.Holds(w) && p.min <= |w|
    requires ps != [] && ps[0] == Chr('?') && rest != "" && '?' !in rest[1..]
    requires Match(ps, rest, true) == Some(f)
    ensures Match([p] + ps, w + rest, true) == Some(Found([w] + f.captures, |w| + f.length))
  {
    assert ([p] + ps)[1..] == ps;
    AppendDrop(w, rest);
    RunLengthLongest(p.cls, w + rest, |w|);
    BacksUp(p, ps, w, rest, f, Reach(p, w + rest));
  }

  lemma {:induction false} BacksUp(p: Piece, ps: seq<Piece>, w: string, rest: string, f: Found, k: nat)
    requires p.Run? && p.min <= |w| && ps != [] && ps[0] == Chr('?') && rest != "" && '?' !in rest[1..]
    requires Match(ps, rest, true) == Some(f) && |w| <= k <= |w + rest|
    ensures ([p] + ps)[1..] == ps
    ensures TryRun([p] + ps, w + rest, true, k) == Some(Found([w] + f.captures, |w| + f.length))
    decreases k
  {
    assert ([p] + ps)[1..] == ps;
    if k == |w| {
      AppendDrop(w, rest);
    } else {
      var left := (w + rest)[k..];
      assert left == rest[k - |w|..];
      assert left != "" ==> left[0] in rest[1..] by {
        if left != "" {
          assert left[0] == rest[1..][k - |w| - 1];
        }
      }
      CharFails(ps, left, true);
      BacksUp(p, ps, w, rest, f, k - 1);
    }
  }

  lemma {:induction false} EqualsThen(w: string, ps: seq<Piece>, rest: string, f: Found)
    requires w != "" && '&' !in w && (rest == "" || rest[0] == '&')
    requires Match(ps, rest, true) == Some(f)
    ensures Match([Chr('=')] + [PARAM] + ps, "=" + w + rest, true) == Some(Found([w] + f.captures, 1 + |w| + f.length))
  {
    RunThen(PARAM, ps, w, rest, true, f);
    CharThen('=', [PARAM] + ps, w + rest, true, Found([w] + f.captures, |w| + f.length));
    Assoc([Chr('=')], [PARAM], ps);
    Assoc("=", w, rest);
  }

  lemma {:induction false} NamedThen(name: string, w: string, ps: seq<Piece>, rest: string, f: Found)
    requires w != "" && '&' !in w && (rest == "" || rest[0] == '&')
    requires Match(ps, rest, true) == Some(f)
    ensures Match(Chars(name) + ([Chr('=')] + [PARAM]) + ps, name + ("=" + w) + rest, true)
         == Some(Found([w] + f.captures, |name| + 1 + |w| + f.length))
  {
    EqualsThen(w, ps, rest, f);
    CharsThen(name, [Chr('=')] + [PARAM] + ps, "=" + w + rest, Found([w] + f.captures, 1 + |w| + f.length));
    Assoc(Chars(name), [Chr('=')] + [PARAM], ps);
    Assoc(name, "=" + w, rest);
  }

  lemma {:induction false} ParamThen(lead: char, name: string, w: string, ps: seq<Piece>, rest: string, f: Found)
    requires w != "" && '&' !in w && (rest == "" || rest[0] == '&')
    requires Match(ps, rest, true) == Some(f)
    ensures Match([Chr(lead)] + (Chars(name) + ([Chr('=')] + [PARAM])) + ps, [lead] + (name + ("=" + w)) + rest, true)
         == Some(Found([w] + f.captures, |[lead] + (name + ("=" + w))| + f.length))
  {
    NamedThen(name, w, ps, rest, f);
    CharThen(lead, Chars(name) + ([Chr('=')] + [PARAM]) + ps, name + ("=" + w) + rest, true,
             Found([w] + f.captures, |name| + 1 + |w| + f.length));
    Assoc([Chr(lead)], Chars(name) + ([Chr('=')] + [PARAM]), ps);
    Assoc([lead], name + ("=" + w), rest);
  }

  function QueryTexts(names: seq<string>, vars: Variables): seq<string>
    requires NamesIn(names, vars)
  {
    if names == [] then [] else [TextOf(vars[names[0]])] + QueryTexts(names[1..], vars)
  }

  lemma {:induction false} QueryTextsAre(names: seq<string>, exploded: bool, vars: Variables)
    requires NamesIn(names, vars)
    ensures GroupsBound(GroupsOfNames(names, exploded), vars)
    ensures TextsOf(GroupsOfNames(names, exploded), vars) == QueryTexts(names, vars)
    decreases |names|
  {
    if names != [] {
      QueryTextsAre(names[1..], exploded, vars);
      assert GroupsOfNames(names, exploded)[1..] == GroupsOfNames(names[1..], exploded);
    }
  }

  lemma {:induction false} TextsConcat(a: seq<Group>, b: seq<Group>, vars: Variables)
    requires GroupsBound(a, vars) && GroupsBound(b, vars)
    ensures GroupsBound(a + b, vars) && TextsOf(a + b, vars) == TextsOf(a, vars) + TextsOf(b, vars)
    decreases |a|
  {
    if a == [] {
      assert a + b == b;
    } else {
      assert (a + b)[1..] == a[1..] + b;
      assert a[0] in a;
      TextsConcat(a[1..], b, vars);
    }
  }

  predicate EndsParam(rest: string) {
    rest == "" || rest[0] == '&'
  }

  /** What may follow a path expression: the end, a slash, or the query with its only question mark. */
  predicate Follows(ps: seq<Piece>, rest: string) {
    rest == "" || rest[0] == '/' || (ps != [] && ps[0] == Chr('?') && '?' !in rest[1..])
  }

  ghost predicate Adds(inQuery: bool, one: seq<Piece>, text: string, captures: seq<string>,
                       ps: seq<Piece>, rest: string, later: seq<string>) {
    (if inQuery then EndsParam(rest) else Follows(ps, rest)) ==>
    Whole(ps, rest, later) ==>
      Whole(one + ps, text + rest, captures + later)
  }

  /** Pieces that consume exactly the given text, with these captures, whatever may follow there. */
  ghost predicate Eats(inQuery: bool, one: seq<Piece>, text: string, captures: seq<string>) {
    forall ps, rest, later :: Adds(inQuery, one, text, captures, ps, rest, later)
  }

  lemma {:induction false} EatsNothing()
    ensures Eats(true, [], "", [])
  {
    forall ps: seq<Piece>, rest: string, later: seq<string> ensures Adds(true, [], "", [], ps, rest, later) {
      assert [] + ps == ps && "" + rest == rest && [] + later == later;
    }
  }

  lemma {:induction false} EatsBoth(one: seq<Piece>, s: string, c: seq<string>, two: seq<Piece>, t: string, d: seq<string>)
    requires Eats(true, one, s, c) && Eats(true, two, t, d) && (t == "" || t[0] == '&')
    ensures Eats(true, one + two, s + t, c + d)
  {
    forall ps: seq<Piece>, rest: string, later: seq<string> ensures Adds(true, one + two, s + t, c + d, ps, rest, later) {
      assert Adds(true, two, t, d, ps, rest, later);
      assert Adds(true, one, s, c, two + ps, t + rest, d + later);
      assert EndsParam(rest) ==> EndsParam(t + rest);
      Assoc(one, two, ps);
      Assoc(s, t, rest);
      Assoc(c, d, later);
    }
  }

  function ParamPieces(lead: char, name: string): seq<Piece> {
    [Chr(lead)] + (Chars(name) + ([Chr('=')] + [PARAM]))
  }

  lemma {:induction false} EatsParam(lead: string, name: string, w: string)
    requires |lead| == 1 && w != "" && '&' !in w
    ensures Eats(true, ParamPieces(lead[0], name), lead + (name + ("=" + w)), [w])
  {
    var one, text := ParamPieces(lead[0], name), lead + (name + ("=" + w));
    assert lead == [lead[0]];
    forall ps: seq<Piece>, rest: string, later: seq<string> ensures Adds(true, one, text, [w], ps, rest, later) {
      if EndsParam(rest) && Whole(ps, rest, later) {
        ParamThen(lead[0], name, w, ps, rest, Found(later, |rest|));
      }
    }
  }

  lemma {:induction false} QueryUnfolds(lead: string, names: seq<string>, vars: Variables)
    requires |lead| == 1 && names != [] && NamesIn(names, vars) && NamesIn(names[1..], vars)
    ensures QueryPieces(lead[0], names) == ParamPieces(lead[0], names[0]) + QueryPieces('&', names[1..])
    ensures QueryText(lead, names, vars) == lead + (names[0] + ("=" + TextOf(vars[names[0]]))) + QueryText("&", names[1..], vars)
    ensures QueryTexts(names, vars) == [TextOf(vars[names[0]])] + QueryTexts(names[1..], vars)
    ensures QueryText("&", names[1..], vars) == "" || QueryText("&", names[1..], vars)[0] == '&'
  {
  }

  lemma {:induction false} EatsQuery(lead: string, names: seq<string>, vars: Variables)
    requires |lead| == 1 && AllUsable(names, vars)
    ensures Eats(true, QueryPieces(lead[0], names), QueryText(lead, names, vars), QueryTexts(names, vars))
    decreases |names|
  {
    if names == [] {
      EatsNothing();
    } else {
      FirstUsable(names, vars);
      TextIsSafe(vars[names[0]]);
      EatsQuery("&", names[1..], vars);
      QueryUnfolds(lead, names, vars);
      EatsNext(lead, names[0], TextOf(vars[names[0]]),
               QueryPieces('&', names[1..]), QueryText("&", names[1..], vars), QueryTexts(names[1..], vars));
    }
  }

  lemma {:induction false} EatsNext(lead: string, name: string, w: string, ps: seq<Piece>, text: string, captures: seq<string>)
    requires |lead| == 1 && w != "" && '&' !in w && (text == "" || text[0] == '&') && Eats(true, ps, text, captures)
    ensures Eats(true, ParamPieces(lead[0], name) + ps, lead + (name + ("=" + w)) + text, [w] + captures)
  {
    EatsParam(lead, name, w);
    EatsBoth(ParamPieces(lead[0], name), lead + (name + ("=" + w)), [w], ps, text, captures);
  }

  /** All of a query, in pieces that match it to the end. */
  lemma {:induction false} EatsTail(query: seq<Part>, vars: Variables)
    requires TailFits(query, vars)
    ensures AllFit(query, vars) && GroupsBound(GroupsFrom(query), vars)
    ensures Eats(true, PiecesFrom(query), TextFrom(query, vars), TextsOf(GroupsFrom(query), vars))
    ensures TextFrom(query, vars) == "" || TextFrom(query, vars)[0] == '&'
    decreases |query|
  {
    if query == [] {
      EatsNothing();
    } else {
      var p, later := query[0], query[1..];
      assert p in query;
      EatsTail(later, vars);
      EatsPart(p, vars, later);
      HeadTail(query);
      FitsParts(p, later, vars);
      QueryTextHasNoMark("&", p.names, vars);
    }
  }

  lemma {:induction false} EatsPart(p: Part, vars: Variables, later: seq<Part>)
    requires QueryFits(p, vars) && AllFit(later, vars) && GroupsBound(GroupsFrom(later), vars)
    requires Eats(true, PiecesFrom(later), TextFrom(later, vars), TextsOf(GroupsFrom(later), vars))
    requires TextFrom(later, vars) == "" || TextFrom(later, vars)[0] == '&'
    ensures GroupsBound(GroupsOfNames(p.names, p.exploded) + GroupsFrom(later), vars)
    ensures Eats(true, QueryPieces(p.op[0], p.names) + PiecesFrom(later), QueryText(p.op, p.names, vars) + TextFrom(later, vars),
                 TextsOf(GroupsOfNames(p.names, p.exploded) + GroupsFrom(later), vars))
  {
    EatsQuery(p.op, p.names, vars);
    QueryTextsAre(p.names, p.exploded, vars);
    TextsConcat(GroupsOfNames(p.names, p.exploded), GroupsFrom(later), vars);
    EatsBoth(QueryPieces(p.op[0], p.names), QueryText(p.op, p.names, vars), QueryTexts(p.names, vars),
             PiecesFrom(later), TextFrom(later, vars), TextsOf(GroupsFrom(later), vars));
  }

  lemma {:induction false} EatsAll(query: seq<Part>, vars: Variables)
    requires AllQueryFit(query, vars)
    ensures AllFit(query, vars) && GroupsBound(GroupsFrom(query), vars)
    ensures Eats(true, PiecesFrom(query), TextFrom(query, vars), TextsOf(GroupsFrom(query), vars))
  {
    if query == [] {
      EatsNothing();
    } else {
      EatsTail(query[1..], vars);
      EatsPart(query[0], vars, query[1..]);
      HeadTail(query);
      FitsParts(query[0], query[1..], vars);
    }
  }

  lemma {:induction false} MatchesQuery(query: seq<Part>, vars: Variables)
    requires AllQueryFit(query, vars)
    ensures AllFit(query, vars) && GroupsBound(GroupsFrom(query), vars)
    ensures Whole(PiecesFrom(query), TextFrom(query, vars), TextsOf(GroupsFrom(query), vars))
  {
    EatsAll(query, vars);
    EatsToEnd(PiecesFrom(query), TextFrom(query, vars), TextsOf(GroupsFrom(query), vars));
  }

  lemma {:induction false} EatsToEnd(ps: seq<Piece>, s: string, captures: seq<string>)
    requires Eats(true, ps, s, captures)
    ensures Whole(ps, s, captures)
  {
    assert Whole([], "", []);
    assert Adds(true, ps, s, captures, [], "", []);
    assert ps + [] == ps && s + "" == s && captures + [] == captures;
  }

  // ---- Lists as plain runs ----

  lemma {:induction false} PlainOfSimple(ps: seq<Piece>)
    requires Simple(ps)
    ensures PlainAll(ps) == ps
    decreases |ps|
  {
    if ps != [] {
      assert ps[0] in ps;
      assert forall p :: p in ps[1..] ==> p in ps;
      PlainOfSimple(ps[1..]);
    }
  }

  lemma {:induction false} QueryPiecesSimple(lead: char, names: seq<string>)
    ensures Simple(QueryPieces(lead, names))
    decreases |names|
  {
    if names != [] {
      QueryPiecesSimple('&', names[1..]);
    }
  }

  lemma {:induction false} QueryIsSimple(query: seq<Part>, vars: Variables)
    requires forall p :: p in query ==> QueryFits(p, vars)
    ensures Simple(PiecesFrom(query))
    decreases |query|
  {
    if query != [] {
      assert query[0] in query;
      assert forall p :: p in query[1..] ==> p in query;
      QueryPiecesSimple(query[0].op[0], query[0].names);
      QueryIsSimple(query[1..], vars);
    }
  }

  lemma {:induction false} PiecesAreSensible(parts: seq<Part>)
    ensures forall x :: x in PiecesFrom(parts) ==> Sensible(x)
    decreases |parts|
  {
    if parts != [] {
      if parts[0].Expression? && IsQuery(parts[0].op) {
        QueryPiecesSimple(parts[0].op[0], parts[0].names);
      }
      PiecesAreSensible(parts[1..]);
    }
  }

  // ---- The path ----

  function PlainItem(exploded: bool): Piece {
    Run(NotIn(SetOf(if exploded then "/" else "/,")), 1, false)
  }

  lemma {:induction false} ItemHolds(exploded: bool, v: Value)
    requires |ItemsOf(v)| == 1 || exploded
    ensures PlainItem(exploded).cls.Holds(TextOf(v)) && !PlainItem(exploded).cls.Has('/')
  {
    TextIsSafe(v);
  }

  lemma {:induction false} ItemThen(exploded: bool, v: Value, ps: seq<Piece>, rest: string, f: Found)
    requires TextOf(v) != "" && (|ItemsOf(v)| == 1 || exploded) && Follows(ps, rest)
    requires Match(ps, rest, true) == Some(f)
    ensures Match([PlainItem(exploded)] + ps, TextOf(v) + rest, true)
         == Some(Found([TextOf(v)] + f.captures, |TextOf(v)| + f.length))
  {
    ItemHolds(exploded, v);
    var item := PlainItem(exploded);
    if rest == "" || rest[0] == '/' {
      RunThen(item, ps, TextOf(v), rest, true, f);
    } else {
      RunBacksUp(item, ps, TextOf(v), rest, f);
    }
  }

  /** The pieces of a path part, lists as plain runs. */
  function PlainPart(p: Part): seq<Piece> {
    if p.Literal? then Chars(p.text)
    else if p.op == "/" then [Chr('/')] + [PlainItem(p.exploded)]
    else if p.op == "." then [Chr('.')] + [PlainItem(false)]
    else if p.op == "+" then [ANY]
    else [PlainItem(p.exploded)]
  }

  lemma {:induction false} PlainPartIs(p: Part, vars: Variables, ps: seq<Piece>)
    requires PathFits(p, vars)
    ensures PlainAll(PartPieces(p) + ps) == PlainPart(p) + PlainAll(ps)
  {
    PlainConcat(PartPieces(p), ps);
    if p.Literal? {
      PlainOfSimple(Chars(p.text));
    } else {
      PlainItemIs('/', p.exploded);
      PlainItemIs('.', false);
      PlainOfSimple([ANY]);
    }
  }

  lemma {:induction false} PlainItemIs(lead: char, exploded: bool)
    ensures PlainAll(if exploded then [LIST] else [WORD]) == [PlainItem(exploded)]
    ensures PlainAll([Chr(lead)] + (if exploded then [LIST] else [WORD])) == [Chr(lead)] + [PlainItem(exploded)]
  {
    var item := if exploded then LIST else WORD;
    assert PlainAll([item]) == [Plain(item)] + PlainAll([item][1..]);
    assert PlainAll([]) == [];
    var both := [Chr(lead)] + [item];
    assert both[1..] == [item];
    assert PlainAll(both) == [Plain(both[0])] + PlainAll(both[1..]);
  }

  lemma {:induction false} LedItemThen(lead: char, exploded: bool, v: Value, ps: seq<Piece>, rest: string, f: Found)
    requires TextOf(v) != "" && (|ItemsOf(v)| == 1 || exploded) && Follows(ps, rest)
    requires Match(ps, rest, true) == Some(f)
    ensures Match([Chr(lead)] + [PlainItem(exploded)] + ps, [lead] + TextOf(v) + rest, true)
         == Some(Found([TextOf(v)] + f.captures, |[lead] + TextOf(v)| + f.length))
  {
    ItemThen(exploded, v, ps, rest, f);
    CharThen(lead, [PlainItem(exploded)] + ps, TextOf(v) + rest, true, Found([TextOf(v)] + f.captures, |TextOf(v)| + f.length));
    Assoc([Chr(lead)], [PlainItem(exploded)], ps);
    Assoc([lead], TextOf(v), rest);
  }

  lemma {:induction false} TakesItem(exploded: bool, v: Value)
    requires TextOf(v) != "" && (|ItemsOf(v)| == 1 || exploded)
    ensures Eats(false, [PlainItem(exploded)], TextOf(v), [TextOf(v)])
  {
    forall ps: seq<Piece>, rest: string, later: seq<string>
      ensures Adds(false, [PlainItem(exploded)], TextOf(v), [TextOf(v)], ps, rest, later)
    {
      if Follows(ps, rest) && Whole(ps, rest, later) {
        ItemThen(exploded, v, ps, rest, Found(later, |rest|));
      }
    }
  }

  lemma {:induction false} TakesLedItem(lead: char, exploded: bool, v: Value)
    requires TextOf(v) != "" && (|ItemsOf(v)| == 1 || exploded)
    ensures Eats(false, [Chr(lead)] + [PlainItem(exploded)], [lead] + TextOf(v), [TextOf(v)])
  {
    forall ps: seq<Piece>, rest: string, later: seq<string>
      ensures Adds(false, [Chr(lead)] + [PlainItem(exploded)], [lead] + TextOf(v), [TextOf(v)], ps, rest, later)
    {
      if Follows(ps, rest) && Whole(ps, rest, later) {
        LedItemThen(lead, exploded, v, ps, rest, Found(later, |rest|));
      }
    }
  }

  lemma {:induction false} TakesExpression(p: Part, vars: Variables)
    requires p.Expression? && PathFits(p, vars) && p.op != "+"
    ensures GroupsBound(PartGroups(p), vars)
    ensures Eats(false, PlainPart(p), PartText(p, vars), TextsOf(PartGroups(p), vars))
  {
    var v := vars[p.name];
    if p.op == "/" {
      TakesLedItem('/', p.exploded, v);
      assert ['/'] == "/";
    } else if p.op == "." {
      TakesLedItem('.', false, v);
      assert ['.'] == ".";
    } else {
      TakesItem(p.exploded, v);
      assert "" + TextOf(v) == TextOf(v);
    }
    OneText(Group(p.name, p.exploded), vars);
  }

  /** `{+name}` at the end takes all that is left. */
  lemma {:induction false} PlusLast(p: Part, vars: Variables)
    requires p.Expression? && PathFits(p, vars) && p.op == "+"
    ensures AllFit([p], vars) && GroupsBound(GroupsFrom([p]), vars) && TextMatches([p], vars)
  {
    var v := vars[p.name];
    FitsParts(p, [], vars);
    Firsts(p, [], vars);
    assert [p] + [] == [p];
    OneText(Group(p.name, p.exploded), vars);
    assert [Group(p.name, p.exploded)] + [] == [Group(p.name, p.exploded)];
    AnyTakesAll(v);
    assert [ANY] + [] == [ANY];
    assert "" + TextOf(v) + "" == TextOf(v);
  }

  lemma {:induction false} AnyTakesAll(v: Value)
    requires TextOf(v) != ""
    ensures Whole([ANY], TextOf(v), [TextOf(v)])
  {
    TextIsSafe(v);
    assert ANY.cls.Holds(TextOf(v));
    RunThen(ANY, [], TextOf(v), "", true, Found([], 0));
    assert [ANY] + [] == [ANY] && TextOf(v) + "" == TextOf(v) && [TextOf(v)] + [] == [TextOf(v)];
  }

  lemma {:induction false} OneText(g: Group, vars: Variables)
    requires g.name in vars
    ensures GroupsBound([g], vars) && TextsOf([g], vars) == [TextOf(vars[g.name])]
  {
    assert [g][1..] == [];
    assert TextsOf([], vars) == [];
  }

  lemma {:induction false} SlashFollows(path: seq<Part>, query: seq<Part>, vars: Variables)
    requires path != [] && StartsSlash(path[0]) && PathFits(path[0], vars) && AllFit(path + query, vars)
    ensures "/" <= TextFrom(path + query, vars)
  {
    assert (path + query)[0] == path[0];
  }

  lemma {:induction false} QueryFollows(query: seq<Part>, vars: Variables)
    requires AllQueryFit(query, vars)
    ensures AllFit(query, vars) && Follows(PlainAll(PiecesFrom(query)), TextFrom(query, vars))
  {
    AllQueryExpand(query, vars);
    if query != [] {
      assert PiecesFrom(query)[0] == Chr('?');
    }
  }

  /** What follows the first expression of a path. */
  lemma {:induction false} RestFollows(path: seq<Part>, query: seq<Part>, vars: Variables)
    requires path != [] && AllPathFit(path, vars) && Separated(path, query) && AllQueryFit(query, vars) && path[0].Expression?
    requires AllFit(path[1..] + query, vars)
    ensures Follows(PlainAll(PiecesFrom(path[1..] + query)), TextFrom(path[1..] + query, vars))
  {
    PathTail(path, query, vars);
    if |path| > 1 {
      assert path[1] in path;
      SlashFollows(path[1..], query, vars);
    } else {
      assert path[1..] + query == query;
      QueryFollows(query, vars);
    }
  }

  /** The pieces of some parts match their text to its end. */
  ghost predicate TextMatches(parts: seq<Part>, vars: Variables)
    requires AllFit(parts, vars) && GroupsBound(GroupsFrom(parts), vars)
  {
    Whole(PlainAll(PiecesFrom(parts)), TextFrom(parts, vars), TextsOf(GroupsFrom(parts), vars))
  }

  lemma {:induction false} QueryMatchesPlain(query: seq<Part>, vars: Variables)
    requires AllQueryFit(query, vars)
    ensures AllFit(query, vars) && GroupsBound(GroupsFrom(query), vars) && TextMatches(query, vars)
  {
    MatchesQuery(query, vars);
    assert forall p :: p in query ==> QueryFits(p, vars) by {
      assert query != [] ==> forall p :: p in query <==> p == query[0] || p in query[1..];
    }
    QueryIsSimple(query, vars);
    PlainOfSimple(PiecesFrom(query));
  }

  lemma {:induction false} WholeChars(text: string, ps: seq<Piece>, rest: string, captures: seq<string>)
    requires Whole(ps, rest, captures)
    ensures Whole(Chars(text) + ps, text + rest, captures)
  {
    CharsThen(text, ps, rest, Found(captures, |rest|));
  }

  lemma {:induction false} LiteralFirst(p: Part, later: seq<Part>, vars: Variables)
    requires p.Literal? && AllFit(later, vars) && GroupsBound(GroupsFrom(later), vars) && TextMatches(later, vars)
    ensures AllFit([p] + later, vars) && GroupsBound(GroupsFrom([p] + later), vars) && TextMatches([p] + later, vars)
  {
    FitsParts(p, later, vars);
    Firsts(p, later, vars);
    assert [] + GroupsFrom(later) == GroupsFrom(later);
    WholeChars(p.text, PlainAll(PiecesFrom(later)), TextFrom(later, vars), TextsOf(GroupsFrom(later), vars));
  }

  lemma {:induction false} ExpressionFirst(p: Part, later: seq<Part>, vars: Variables)
    requires p.Expression? && PathFits(p, vars) && p.op != "+"
    requires AllFit(later, vars) && GroupsBound(GroupsFrom(later), vars) && TextMatches(later, vars)
    requires Follows(PlainAll(PiecesFrom(later)), TextFrom(later, vars))
    ensures AllFit([p] + later, vars) && GroupsBound(GroupsFrom([p] + later), vars) && TextMatches([p] + later, vars)
  {
    FitsParts(p, later, vars);
    Firsts(p, later, vars);
    TakesExpression(p, vars);
    TextsConcat(PartGroups(p), GroupsFrom(later), vars);
    assert Adds(false, PlainPart(p), PartText(p, vars), TextsOf(PartGroups(p), vars),
                PlainAll(PiecesFrom(later)), TextFrom(later, vars), TextsOf(GroupsFrom(later), vars));
  }

  lemma {:induction false} Firsts(p: Part, later: seq<Part>, vars: Variables)
    requires PathFits(p, vars)
    ensures PlainAll(PiecesFrom([p] + later)) == PlainPart(p) + PlainAll(PiecesFrom(later))
    ensures GroupsFrom([p] + later) == PartGroups(p) + GroupsFrom(later)
  {
    assert ([p] + later)[1..] == later;
    PlainPartIs(p, vars, PiecesFrom(later));
  }

  lemma {:induction false} PartsMatch(path: seq<Part>, query: seq<Part>, vars: Variables)
    requires AllPathFit(path, vars) && Separated(path, query) && AllQueryFit(query, vars)
    ensures AllFit(path + query, vars) && GroupsBound(GroupsFrom(path + query), vars)
    ensures TextMatches(path + query, vars)
    decreases |path|
  {
    if path == [] {
      QueryMatchesPlain(query, vars);
      assert path + query == query;
    } else {
      PathTail(path, query, vars);
      PartsMatch(path[1..], query, vars);
      if path[0].Expression? && path[0].op == "+" {
        assert path + query == [path[0]];
        PlusLast(path[0], vars);
      } else if path[0].Expression? {
        RestFollows(path, query, vars);
        ExpressionFirst(path[0], path[1..] + query, vars);
      } else {
        LiteralFirst(path[0], path[1..] + query, vars);
      }
    }
  }

  // ---- The round trip ----

  function GroupNames(groups: seq<Group>): set<string> {
    set g | g in groups :: g.name
  }

  /** No variable occurs both with and without a star. */
  predicate Consistent(groups: seq<Group>) {
    forall g, h :: g in groups && h in groups && g.name == h.name ==> g == h
  }

  predicate CleanGroups(groups: seq<Group>, vars: Variables) {
    forall g :: g in groups ==> Usable(g.name, vars)
  }

  lemma {:induction false} CollectsTexts(groups: seq<Group>, vars: Variables, acc: Variables)
    requires GroupsBound(groups, vars) && CleanGroups(groups, vars) && Consistent(groups)
    ensures var m := Collect(groups, TextsOf(groups, vars), acc);
            m.Keys == acc.Keys + GroupNames(groups)
            && (forall g :: g in groups ==> m[g.name] == Back(vars[g.name], g.exploded))
            && (forall n :: n in acc && n !in GroupNames(groups) ==> m[n] == acc[n])
    decreases |groups|
  {
    if groups != [] {
      var g, later := groups[0], groups[1..];
      assert forall x :: x in groups <==> x == g || x in later;
      CapturedIsBack(vars[g.name], g.exploded);
      assert TextsOf(groups, vars)[1..] == TextsOf(later, vars);
      var acc' := acc[g.name := Back(vars[g.name], g.exploded)];
      CollectsTexts(later, vars, acc');
      assert GroupNames(groups) == {g.name} + GroupNames(later);
    }
  }

  lemma {:induction false} NamesUsable(names: seq<string>, exploded: bool, vars: Variables)
    requires AllUsable(names, vars)
    ensures CleanGroups(GroupsOfNames(names, exploded), vars)
    decreases |names|
  {
    if names != [] {
      FirstUsable(names, vars);
      NamesUsable(names[1..], exploded, vars);
    }
  }

  lemma {:induction false} GroupsUsable(parts: seq<Part>, vars: Variables)
    requires AllFit(parts, vars)
    ensures CleanGroups(GroupsFrom(parts), vars)
    decreases |parts|
  {
    if parts != [] {
      assert Fits(parts[0], vars);
      assert forall p :: p in parts[1..] ==> p in parts;
      GroupsUsable(parts[1..], vars);
      if parts[0].Expression? && IsQuery(parts[0].op) {
        NamesUsable(parts[0].names, parts[0].exploded, vars);
      }
    }
  }

  lemma {:induction false} MatchesExpansion(path: seq<Part>, query: seq<Part>, vars: Variables)
    requires AllPathFit(path, vars) && Separated(path, query) && AllQueryFit(query, vars)
    ensures var parts := path + query;
            AllFit(parts, vars) && GroupsBound(GroupsFrom(parts), vars)
            && Match(PiecesFrom(parts), TextFrom(parts, vars), true)
               == Some(Found(TextsOf(GroupsFrom(parts), vars), |TextFrom(parts, vars)|))
  {
    PartsMatch(path, query, vars);
    var anchored := true;
    assert Match(PlainAll(PiecesFrom(path + query)), TextFrom(path + query, vars), anchored).Some?;
    PiecesAreSensible(path + query);
    PlainMatch(PiecesFrom(path + query), TextFrom(path + query, vars), true);
  }

  /** Matching an expanded template gives back exactly the escaped text of every scalar, and the escaped
      strings, in order and empty ones included, of every list that a star lets through; only the two
      length limits can prevent it. */
  lemma {:induction false} RoundTrip(path: seq<Part>, query: seq<Part>, vars: Variables)
    requires AllPathFit(path, vars) && Separated(path, query) && AllQueryFit(query, vars)
    requires Consistent(GroupsFrom(path + query))
    ensures Expand(path + query, vars).Ok?
    ensures var parts, uri := path + query, Expand(path + query, vars).value;
            var r := MatchUri(parts, uri);
            if ByteLen(uri) > MAX_TEMPLATE_LENGTH then r == Failed(UriTooLong)
            else if ByteLen(FullPattern(parts)) > MAX_REGEX_LENGTH then r == Failed(PatternTooLong)
            else
              r.Matched? && r.vars.Keys == GroupNames(GroupsFrom(parts))
              && forall g :: g in GroupsFrom(parts) ==> g.name in vars && r.vars[g.name] == Back(vars[g.name], g.exploded)
  {
    var parts := path + query;
    Expands(path, query, vars);
    MatchesExpansion(path, query, vars);
    MatchesPieces(parts, TextFrom(parts, vars));
    CollectsParts(parts, vars);
  }

  lemma {:induction false} CollectsParts(parts: seq<Part>, vars: Variables)
    requires AllFit(parts, vars) && GroupsBound(GroupsFrom(parts), vars) && Consistent(GroupsFrom(parts))
    ensures var groups := GroupsFrom(parts);
            var m := Collect(groups, TextsOf(groups, vars), map[]);
            m.Keys == GroupNames(groups) && forall g :: g in groups ==> m[g.name] == Back(vars[g.name], g.exploded)
  {
    GroupsUsable(parts, vars);
    CollectsTexts(GroupsFrom(parts), vars, map[]);
  }

  lemma {:induction false} GroupOfName(names: seq<string>, exploded: bool, n: string)
    requires n in names
    ensures Group(n, exploded) in GroupsOfNames(names, exploded)
    decreases |names|
  {
    if n != names[0] {
      GroupOfName(names[1..], exploded, n);
    }
  }

  lemma {:induction false} GroupOfPart(parts: seq<Part>, vars: Variables, p: Part, n: string)
    requires AllFit(parts, vars) && p in parts && p.Expression? && n in p.names
    ensures Group(n, p.exploded) in GroupsFrom(parts)
    decreases |parts|
  {
    assert Fits(p, vars);
    if p == parts[0] {
      if IsQuery(p.op) {
        GroupOfName(p.names, p.exploded, n);
      }
    } else {
      GroupOfPart(parts[1..], vars, p, n);
    }
  }

  /** Every scalar comes back escaped, and every list of two or more strings under a star comes back as
      that list, each string escaped. */
  lemma {:induction false} ValuesComeBack(path: seq<Part>, query: seq<Part>, vars: Variables, p: Part, n: string)
    requires AllPathFit(path, vars) && Separated(path, query) && AllQueryFit(query, vars)
    requires Consistent(GroupsFrom(path + query))
    requires p in path + query && p.Expression? && n in p.names
    ensures n in vars && Expand(path + query, vars).Ok?
    ensures var r := MatchUri(path + query, Expand(path + query, vars).value);
            r.Failed?
            || (r.Matched? && n in r.vars
                && (vars[n].Scalar? ==> r.vars[n] == Scalar(QueryEscape(vars[n].text)))
                && (vars[n].Items? && p.exploded && |vars[n].items| >= 2 ==> r.vars[n] == Items(Escapes(vars[n].items))))
  {
    RoundTrip(path, query, vars);
    Expands(path, query, vars);
    GroupOfPart(path + query, vars, p, n);
    var g := Group(n, p.exploded);
    assert g in GroupsFrom(path + query);
    TextIsSafe(vars[g.name]);
  }

  lemma {:induction false} EscapesInjective(xs: seq<string>, ys: seq<string>)
    requires Escapes(xs) == Escapes(ys)
    ensures xs == ys
  {
    assert |xs| == |ys|;
    forall i | 0 <= i < |xs| ensures xs[i] == ys[i] {
      assert Escapes(xs)[i] == Escapes(ys)[i];
      QueryEscapeInjective(xs[i], ys[i]);
    }
  }

  lemma {:induction false} TextsDetermine(groups: seq<Group>, a: Variables, b: Variables, g: Group)
    requires GroupsBound(groups, a) && GroupsBound(groups, b) && CleanGroups(groups, a) && CleanGroups(groups, b)
    requires TextsOf(groups, a) == TextsOf(groups, b) && g in groups
    ensures ItemsOf(a[g.name]) == ItemsOf(b[g.name])
    decreases |groups|
  {
    assert groups[0] in groups;
    if g == groups[0] {
      var v, w := a[g.name], b[g.name];
      assert TextsOf(groups, a)[0] == TextOf(v) && TextsOf(groups, b)[0] == TextOf(w);
      SplitsText(v);
      SplitsText(w);
      EscapesInjective(ItemsOf(v), ItemsOf(w));
    } else {
      assert TextsOf(groups, a)[1..] == TextsOf(groups[1..], a) && TextsOf(groups, b)[1..] == TextsOf(groups[1..], b);
      TextsDetermine(groups[1..], a, b, g);
    }
  }

  /** Different values never expand to the same URI. */
  lemma {:induction false} ExpansionLosesNothing(path: seq<Part>, query: seq<Part>, a: Variables, b: Variables)
    requires AllPathFit(path, a) && AllPathFit(path, b) && Separated(path, query)
    requires AllQueryFit(query, a) && AllQueryFit(query, b)
    requires Expand(path + query, a) == Expand(path + query, b)
    ensures forall g :: g in GroupsFrom(path + query) ==>
      g.name in a && g.name in b && ItemsOf(a[g.name]) == ItemsOf(b[g.name])
  {
    var groups := GroupsFrom(path + query);
    Expands(path, query, a);
    Expands(path, query, b);
    MatchesExpansion(path, query, a);
    MatchesExpansion(path, query, b);
    GroupsUsable(path + query, a);
    GroupsUsable(path + query, b);
    forall g | g in groups ensures g.name in a && g.name in b && ItemsOf(a[g.name]) == ItemsOf(b[g.name]) {
      TextsDetermine(groups, a, b, g);
    }
  }
}
