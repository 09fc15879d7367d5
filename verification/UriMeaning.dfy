/** What a template of shared/uri_template.go expands to, for any parts and any variables, told by the
    bound names alone: which text stands in which place, and when the expansion fails. */
module UriMeaning {
  import opened Wrappers
  import opened Text
  import opened UriTemplate
  import opened UriExpand
  import opened UriRoundTrip

  /** The names that have a value, in order. */
  function BoundNames(names: seq<string>, vars: Variables): (bound: seq<string>)
    ensures NamesIn(bound, vars)
    ensures forall n :: n in bound <==> n in names && n in vars
  {
    if names == [] then []
    else (if names[0] in vars then [names[0]] else []) + BoundNames(names[1..], vars)
  }

  /** The names whose values are escaped, and so must not be too long. */
  function EscapedNames(p: Part): seq<string>
    requires p.Expression?
  {
    if IsQuery(p.op) then p.names else if |p.names| > 1 then [] else [p.name]
  }

  predicate TooLong(names: seq<string>, vars: Variables) {
    exists n :: n in names && n in vars && !Short(ItemsOf(vars[n]))
  }

  predicate Fails(p: Part, vars: Variables) {
    p.Expression? && TooLong(EscapedNames(p), vars)
  }

  function Lead(op: string): string {
    if op == "#" || op == "." || op == "/" then op else ""
  }

  function Separator(op: string): string {
    if op == "." || op == "/" then op else ","
  }

  /** Of several names each gives one string, of a list the first. */
  function Firsts(names: seq<string>, vars: Variables): (firsts: seq<string>)
    requires NamesIn(names, vars)
    ensures |firsts| == |names|
    ensures forall i :: 0 <= i < |names| ==>
              match vars[names[i]]
              case Scalar(text) => firsts[i] == text
              case Items(items) => firsts[i] == if items == [] then "[]" else items[0]
  {
    seq(|names|, i requires 0 <= i < |names| =>
      match vars[names[i]]
      case Scalar(text) => text
      case Items(items) => if items == [] then "[]" else items[0])
  }

  // ---- One expression ----

  lemma {:induction false} EncodeFails(vs: seq<string>)
    ensures EncodeAll(vs) == if Short(vs) then Ok(Escapes(vs)) else Err(ValueTooLong)
    decreases |vs|
  {
    if Short(vs) {
      EncodesAll(vs);
    } else {
      var x :| x in vs && ByteLen(x) > MAX_VARIABLE_LENGTH;
      if ByteLen(vs[0]) <= MAX_VARIABLE_LENGTH {
        assert x in vs[1..];
        EncodeFails(vs[1..]);
      }
    }
  }

  lemma {:induction false} LaterTooLong(names: seq<string>, vars: Variables)
    requires names != []
    ensures TooLong(names, vars) <==>
            (names[0] in vars && !Short(ItemsOf(vars[names[0]]))) || TooLong(names[1..], vars)
  {
    assert forall n :: n in names <==> n == names[0] || n in names[1..];
  }

  lemma {:induction false} PairsOfBound(names: seq<string>, vars: Variables)
    ensures PairsOf(names, vars)
         == if TooLong(names, vars) then Err(ValueTooLong) else Ok(PairTexts(BoundNames(names, vars), vars))
    decreases |names|
  {
    if names != [] {
      LaterTooLong(names, vars);
      PairsOfBound(names[1..], vars);
      if names[0] in vars {
        EncodeFails(ItemsOf(vars[names[0]]));
        assert BoundNames(names, vars)[1..] == BoundNames(names[1..], vars);
      } else {
        EmptyPlus(BoundNames(names[1..], vars));
      }
    }
  }

  lemma {:induction false} RawOfBound(names: seq<string>, vars: Variables)
    ensures RawValues(names, vars) == Firsts(BoundNames(names, vars), vars)
    decreases |names|
  {
    if names != [] {
      RawOfBound(names[1..], vars);
      var bound, later := BoundNames(names, vars), BoundNames(names[1..], vars);
      if names[0] in vars {
        assert bound == [names[0]] + later;
        assert Firsts(bound, vars) == [Firsts(bound, vars)[0]] + Firsts(later, vars);
      } else {
        EmptyPlus(later);
        EmptyPlus(RawValues(names[1..], vars));
      }
    }
  }

  lemma {:induction false} JoinedIs(op: string, values: seq<string>)
    ensures Joined(op, values) == Lead(op) + Join(values, Separator(op))
  {
    EmptyPlus(Join(values, ","));
  }

  /** A query expression fails exactly when a bound name has a value that is too long. Else it is empty when
      no name is bound, and otherwise its operator and the `name=escaped` texts of the bound names, in their
      order, joined by `&`. */
  lemma {:induction false} QueryMeans(p: Part, vars: Variables)
    requires p.Expression? && IsQuery(p.op)
    ensures TooLong(p.names, vars) ==> ExpandPart(p, vars) == Err(ValueTooLong)
    ensures !TooLong(p.names, vars) ==>
              var bound := BoundNames(p.names, vars);
              ExpandPart(p, vars) == Ok(if bound == [] then "" else p.op + Join(PairTexts(bound, vars), "&"))
  {
    PairsOfBound(p.names, vars);
  }

  /** Several names outside a query never fail: the first strings of the bound names are joined as they are. */
  lemma {:induction false} SeveralMean(p: Part, vars: Variables)
    requires p.Expression? && !IsQuery(p.op) && |p.names| > 1
    ensures var bound := BoundNames(p.names, vars);
            ExpandPart(p, vars)
              == Ok(if bound == [] then "" else Lead(p.op) + Join(Firsts(bound, vars), Separator(p.op)))
  {
    RawOfBound(p.names, vars);
    JoinedIs(p.op, RawValues(p.names, vars));
  }

  /** One name outside a query: its escaped strings, joined. */
  lemma {:induction false} OneMeans(p: Part, vars: Variables)
    requires p.Expression? && !IsQuery(p.op) && |p.names| <= 1
    ensures p.name !in vars ==> ExpandPart(p, vars) == Ok("")
    ensures p.name in vars ==>
              var items := ItemsOf(vars[p.name]);
              ExpandPart(p, vars) == if !Short(items) then Err(ValueTooLong)
                                     else Ok(Lead(p.op) + Join(Escapes(items), Separator(p.op)))
  {
    if p.name in vars {
      EncodeFails(ItemsOf(vars[p.name]));
      JoinedIs(p.op, Escapes(ItemsOf(vars[p.name])));
    }
  }

  // ---- A whole template ----

  /** The text of a part that does not fail; `asked` says whether a query has begun before it. Then `?` gives
      way to `&`, also inside a name. */
  function Meant(p: Part, vars: Variables, asked: bool): string {
    match p
    case Literal(text) => text
    case Expression(_, _, _, _) =>
      var bound := BoundNames(p.names, vars);
      if IsQuery(p.op) then
        var pairs := Join(PairTexts(bound, vars), "&");
        if bound == [] then ""
        else if !asked then p.op + pairs
        else "&" + (if p.op == "?" then pairs else ReplaceFirst(pairs, "?", "&"))
      else if |p.names| > 1 then
        if bound == [] then "" else Lead(p.op) + Join(Firsts(bound, vars), Separator(p.op))
      else if p.name !in vars then ""
      else Lead(p.op) + Join(Escapes(ItemsOf(vars[p.name])), Separator(p.op))
  }

  /** A query begins with the first query expression of which a name is bound. */
  predicate Begun(parts: seq<Part>, vars: Variables) {
    exists p :: p in parts && p.Expression? && IsQuery(p.op) && BoundNames(p.names, vars) != []
  }

  function MeantTexts(done: seq<Part>, parts: seq<Part>, vars: Variables): (texts: seq<string>)
    ensures |texts| == |parts|
    decreases |parts|
  {
    if parts == [] then []
    else [Meant(parts[0], vars, Begun(done, vars))] + MeantTexts(done + [parts[0]], parts[1..], vars)
  }

  lemma {:induction false} MeantAt(done: seq<Part>, parts: seq<Part>, vars: Variables, i: nat)
    requires i < |parts|
    ensures MeantTexts(done, parts, vars)[i] == Meant(parts[i], vars, Begun(done + parts[..i], vars))
    decreases i
  {
    if i == 0 {
      assert done + parts[..0] == done;
    } else {
      MeantAt(done + [parts[0]], parts[1..], vars, i - 1);
      assert done + [parts[0]] + parts[1..][..i - 1] == done + parts[..i];
    }
  }

  lemma {:induction false} LinkedQuery(op: string, pairs: string, asked: bool)
    requires IsQuery(op)
    ensures Link(op, op + pairs, asked)
         == if !asked then op + pairs else "&" + (if op == "?" then pairs else ReplaceFirst(pairs, "?", "&"))
  {
    var text := op + pairs;
    AppendDrop(op, pairs);
    if op == "&" && asked {
      assert text[0] == '&' && text != "" && !("?" <= text);
      assert text[1..] == pairs;
    }
  }

  lemma {:induction false} PartMeans(p: Part, vars: Variables, asked: bool)
    requires p.Expression?
    ensures Fails(p, vars) ==> ExpandPart(p, vars) == Err(ValueTooLong)
    ensures !Fails(p, vars) ==>
              ExpandPart(p, vars).Ok?
              && Meant(p, vars, asked)
                 == (var e := ExpandPart(p, vars).value; if e == "" then "" else Link(p.op, e, asked))
    ensures !Fails(p, vars) ==>
              (IsQuery(p.op) && ExpandPart(p, vars).value != "" <==> IsQuery(p.op) && BoundNames(p.names, vars) != [])
  {
    if IsQuery(p.op) {
      QueryMeans(p, vars);
      LinkedQuery(p.op, Join(PairTexts(BoundNames(p.names, vars), vars), "&"), asked);
    } else if |p.names| > 1 {
      SeveralMean(p, vars);
    } else {
      OneMeans(p, vars);
      assert p.name in [p.name];
    }
  }

  lemma {:induction false} BegunLater(done: seq<Part>, p: Part, vars: Variables)
    ensures Begun(done + [p], vars) <==>
            Begun(done, vars) || (p.Expression? && IsQuery(p.op) && BoundNames(p.names, vars) != [])
  {
    assert forall q :: q in done + [p] <==> q in done || q == p;
    assert p in done + [p];
  }

  /** The texts one after the other. */
  function Concat(texts: seq<string>): string {
    if texts == [] then "" else texts[0] + Concat(texts[1..])
  }

  lemma {:induction false} ExpandFromMeans(done: seq<Part>, parts: seq<Part>, vars: Variables)
    ensures ExpandFrom(parts, vars, Begun(done, vars))
         == if exists p :: p in parts && Fails(p, vars) then Err(ValueTooLong)
            else Ok(Concat(MeantTexts(done, parts, vars)))
    decreases |parts|
  {
    if parts != [] {
      var p, later := parts[0], parts[1..];
      assert forall q :: q in parts <==> q == p || q in later;
      ExpandFromMeans(done + [p], later, vars);
      BegunLater(done, p, vars);
      var texts := MeantTexts(done, parts, vars);
      assert texts[1..] == MeantTexts(done + [p], later, vars);
      if p.Expression? {
        PartMeans(p, vars, Begun(done, vars));
        EmptyPlus(Concat(texts[1..]));
      }
    }
  }

  /** For any template and variables: the expansion fails exactly when a string that has to be escaped is too
      long, and else it is the texts of the parts in their order, each linked by whether a query expression
      with a bound name stands before it. */
  lemma {:induction false} ExpandMeans(parts: seq<Part>, vars: Variables)
    ensures (exists p :: p in parts && Fails(p, vars)) ==> Expand(parts, vars) == Err(ValueTooLong)
    ensures !(exists p :: p in parts && Fails(p, vars)) ==>
              var texts := MeantTexts([], parts, vars);
              Expand(parts, vars) == Ok(Concat(texts))
              && forall i :: 0 <= i < |parts| ==> texts[i] == Meant(parts[i], vars, Begun(parts[..i], vars))
  {
    ExpandFromMeans([], parts, vars);
    forall i | 0 <= i < |parts|
      ensures MeantTexts([], parts, vars)[i] == Meant(parts[i], vars, Begun(parts[..i], vars))
    {
      MeantAt([], parts, vars, i);
      EmptyPlus(parts[..i]);
    }
  }
}
