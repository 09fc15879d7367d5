/** Expansion of the templates of shared/uri_template.go, and the escaping it applies to values. */
module UriExpand {
  import opened Wrappers
  import opened Text
  import opened UriTemplate

  // ---- url.QueryEscape ----

  const HEX_DIGITS := "0123456789ABCDEF"

  /** The bytes of a string in UTF-8. */
  function Bytes(s: string): (bytes: seq<Byte>)
    ensures bytes == [] <==> s == ""
  {
    if s == "" then [] else Utf8(s[0]) + Bytes(s[1..])
  }

  predicate Unreserved(c: char) {
    '0' <= c <= '9' || 'A' <= c <= 'Z' || 'a' <= c <= 'z' || c in "-_.~"
  }

  function EscapeByte(b: Byte): (e: string)
    ensures e != "" && forall c :: c in e ==> Safe(c)
  {
    if b < 128 && Unreserved(b as char) then [b as char]
    else if b == ' ' as int then "+"
    else ['%', HEX_DIGITS[b / 16], HEX_DIGITS[b % 16]]
  }

  /** The only characters that escaped text is made of. */
  predicate Safe(c: char) {
    Unreserved(c) || c == '+' || c == '%'
  }

  function Escape(bytes: seq<Byte>): (e: string)
    ensures e == "" <==> bytes == []
    ensures forall c :: c in e ==> Safe(c)
  {
    if bytes == [] then "" else EscapeByte(bytes[0]) + Escape(bytes[1..])
  }

  function QueryEscape(s: string): (e: string)
    ensures e == "" <==> s == ""
    ensures forall c :: c in e ==> Safe(c)
  {
    Escape(Bytes(s))
  }

  function DigitValue(c: char): int {
    if '0' <= c <= '9' then c as int - '0' as int else if 'A' <= c <= 'F' then c as int - 'A' as int + 10 else 0
  }

  /** What escaped text stands for. */
  function Unescape(s: string): seq<int> {
    if s == "" then []
    else if s[0] == '%' && |s| >= 3 then [DigitValue(s[1]) * 16 + DigitValue(s[2])] + Unescape(s[3..])
    else [if s[0] == '+' then ' ' as int else s[0] as int] + Unescape(s[1..])
  }

  lemma {:induction false} HexDigit(d: nat)
    requires d < 16
    ensures DigitValue(HEX_DIGITS[d]) == d
  {
  }

  lemma {:induction false} UnescapeByte(b: Byte, rest: string)
    ensures Unescape(EscapeByte(b) + rest) == [b] + Unescape(rest)
  {
    var e := EscapeByte(b) + rest;
    AppendDrop(EscapeByte(b), rest);
    if b >= 128 || !Unreserved(b as char) {
      if b != ' ' as int {
        HexDigit(b / 16);
        HexDigit(b % 16);
        assert e[0] == '%' && e[1] == HEX_DIGITS[b / 16] && e[2] == HEX_DIGITS[b % 16];
      }
    }
  }

  lemma {:induction false} UnescapeEscape(bytes: seq<Byte>)
    ensures Unescape(Escape(bytes)) == bytes
  {
    if bytes != [] {
      UnescapeEscape(bytes[1..]);
      UnescapeByte(bytes[0], Escape(bytes[1..]));
      HeadTail(bytes);
    }
  }

  /** The number of bytes a character takes, told by its first. */
  function Width(first: Byte): nat {
    if first < 0x80 then 1 else if first < 0xE0 then 2 else if first < 0xF0 then 3 else 4
  }

  function CodePoint(bytes: seq<int>): int {
    if |bytes| == 1 then bytes[0]
    else if |bytes| == 2 then (bytes[0] - 0xC0) * 0x40 + (bytes[1] - 0x80)
    else if |bytes| == 3 then ((bytes[0] - 0xE0) * 0x40 + (bytes[1] - 0x80)) * 0x40 + (bytes[2] - 0x80)
    else if |bytes| == 4 then
      (((bytes[0] - 0xF0) * 0x40 + (bytes[1] - 0x80)) * 0x40 + (bytes[2] - 0x80)) * 0x40 + (bytes[3] - 0x80)
    else 0
  }

  lemma {:induction false} WidthOfUtf8(c: char)
    ensures Width(Utf8(c)[0]) == |Utf8(c)|
  {
  }

  lemma {:induction false} CodePointOfUtf8(c: char)
    ensures CodePoint(Utf8(c)) == c as int
  {
    var n := c as int;
    if n >= 0x10000 {
      assert n / 0x40 / 0x40 == n / 0x1000 && n / 0x1000 / 0x40 == n / 0x40000;
    } else if n >= 0x800 {
      assert n / 0x40 / 0x40 == n / 0x1000;
    }
  }

  /** UTF-8 is a prefix code. */
  lemma {:induction false} Utf8Prefix(c: char, d: char, r: seq<Byte>, q: seq<Byte>)
    requires Utf8(c) + r == Utf8(d) + q
    ensures c == d && r == q
  {
    assert Utf8(c)[0] == (Utf8(c) + r)[0] == (Utf8(d) + q)[0] == Utf8(d)[0];
    WidthOfUtf8(c);
    WidthOfUtf8(d);
    AppendDrop(Utf8(c), r);
    AppendDrop(Utf8(d), q);
    CodePointOfUtf8(c);
    CodePointOfUtf8(d);
  }

  lemma {:induction false} BytesInjective(s: string, t: string)
    requires Bytes(s) == Bytes(t)
    ensures s == t
  {
    if s != "" {
      Utf8Prefix(s[0], t[0], Bytes(s[1..]), Bytes(t[1..]));
      BytesInjective(s[1..], t[1..]);
      HeadTail(s);
      HeadTail(t);
    }
  }

  /** Escaping loses nothing: an escaped value determines the value. */
  lemma {:induction false} QueryEscapeInjective(s: string, t: string)
    requires QueryEscape(s) == QueryEscape(t)
    ensures s == t
  {
    UnescapeEscape(Bytes(s));
    UnescapeEscape(Bytes(t));
    BytesInjective(s, t);
  }

  // ---- Expansion ----

  /** A variable's value: a list of strings, or anything else in its printed form. */
  datatype Value = Scalar(text: string) | Items(items: seq<string>)

  type Variables = map<string, Value>

  datatype ExpandError = ValueTooLong

  function ItemsOf(v: Value): seq<string> {
    if v.Scalar? then [v.text] else v.items
  }

  /** encodeValue, which treats all operators alike. */
  function EncodeValue(v: string): Result<string, ExpandError> {
    if ByteLen(v) > MAX_VARIABLE_LENGTH then Err(ValueTooLong) else Ok(QueryEscape(v))
  }

  /** `xs` before what is still to come. */
  function Before<T>(xs: seq<T>, r: Result<seq<T>, ExpandError>): Result<seq<T>, ExpandError> {
    if r.Ok? then Ok(xs + r.value) else r
  }

  function EncodeAll(vs: seq<string>): Result<seq<string>, ExpandError> {
    if vs == [] then Ok([])
    else if EncodeValue(vs[0]).Err? then Err(EncodeValue(vs[0]).error)
    else Before([EncodeValue(vs[0]).value], EncodeAll(vs[1..]))
  }

  /** The `name=value` pairs of a query expression; unbound names are skipped. */
  function PairsOf(names: seq<string>, vars: Variables): Result<seq<string>, ExpandError> {
    if names == [] then Ok([])
    else if names[0] !in vars then PairsOf(names[1..], vars)
    else
      var es := EncodeAll(ItemsOf(vars[names[0]]));
      if es.Err? then Err(es.error)
      else Before([names[0] + ("=" + Join(es.value, ","))], PairsOf(names[1..], vars))
  }

  /** A value among several names: not escaped, and of a list only its first string. An empty list is
      printed as Go prints it. */
  function RawValue(v: Value): string {
    if v.Scalar? then v.text else if v.items != [] then v.items[0] else "[]"
  }

  function RawValues(names: seq<string>, vars: Variables): seq<string> {
    if names == [] then []
    else (if names[0] in vars then [RawValue(vars[names[0]])] else []) + RawValues(names[1..], vars)
  }

  function Joined(op: string, values: seq<string>): string {
    if op == "#" then "#" + Join(values, ",")
    else if op == "." then "." + Join(values, ".")
    else if op == "/" then "/" + Join(values, "/")
    else Join(values, ",")
  }

  predicate IsQuery(op: string) {
    op == "?" || op == "&"
  }

  /** expandPart. */
  function ExpandPart(p: Part, vars: Variables): Result<string, ExpandError>
    requires p.Expression?
  {
    if IsQuery(p.op) then
      var pairs := PairsOf(p.names, vars);
      if pairs.Err? then Err(pairs.error)
      else if pairs.value == [] then Ok("")
      else Ok(p.op + Join(pairs.value, "&"))
    else if |p.names| > 1 then
      var values := RawValues(p.names, vars);
      if values == [] then Ok("") else Ok(Joined(p.op, values))
    else if p.name !in vars then Ok("")
    else
      var es := EncodeAll(ItemsOf(vars[p.name]));
      if es.Err? then Err(es.error) else Ok(Joined(p.op, es.value))
  }

  /** A second query expression starts with `&`. */
  function Link(op: string, expanded: string, hasQuery: bool): string {
    if IsQuery(op) && hasQuery then ReplaceFirst(expanded, "?", "&") else expanded
  }

  function ExpandFrom(parts: seq<Part>, vars: Variables, hasQuery: bool): Result<string, ExpandError> {
    if parts == [] then Ok("")
    else if parts[0].Literal? then Before(parts[0].text, ExpandFrom(parts[1..], vars, hasQuery))
    else
      var e := ExpandPart(parts[0], vars);
      if e.Err? then e
      else if e.value == "" then ExpandFrom(parts[1..], vars, hasQuery)
      else Before(Link(parts[0].op, e.value, hasQuery), ExpandFrom(parts[1..], vars, hasQuery || IsQuery(parts[0].op)))
  }

  function Expand(parts: seq<Part>, vars: Variables): Result<string, ExpandError> {
    ExpandFrom(parts, vars, false)
  }

  // ---- The code's loops ----

  lemma {:induction false} BeforeTwice<T>(a: seq<T>, b: seq<T>, r: Result<seq<T>, ExpandError>)
    ensures Before(a, Before(b, r)) == Before(a + b, r)
  {
    if r.Ok? {
      Assoc(a, b, r.value);
    }
  }

  lemma {:induction false} BeforeNone<T>(r: Result<seq<T>, ExpandError>)
    ensures Before([], r) == r
  {
    assert r.Ok? ==> [] + r.value == r.value;
  }

  lemma {:induction false} BeforeEnd<T>(xs: seq<T>)
    ensures Before(xs, Ok([])) == Ok(xs)
  {
    assert xs + [] == xs;
  }

  method EncodeItems(vs: seq<string>) returns (r: Result<seq<string>, ExpandError>)
    ensures r == EncodeAll(vs)
  {
    var encoded: seq<string> := [];
    BeforeNone(EncodeAll(vs));
    assert vs[0..] == vs;
    for i := 0 to |vs|
      invariant EncodeAll(vs) == Before(encoded, EncodeAll(vs[i..]))
    {
      DropDrop(vs, i, 1);
      var enc := EncodeValue(vs[i]);
      if enc.Err? {
        return Err(enc.error);
      }
      BeforeTwice(encoded, [enc.value], EncodeAll(vs[i + 1..]));
      encoded := encoded + [enc.value];
    }
    assert vs[|vs|..] == [];
    BeforeEnd(encoded);
    return Ok(encoded);
  }

  method QueryPairs(names: seq<string>, vars: Variables) returns (r: Result<seq<string>, ExpandError>)
    ensures r == PairsOf(names, vars)
  {
    var pairs: seq<string> := [];
    BeforeNone(PairsOf(names, vars));
    assert names[0..] == names;
    for i := 0 to |names|
      invariant PairsOf(names, vars) == Before(pairs, PairsOf(names[i..], vars))
    {
      DropDrop(names, i, 1);
      var name := names[i];
      if name !in vars {
        continue;
      }
      var encoded := EncodeItems(ItemsOf(vars[name]));
      if encoded.Err? {
        return Err(encoded.error);
      }
      BeforeTwice(pairs, [name + ("=" + Join(encoded.value, ","))], PairsOf(names[i + 1..], vars));
      pairs := pairs + [name + ("=" + Join(encoded.value, ","))];
    }
    assert names[|names|..] == [];
    BeforeEnd(pairs);
    return Ok(pairs);
  }

  method PlainValues(names: seq<string>, vars: Variables) returns (values: seq<string>)
    ensures values == RawValues(names, vars)
  {
    values := [];
    assert names[0..] == names;
    for i := 0 to |names|
      invariant RawValues(names, vars) == values + RawValues(names[i..], vars)
    {
      DropDrop(names, i, 1);
      var later := RawValues(names[i + 1..], vars);
      if names[i] in vars {
        Assoc(values, [RawValue(vars[names[i]])], later);
        values := values + [RawValue(vars[names[i]])];
      } else {
        assert [] + later == later;
      }
    }
    assert names[|names|..] == [];
  }

  /** The switch over operators when values are put together. */
  method JoinValues(op: string, values: seq<string>) returns (text: string)
    ensures text == Joined(op, values)
  {
    match op {
      case "" => text := Join(values, ",");
      case "+" => text := Join(values, ",");
      case "#" => text := "#" + Join(values, ",");
      case "." => text := "." + Join(values, ".");
      case "/" => text := "/" + Join(values, "/");
      case _ => text := Join(values, ",");
    }
  }

  method ExpandOne(p: Part, vars: Variables) returns (r: Result<string, ExpandError>)
    requires p.Expression?
    ensures r == ExpandPart(p, vars)
  {
    if p.op == "?" || p.op == "&" {
      var pairs := QueryPairs(p.names, vars);
      if pairs.Err? {
        return Err(pairs.error);
      }
      if |pairs.value| == 0 {
        return Ok("");
      }
      var separator := if p.op == "&" then "&" else "?";
      return Ok(separator + Join(pairs.value, "&"));
    }
    if |p.names| > 1 {
      var values := PlainValues(p.names, vars);
      if |values| == 0 {
        return Ok("");
      }
      var text := JoinValues(p.op, values);
      return Ok(text);
    }
    if p.name !in vars {
      return Ok("");
    }
    var encoded := EncodeItems(ItemsOf(vars[p.name]));
    if encoded.Err? {
      return Err(encoded.error);
    }
    var text := JoinValues(p.op, encoded.value);
    return Ok(text);
  }

  method ExpandTemplate(parts: seq<Part>, vars: Variables) returns (r: Result<string, ExpandError>)
    ensures r == Expand(parts, vars)
  {
    var text := "";
    var hasQueryParam := false;
    BeforeNone(Expand(parts, vars));
    assert parts[0..] == parts;
    for i := 0 to |parts|
      invariant Expand(parts, vars) == Before(text, ExpandFrom(parts[i..], vars, hasQueryParam))
    {
      DropDrop(parts, i, 1);
      var p := parts[i];
      if p.Literal? {
        BeforeTwice(text, p.text, ExpandFrom(parts[i + 1..], vars, hasQueryParam));
        text := text + p.text;
      } else {
        var expanded := ExpandOne(p, vars);
        if expanded.Err? {
          return expanded;
        }
        if expanded.value == "" {
          continue;
        }
        var linked := expanded.value;
        if (p.op == "?" || p.op == "&") && hasQueryParam {
          linked := ReplaceFirst(linked, "?", "&");
        }
        var query := hasQueryParam || IsQuery(p.op);
        BeforeTwice(text, linked, ExpandFrom(parts[i + 1..], vars, query));
        text := text + linked;
        hasQueryParam := query;
      }
    }
    assert parts[|parts|..] == [];
    BeforeEnd(text);
    return Ok(text);
  }
}
