/** What a match of a template of shared/uri_template.go means in terms of the URI alone: which URIs match,
    and how the returned variables stand in them, for every operator. */
module UriRead {
  import opened Text
  import opened Regex
  import opened UriTemplate
  import opened UriExpand
  import opened UriMatch
  import UriRoundTrip

  /** A row of fixed texts and of variables that may hold any text without certain characters. */
  datatype Slot = Fixed(text: string) | Variable(name: string, listed: bool, never: set<char>)

  function QuerySlots(lead: string, names: seq<string>, listed: bool): seq<Slot>
    decreases |names|
  {
    if names == [] then []
    else [Fixed(lead + (names[0] + "=")), Variable(names[0], listed, {'&'})] + QuerySlots("&", names[1..], listed)
  }

  /** The operators `/` and `.` stand before the value; a comma is kept out unless there is a star, and the dot
      keeps it out always. */
  function SlotsOf(p: Part): seq<Slot> {
    match p
    case Literal(text) => [Fixed(text)]
    case Expression(name, op, names, exploded) =>
      if op == "?" || op == "&" then QuerySlots(op, names, exploded)
      else if op == "." then [Fixed("."), Variable(name, exploded, {'/', ','})]
      else if op == "/" then [Fixed("/"), Variable(name, exploded, if exploded then {'/'} else {'/', ','})]
      else if op == "+" || op == "#" then [Variable(name, exploded, {'\n'})]
      else if op == "" && !exploded then [Variable(name, exploded, {'/', ','})]
      else [Variable(name, exploded, {'/'})]
  }

  function Slots(parts: seq<Part>): seq<Slot> {
    if parts == [] then [] else SlotsOf(parts[0]) + Slots(parts[1..])
  }

  predicate MayHold(slot: Slot, text: string)
    requires slot.Variable?
  {
    text != "" && forall c :: c in text ==> c !in slot.never
  }

  /** The string is the fixed texts with the given texts in the places of the variables. */
  predicate Reads(slots: seq<Slot>, texts: seq<string>, s: string)
    decreases |slots|
  {
    if slots == [] then s == "" && texts == []
    else
      match slots[0]
      case Fixed(text) => text <= s && Reads(slots[1..], texts, s[|text|..])
      case Variable(_, _, _) =>
        texts != [] && MayHold(slots[0], texts[0]) && texts[0] <= s && Reads(slots[1..], texts[1..], s[|texts[0]|..])
  }

  /** A value that was read: with a star, a text with commas is the list of what stands between them. */
  predicate IsValueOf(v: Value, text: string, listed: bool) {
    if listed && ',' in text
    then v.Items? && Join(v.items, ",") == text && |v.items| >= 2 && forall x :: x in v.items ==> ',' !in x
    else v == Scalar(text)
  }

  datatype Reading = Unread | Read(text: string, listed: bool)

  /** The text of the last variable with that name, stars aside. */
  function LastText(slots: seq<Slot>, texts: seq<string>, name: string): Reading
    decreases |slots|
  {
    if slots == [] then Unread
    else if slots[0].Fixed? then LastText(slots[1..], texts, name)
    else if texts == [] then Unread
    else
      var later := LastText(slots[1..], texts[1..], name);
      if later.Read? then later
      else if Without(slots[0].name, '*') == name then Read(texts[0], slots[0].listed)
      else Unread
  }

  // ---- The pieces of the slots ----

  function SlotPieces(slot: Slot): seq<Piece> {
    if slot.Fixed? then Chars(slot.text) else [Run(NotIn(slot.never), 1, false)]
  }

  function PiecesOf(slots: seq<Slot>): seq<Piece> {
    if slots == [] then [] else SlotPieces(slots[0]) + PiecesOf(slots[1..])
  }

  lemma {:induction false} PiecesConcat(a: seq<Slot>, b: seq<Slot>)
    ensures PiecesOf(a + b) == PiecesOf(a) + PiecesOf(b)
  {
    if a == [] {
      EmptyPlus(b);
      EmptyPlus(PiecesOf(b));
    } else {
      assert (a + b)[1..] == a[1..] + b;
      PiecesConcat(a[1..], b);
      Assoc(SlotPieces(a[0]), PiecesOf(a[1..]), PiecesOf(b));
    }
  }

  lemma {:induction false} PiecesOfOne(a: Slot)
    ensures PiecesOf([a]) == SlotPieces(a)
  {
    assert [a][1..] == [];
  }

  lemma {:induction false} PiecesOfTwo(a: Slot, b: Slot)
    ensures PiecesOf([a, b]) == SlotPieces(a) + SlotPieces(b)
  {
    assert [a, b] == [a] + [b];
    PiecesConcat([a], [b]);
    PiecesOfOne(a);
    PiecesOfOne(b);
  }

  lemma {:induction false} CharsConcat(a: string, b: string)
    ensures Chars(a + b) == Chars(a) + Chars(b)
  {
  }

  lemma {:induction false} PlainChars(text: string)
    ensures PlainAll(Chars(text)) == Chars(text)
  {
    UriRoundTrip.PlainOfSimple(Chars(text));
  }

  lemma {:induction false} QueryPlain(lead: char, names: seq<string>, listed: bool)
    ensures PlainAll(QueryPieces(lead, names)) == PiecesOf(QuerySlots([lead], names, listed))
    decreases |names|
  {
    if names != [] {
      var one := [Chr(lead)] + (Chars(names[0]) + ([Chr('=')] + [PARAM]));
      QueryPlain('&', names[1..], listed);
      assert ['&'] == "&";
      UriRoundTrip.PlainConcat(one, QueryPieces('&', names[1..]));
      UriRoundTrip.PlainOfSimple(one);
      var fixed, v := Fixed([lead] + (names[0] + "=")), Variable(names[0], listed, {'&'});
      PiecesOfTwo(fixed, v);
      PiecesConcat([fixed, v], QuerySlots("&", names[1..], listed));
      OneQuery(lead, names[0]);
    }
  }

  lemma {:induction false} OneQuery(lead: char, name: string)
    ensures [Chr(lead)] + (Chars(name) + ([Chr('=')] + [PARAM]))
         == Chars([lead] + (name + "=")) + [Run(NotIn({'&'}), 1, false)]
  {
    OneLetter("&", '&');
    CharsConcat([lead], name + "=");
    CharsConcat(name, "=");
  }

  lemma {:induction false} OneLetter(s: string, c: char)
    requires s == [c]
    ensures SetOf(s) == {c}
  {
  }

  lemma {:induction false} TwoLetters()
    ensures SetOf("/,") == {'/', ','} && SetOf("/") == {'/'}
  {
    OneLetter("/", '/');
    var s := "/,";
    assert s[0] in s && s[1] in s;
  }

  lemma {:induction false} PlainItems()
    ensures PlainAll([LIST]) == [Run(NotIn({'/'}), 1, false)] && PlainAll([WORD]) == [Run(NotIn({'/', ','}), 1, false)]
  {
    TwoLetters();
    assert [LIST][1..] == [] && [WORD][1..] == [];
  }

  lemma {:induction false} LedPlain(lead: char, item: Piece, name: string, listed: bool, never: set<char>)
    requires PlainAll([item]) == [Run(NotIn(never), 1, false)]
    ensures PlainAll([Chr(lead)] + [item]) == PiecesOf([Fixed([lead]), Variable(name, listed, never)])
  {
    UriRoundTrip.PlainConcat([Chr(lead)], [item]);
    UriRoundTrip.PlainOfSimple([Chr(lead)]);
    PiecesOfTwo(Fixed([lead]), Variable(name, listed, never));
    assert Chars([lead]) == [Chr(lead)];
  }

  lemma {:induction false} PathPlain(p: Part)
    requires p.Expression? && !IsQuery(p.op)
    ensures PlainAll(PathPieces(p.op, p.exploded)) == PiecesOf(SlotsOf(p))
  {
    PlainItems();
    if p.op == "." {
      LedPlain('.', WORD, p.name, p.exploded, {'/', ','});
      assert ['.'] == ".";
    } else if p.op == "/" {
      LedPlain('/', if p.exploded then LIST else WORD, p.name, p.exploded, if p.exploded then {'/'} else {'/', ','});
      assert ['/'] == "/";
    } else {
      TwoLetters();
      UriRoundTrip.PlainOfSimple([ANY]);
      UriRoundTrip.PlainOfSimple([Run(NotIn(SetOf("/")), 1, false)]);
      PiecesOfOne(SlotsOf(p)[0]);
    }
  }

  lemma {:induction false} PartPlain(p: Part)
    ensures PlainAll(PartPieces(p)) == PiecesOf(SlotsOf(p))
  {
    if p.Literal? {
      PlainChars(p.text);
      PiecesOfOne(Fixed(p.text));
    } else if IsQuery(p.op) {
      QueryPlain(p.op[0], p.names, p.exploded);
      assert [p.op[0]] == p.op;
    } else {
      PathPlain(p);
    }
  }

  lemma {:induction false} PartsPlain(parts: seq<Part>)
    ensures PlainAll(PiecesFrom(parts)) == PiecesOf(Slots(parts))
    decreases |parts|
  {
    if parts != [] {
      PartPlain(parts[0]);
      PartsPlain(parts[1..]);
      UriRoundTrip.PlainConcat(PartPieces(parts[0]), PiecesFrom(parts[1..]));
      PiecesConcat(SlotsOf(parts[0]), Slots(parts[1..]));
    }
  }

  lemma {:induction false} SlotsAreSimple(slots: seq<Slot>)
    ensures Simple(PiecesOf(slots))
  {
    if slots != [] {
      SlotsAreSimple(slots[1..]);
    }
  }

  // ---- Spelling is reading ----

  lemma {:induction false} CharsSpell(text: string, ps: seq<Piece>, s: string, captures: seq<string>)
    ensures Spells(Chars(text) + ps, s, captures) <==> text <= s && Spells(ps, s[|text|..], captures)
    decreases |text|
  {
    if text == "" {
      EmptyPlus(ps);
      assert s[0..] == s;
    } else {
      var all := Chars(text) + ps;
      assert all[1..] == Chars(text[1..]) + ps;
      HeadTail(text);
      if s != "" && s[0] == text[0] {
        CharsSpell(text[1..], ps, s[1..], captures);
        TailPrefix(text, s);
      }
    }
  }

  lemma {:induction false} TailPrefix(text: string, s: string)
    requires text != "" && s != "" && s[0] == text[0]
    ensures text[1..] <= s[1..] <==> text <= s
    ensures text <= s ==> s[1..][|text[1..]|..] == s[|text|..]
  {
    HeadTail(text);
    HeadTail(s);
    if text <= s {
      assert s[1..][..|text| - 1] == s[..|text|][1..];
    }
  }

  lemma {:induction false} SpellsIsReads(slots: seq<Slot>, s: string, texts: seq<string>)
    ensures Spells(PiecesOf(slots), s, texts) <==> Reads(slots, texts, s)
    decreases |slots|
  {
    if slots != [] {
      var later := PiecesOf(slots[1..]);
      if slots[0].Fixed? {
        CharsSpell(slots[0].text, later, s, texts);
        if slots[0].text <= s {
          SpellsIsReads(slots[1..], s[|slots[0].text|..], texts);
        }
      } else {
        assert PiecesOf(slots)[1..] == later;
        if texts != [] && texts[0] <= s {
          SpellsIsReads(slots[1..], s[|texts[0]|..], texts[1..]);
        }
      }
    }
  }

  // ---- The returned variables ----

  lemma {:induction false} JoinSplit(text: string, c: char)
    ensures Join(Split(text, c), [c]) == text && (c in text <==> |Split(text, c)| >= 2)
    decreases |text|
  {
    var n := IndexOf(text, c);
    if n < |text| {
      JoinSplit(text[n + 1..], c);
      var xs := Split(text, c);
      assert xs[1..] == Split(text[n + 1..], c);
      Cut(text, n);
      HeadTail(text[n..]);
      Assoc(text[..n], [c], text[n + 1..]);
    } else {
      assert text[..n] == text;
    }
  }

  lemma {:induction false} CapturedIsValue(text: string, listed: bool)
    ensures IsValueOf(Captured(text, listed), text, listed)
  {
    JoinSplit(text, ',');
    assert [','] == ",";
  }

  function GroupsOf(slots: seq<Slot>): seq<Group> {
    if slots == [] then []
    else (if slots[0].Variable? then [Group(slots[0].name, slots[0].listed)] else []) + GroupsOf(slots[1..])
  }

  lemma {:induction false} GroupsConcat(a: seq<Slot>, b: seq<Slot>)
    ensures GroupsOf(a + b) == GroupsOf(a) + GroupsOf(b)
  {
    if a == [] {
      EmptyPlus(b);
      EmptyPlus(GroupsOf(b));
    } else {
      assert (a + b)[1..] == a[1..] + b;
      GroupsConcat(a[1..], b);
      Assoc(if a[0].Variable? then [Group(a[0].name, a[0].listed)] else [], GroupsOf(a[1..]), GroupsOf(b));
    }
  }

  lemma {:induction false} GroupsOfFew(a: Slot, b: Slot)
    ensures GroupsOf([a]) == if a.Variable? then [Group(a.name, a.listed)] else []
    ensures a.Fixed? && b.Variable? ==> GroupsOf([a, b]) == [Group(b.name, b.listed)]
  {
    assert [a][1..] == [] && [b][1..] == [] && [a, b][1..] == [b];
  }

  lemma {:induction false} QueryGroupsAre(lead: string, names: seq<string>, listed: bool)
    ensures GroupsOf(QuerySlots(lead, names, listed)) == GroupsOfNames(names, listed)
    decreases |names|
  {
    if names != [] {
      QueryGroupsAre("&", names[1..], listed);
      var fixed, v := Fixed(lead + (names[0] + "=")), Variable(names[0], listed, {'&'});
      GroupsOfFew(fixed, v);
      GroupsConcat([fixed, v], QuerySlots("&", names[1..], listed));
    }
  }

  lemma {:induction false} PathGroupsAre(p: Part)
    requires p.Expression? && !IsQuery(p.op)
    ensures GroupsOf(SlotsOf(p)) == [Group(p.name, p.exploded)]
  {
    var slots := SlotsOf(p);
    if |slots| == 1 {
      GroupsOfFew(slots[0], slots[0]);
    } else {
      assert slots == [slots[0], slots[1]];
      GroupsOfFew(slots[0], slots[1]);
    }
  }

  lemma {:induction false} PartGroupsAre(p: Part)
    ensures PartGroups(p) == GroupsOf(SlotsOf(p))
  {
    if p.Literal? {
      GroupsOfFew(Fixed(p.text), Fixed(p.text));
    } else if IsQuery(p.op) {
      QueryGroupsAre(p.op, p.names, p.exploded);
    } else {
      PathGroupsAre(p);
    }
  }

  lemma {:induction false} GroupsAre(parts: seq<Part>)
    ensures GroupsFrom(parts) == GroupsOf(Slots(parts))
    decreases |parts|
  {
    if parts != [] {
      GroupsAre(parts[1..]);
      PartGroupsAre(parts[0]);
      GroupsConcat(SlotsOf(parts[0]), Slots(parts[1..]));
    }
  }

  /** What a name is bound to after collecting: its last text, else what it was bound to before. */
  predicate BoundTo(vars: Variables, name: string, reading: Reading, before: Variables) {
    match reading
    case Read(text, listed) => name in vars && IsValueOf(vars[name], text, listed)
    case Unread => (name in vars <==> name in before) && (name in vars ==> vars[name] == before[name])
  }

  lemma {:induction false} Collected(slots: seq<Slot>, texts: seq<string>, acc: Variables, name: string)
    ensures BoundTo(Collect(GroupsOf(slots), texts, acc), name, LastText(slots, texts, name), acc)
    decreases |slots|
  {
    if slots != [] {
      var groups, later := GroupsOf(slots), GroupsOf(slots[1..]);
      if slots[0].Fixed? {
        EmptyPlus(later);
        Collected(slots[1..], texts, acc, name);
      } else if texts != [] {
        assert groups[1..] == later;
        CapturedIsValue(texts[0], slots[0].listed);
        var clean := Without(slots[0].name, '*');
        Collected(slots[1..], texts[1..], acc[clean := Captured(texts[0], slots[0].listed)], name);
      }
    }
  }

  // ---- Matching ----

  predicate WithinLimits(parts: seq<Part>, uri: string) {
    ByteLen(uri) <= MAX_TEMPLATE_LENGTH && ByteLen(FullPattern(parts)) <= MAX_REGEX_LENGTH
  }

  /** A URI that matches is, part by part, the template's text and the texts of its variables; and each name is
      bound to the value of its last text, and nothing else is bound. */
  lemma {:induction false} MatchReads(parts: seq<Part>, uri: string) returns (texts: seq<string>)
    requires MatchUri(parts, uri).Matched?
    ensures Reads(Slots(parts), texts, uri)
    ensures forall name :: BoundTo(MatchUri(parts, uri).vars, name, LastText(Slots(parts), texts, name), map[])
  {
    MatchesPieces(parts, uri);
    UriRoundTrip.PiecesAreSensible(parts);
    PlainMatch(PiecesFrom(parts), uri, true);
    PartsPlain(parts);
    var slots := Slots(parts);
    SlotsAreSimple(slots);
    MatchSound(PiecesOf(slots), uri, true);
    texts := Match(PiecesOf(slots), uri, true).value.captures;
    assert uri[..|uri|] == uri;
    SpellsIsReads(slots, uri, texts);
    GroupsAre(parts);
    forall name ensures BoundTo(MatchUri(parts, uri).vars, name, LastText(slots, texts, name), map[]) {
      Collected(slots, texts, map[], name);
    }
  }

  lemma {:induction false} ReadingMatches(parts: seq<Part>, texts: seq<string>, uri: string)
    requires WithinLimits(parts, uri) && Reads(Slots(parts), texts, uri)
    ensures MatchUri(parts, uri).Matched?
  {
    MatchesPieces(parts, uri);
    UriRoundTrip.PiecesAreSensible(parts);
    PlainMatch(PiecesFrom(parts), uri, true);
    PartsPlain(parts);
    SlotsAreSimple(Slots(parts));
    SpellsIsReads(Slots(parts), uri, texts);
    assert uri[..|uri|] == uri;
    MatchGreediest(PiecesOf(Slots(parts)), uri, true, |uri|, texts);
  }

  ghost predicate CanRead(parts: seq<Part>, uri: string) {
    exists texts :: Reads(Slots(parts), texts, uri)
  }

  /** Within the two length limits the URIs that match are those that can be read in that way. */
  lemma {:induction false} MatchesIffReads(parts: seq<Part>, uri: string)
    ensures MatchUri(parts, uri).Matched? <==> WithinLimits(parts, uri) && CanRead(parts, uri)
    ensures MatchUri(parts, uri).Failed? <==> !WithinLimits(parts, uri)
  {
    MatchesPieces(parts, uri);
    if MatchUri(parts, uri).Matched? {
      var texts := MatchReads(parts, uri);
    } else if WithinLimits(parts, uri) && CanRead(parts, uri) {
      var texts :| Reads(Slots(parts), texts, uri);
      ReadingMatches(parts, texts, uri);
    }
  }
}
