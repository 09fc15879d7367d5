/** The part of Go's `regexp` that the two template engines use: patterns are a row of single
    characters, single-character classes and greedy captured runs over a class, and the match is the
    leftmost-first one that backtracking finds. `Compile` reads such a pattern from its text. */
module Regex {
  import opened Wrappers
  import opened Text

  datatype CharClass = In(chars: set<char>) | NotIn(chars: set<char>) {
    predicate Has(c: char) {
      if In? then c in chars else c !in chars
    }

    predicate Holds(s: string) {
      forall c :: c in s ==> Has(c)
    }
  }

  datatype Piece =
    | Chr(c: char)                                    // c
    | OneOf(cls: CharClass)                           // [..]
    | Run(cls: CharClass, min: nat, single: bool)     // ([..]+), ([..]*) or, when single, ([..]?)
    | ListRun(cls: CharClass, sep: char)              // ([..]+(?:,[..]+)*)

  /** A match at the start of a string: the captured groups and how much was matched. */
  datatype Found = Found(captures: seq<string>, length: nat)

  /** The longest prefix of `s` over the class. */
  function RunLength(cls: CharClass, s: string): (n: nat)
    ensures n <= |s|
    ensures cls.Holds(s[..n])
    ensures n < |s| ==> !cls.Has(s[n])
  {
    if s == "" || !cls.Has(s[0]) then 0 else 1 + RunLength(cls, s[1..])
  }

  lemma {:induction false} RunLengthIs(cls: CharClass, w: string, rest: string)
    requires cls.Holds(w)
    requires rest == "" || !cls.Has(rest[0])
    ensures RunLength(cls, w + rest) == |w|
  {
    if w == "" {
      assert w + rest == rest;
    } else {
      assert (w + rest)[1..] == w[1..] + rest;
      RunLengthIs(cls, w[1..], rest);
    }
  }

  lemma {:induction false} RunLengthLongest(cls: CharClass, s: string, k: nat)
    requires k <= |s| && cls.Holds(s[..k])
    ensures k <= RunLength(cls, s)
  {
    if k > 0 {
      assert s[..k][0] == s[0];
      assert forall c :: c in s[1..][..k - 1] ==> c in s[..k];
      RunLengthLongest(cls, s[1..], k - 1);
    }
  }

  function Reach(p: Piece, s: string): (n: nat)
    requires p.Run?
    ensures n <= RunLength(p.cls, s)
  {
    var n := RunLength(p.cls, s);
    if p.single && n > 1 then 1 else n
  }

  /** Matches the pieces at the start of `s`; when anchored the match must use up all of `s`. */
  function Match(ps: seq<Piece>, s: string, anchored: bool): (r: Option<Found>)
    ensures r.Some? ==> r.value.length <= |s|
    decreases |ps|, |s| + 2, 0
  {
    if ps == [] then
      if anchored && s != "" then None else Some(Found([], 0))
    else match ps[0]
      case Chr(c) => if s != "" && s[0] == c then Skip(Match(ps[1..], s[1..], anchored)) else None
      case OneOf(cls) => if s != "" && cls.Has(s[0]) then Skip(Match(ps[1..], s[1..], anchored)) else None
      case Run(_, _, _) => TryRun(ps, s, anchored, Reach(ps[0], s))
      case ListRun(cls, _) => TryList(ps, s, anchored, RunLength(cls, s))
  }

  function Skip(r: Option<Found>): Option<Found> {
    if r.None? then None else Some(Found(r.value.captures, r.value.length + 1))
  }

  /** The first piece captures `s[..e]` and the others go on from there. */
  function After(ps: seq<Piece>, s: string, anchored: bool, e: nat): (r: Option<Found>)
    requires ps != [] && e <= |s|
    ensures r.Some? ==> r.value.length <= |s|
    decreases |ps|, 0, 0
  {
    var r := Match(ps[1..], s[e..], anchored);
    if r.None? then None else Some(Found([s[..e]] + r.value.captures, e + r.value.length))
  }

  /** A greedy run: the longest prefix first, then one character less each time. */
  function TryRun(ps: seq<Piece>, s: string, anchored: bool, k: nat): (r: Option<Found>)
    requires ps != [] && ps[0].Run? && k <= |s|
    ensures r.Some? ==> r.value.length <= |s|
    decreases |ps|, |s| + 1, k
  {
    if k < ps[0].min then None
    else
      var r := After(ps, s, anchored, k);
      if r.Some? || k == 0 then r else TryRun(ps, s, anchored, k - 1)
  }

  /** The first run of a list, then the repeated group `(?:,[..]+)*` from where it ends. */
  function TryList(ps: seq<Piece>, s: string, anchored: bool, k: nat): (r: Option<Found>)
    requires ps != [] && ps[0].ListRun? && k <= |s|
    ensures r.Some? ==> r.value.length <= |s|
    decreases |ps|, |s| + 1, k
  {
    if k < 1 then None
    else
      var r := TryTail(ps, s, anchored, k);
      if r.Some? then r else TryList(ps, s, anchored, k - 1)
  }

  /** One more round of the repeated group if possible, else the group is over. */
  function TryTail(ps: seq<Piece>, s: string, anchored: bool, e: nat): (r: Option<Found>)
    requires ps != [] && ps[0].ListRun? && e <= |s|
    ensures r.Some? ==> r.value.length <= |s|
    decreases |ps|, |s| - e, |s| + 1
  {
    var more := if e < |s| && s[e] == ps[0].sep
                then TryItem(ps, s, anchored, e, RunLength(ps[0].cls, s[e + 1..])) else None;
    if more.Some? then more else After(ps, s, anchored, e)
  }

  function TryItem(ps: seq<Piece>, s: string, anchored: bool, e: nat, m: nat): (r: Option<Found>)
    requires ps != [] && ps[0].ListRun? && e + 1 + m <= |s|
    ensures r.Some? ==> r.value.length <= |s|
    decreases |ps|, |s| - e, m
  {
    if m < 1 then None
    else
      var r := TryTail(ps, s, anchored, e + 1 + m);
      if r.Some? then r else TryItem(ps, s, anchored, e, m - 1)
  }

  // ---- The repeated group adds nothing: its class already contains the separator ----

  predicate Sensible(p: Piece) {
    p.ListRun? ==> p.cls.Has(p.sep)
  }

  function Plain(p: Piece): Piece {
    if p.ListRun? then Run(p.cls, 1, false) else p
  }

  function PlainAll(ps: seq<Piece>): (r: seq<Piece>)
    ensures |r| == |ps|
  {
    if ps == [] then [] else [Plain(ps[0])] + PlainAll(ps[1..])
  }

  lemma {:induction false} TailSkips(ps: seq<Piece>, s: string, anchored: bool, e: nat, n: nat)
    requires ps != [] && ps[0].ListRun? && Sensible(ps[0])
    requires n == RunLength(ps[0].cls, s) && e <= n
    requires forall x :: e < x <= n ==> After(ps, s, anchored, x).None?
    ensures TryTail(ps, s, anchored, e) == After(ps, s, anchored, e)
    decreases n - e
  {
    if e < |s| && s[e] == ps[0].sep {
      var m := RunLength(ps[0].cls, s[e + 1..]);
      assert e < n;
      assert s[..n][e + 1..] + s[n..] == s[e + 1..];
      assert forall c :: c in s[..n][e + 1..] ==> c in s[..n];
      RunLengthIs(ps[0].cls, s[..n][e + 1..], s[n..]);
      ItemFails(ps, s, anchored, e, m, n);
    }
  }

  lemma {:induction false} ItemFails(ps: seq<Piece>, s: string, anchored: bool, e: nat, m: nat, n: nat)
    requires ps != [] && ps[0].ListRun? && Sensible(ps[0])
    requires n == RunLength(ps[0].cls, s) && e + 1 + m <= n
    requires forall x :: e < x <= n ==> After(ps, s, anchored, x).None?
    ensures TryItem(ps, s, anchored, e, m).None?
    decreases n - e, m
  {
    if m >= 1 {
      TailSkips(ps, s, anchored, e + 1 + m, n);
      ItemFails(ps, s, anchored, e, m - 1, n);
    }
  }

  lemma {:induction false} ListIsRun(ps: seq<Piece>, qs: seq<Piece>, s: string, anchored: bool, k: nat, n: nat)
    requires ps != [] && ps[0].ListRun? && Sensible(ps[0])
    requires qs != [] && qs[0] == Plain(ps[0])
    requires forall t :: Match(ps[1..], t, anchored) == Match(qs[1..], t, anchored)
    requires n == RunLength(ps[0].cls, s) && k <= n
    requires forall x :: k < x <= n ==> After(ps, s, anchored, x).None?
    ensures TryList(ps, s, anchored, k) == TryRun(qs, s, anchored, k)
    decreases k
  {
    if k >= 1 {
      TailSkips(ps, s, anchored, k, n);
      if After(ps, s, anchored, k).None? {
        ListIsRun(ps, qs, s, anchored, k - 1, n);
      }
    }
  }

  lemma {:induction false} RunIsRun(ps: seq<Piece>, qs: seq<Piece>, s: string, anchored: bool, k: nat)
    requires ps != [] && ps[0].Run? && qs != [] && qs[0] == ps[0] && k <= |s|
    requires forall t :: Match(ps[1..], t, anchored) == Match(qs[1..], t, anchored)
    ensures TryRun(ps, s, anchored, k) == TryRun(qs, s, anchored, k)
    decreases k
  {
    assert After(ps, s, anchored, k) == After(qs, s, anchored, k);
    if k >= 1 {
      RunIsRun(ps, qs, s, anchored, k - 1);
    }
  }

  /** `([^/]+(?:,[^/]+)*)` matches and captures exactly what `([^/]+)` does, in every context. */
  lemma {:induction false} PlainMatch(ps: seq<Piece>, s: string, anchored: bool)
    requires forall p :: p in ps ==> Sensible(p)
    ensures Match(ps, s, anchored) == Match(PlainAll(ps), s, anchored)
    decreases |ps|
  {
    if ps != [] {
      var qs := PlainAll(ps);
      assert qs[1..] == PlainAll(ps[1..]);
      forall t ensures Match(ps[1..], t, anchored) == Match(qs[1..], t, anchored) {
        PlainMatch(ps[1..], t, anchored);
      }
      match ps[0]
      case Chr(_) =>
      case OneOf(_) =>
      case Run(_, _, _) => RunIsRun(ps, qs, s, anchored, Reach(ps[0], s));
      case ListRun(cls, _) =>
        var n := RunLength(cls, s);
        ListIsRun(ps, qs, s, anchored, n, n);
    }
  }

  // ---- What a match means ----

  predicate Simple(ps: seq<Piece>) {
    forall p :: p in ps ==> !p.ListRun?
  }

  /** The pieces spell out `s` when their runs are the given captures. */
  predicate Spells(ps: seq<Piece>, s: string, captures: seq<string>)
    decreases |ps|
  {
    if ps == [] then s == "" && captures == []
    else match ps[0]
      case Chr(c) => s != "" && s[0] == c && Spells(ps[1..], s[1..], captures)
      case OneOf(cls) => s != "" && cls.Has(s[0]) && Spells(ps[1..], s[1..], captures)
      case Run(cls, min, single) =>
        captures != [] && captures[0] <= s && cls.Holds(captures[0])
        && min <= |captures[0]| && (single ==> |captures[0]| <= 1)
        && Spells(ps[1..], s[|captures[0]|..], captures[1..])
      case ListRun(_, _) => false
  }

  /** A found match spells the part of the string it covers, and all of it when anchored. */
  lemma {:induction false} MatchSound(ps: seq<Piece>, s: string, anchored: bool)
    requires Simple(ps) && Match(ps, s, anchored).Some?
    ensures var f := Match(ps, s, anchored).value;
            Spells(ps, s[..f.length], f.captures) && (anchored ==> f.length == |s|)
    decreases |ps|, |s| + 2
  {
    var f := Match(ps, s, anchored).value;
    if ps != [] {
      if ps[0].Run? {
        RunSound(ps, s, anchored, Reach(ps[0], s));
      } else {
        MatchSound(ps[1..], s[1..], anchored);
        assert s[..f.length][1..] == s[1..][..f.length - 1];
      }
    }
  }

  lemma {:induction false} RunSound(ps: seq<Piece>, s: string, anchored: bool, k: nat)
    requires Simple(ps) && ps != [] && ps[0].Run? && k <= Reach(ps[0], s)
    requires TryRun(ps, s, anchored, k).Some?
    ensures var f := TryRun(ps, s, anchored, k).value;
            Spells(ps, s[..f.length], f.captures) && (anchored ==> f.length == |s|)
    decreases |ps|, |s| + 1, k
  {
    var f := TryRun(ps, s, anchored, k).value;
    if After(ps, s, anchored, k).Some? {
      MatchSound(ps[1..], s[k..], anchored);
      assert s[..f.length][k..] == s[k..][..f.length - k];
      assert forall c :: c in s[..k] ==> c in s[..RunLength(ps[0].cls, s)];
      assert f.captures[0] == s[..k] <= s[..f.length];
      assert f.captures[1..] == Match(ps[1..], s[k..], anchored).value.captures;
    } else {
      RunSound(ps, s, anchored, k - 1);
    }
  }

  /** Run lengths in order of preference: a longer earlier run wins. */
  predicate AtLeastAsGreedy(a: seq<string>, b: seq<string>) {
    a == [] || b == [] || |a[0]| > |b[0]| || (|a[0]| == |b[0]| && AtLeastAsGreedy(a[1..], b[1..]))
  }

  /** Leftmost-first: when some captures spell a prefix of `s` (all of it when anchored) a match is
      found, and its runs are at least as greedy as those captures. */
  lemma {:induction false} MatchGreediest(ps: seq<Piece>, s: string, anchored: bool, len: nat, caps: seq<string>)
    requires Simple(ps) && len <= |s| && Spells(ps, s[..len], caps) && (anchored ==> len == |s|)
    ensures Match(ps, s, anchored).Some?
    ensures AtLeastAsGreedy(Match(ps, s, anchored).value.captures, caps)
    decreases |ps|, |s| + 2
  {
    if ps != [] {
      if ps[0].Run? {
        var w := |caps[0]|;
        assert s[..len][..w] == s[..w] == caps[0];
        RunLengthLongest(ps[0].cls, s, w);
        RunGreediest(ps, s, anchored, Reach(ps[0], s), len, caps);
      } else {
        assert s[..len][1..] == s[1..][..len - 1];
        MatchGreediest(ps[1..], s[1..], anchored, len - 1, caps);
      }
    }
  }

  lemma {:induction false} RunGreediest(ps: seq<Piece>, s: string, anchored: bool, k: nat, len: nat, caps: seq<string>)
    requires Simple(ps) && ps != [] && ps[0].Run? && k <= |s|
    requires len <= |s| && Spells(ps, s[..len], caps) && (anchored ==> len == |s|)
    requires |caps[0]| <= k
    ensures TryRun(ps, s, anchored, k).Some?
    ensures AtLeastAsGreedy(TryRun(ps, s, anchored, k).value.captures, caps)
    decreases |ps|, |s| + 1, k
  {
    var w := |caps[0]|;
    if w == k {
      assert s[..len][w..] == s[w..][..len - w];
      MatchGreediest(ps[1..], s[w..], anchored, len - w, caps[1..]);
    } else if After(ps, s, anchored, k).None? {
      RunGreediest(ps, s, anchored, k - 1, len, caps);
    }
  }

  /** The first attempt of a run succeeds when the other pieces match what it leaves. */
  lemma {:induction false} RunFirst(ps: seq<Piece>, s: string, anchored: bool, k: nat)
    requires ps != [] && ps[0].Run? && k == Reach(ps[0], s) && ps[0].min <= k
    requires Match(ps[1..], s[k..], anchored).Some?
    ensures Match(ps, s, anchored) == After(ps, s, anchored, k)
  {
    assert TryRun(ps, s, anchored, k) == After(ps, s, anchored, k);
  }

  /** A run that cannot go past its word is that word. */
  lemma {:induction false} RunTakesWord(ps: seq<Piece>, w: string, rest: string, anchored: bool)
    requires ps != [] && ps[0].Run? && ps[0].cls.Holds(w) && ps[0].min <= |w|
    requires ps[0].single ==> |w| <= 1
    requires rest == "" || !ps[0].cls.Has(rest[0]) || (ps[0].single && |w| == 1)
    requires Match(ps[1..], rest, anchored).Some?
    ensures var f := Match(ps[1..], rest, anchored).value;
            Match(ps, w + rest, anchored) == Some(Found([w] + f.captures, |w| + f.length))
  {
    var s := w + rest;
    assert s[|w|..] == rest && s[..|w|] == w;
    ReachIs(ps[0], w, rest);
    RunFirst(ps, s, anchored, |w|);
  }

  lemma {:induction false} ReachIs(p: Piece, w: string, rest: string)
    requires p.Run? && p.cls.Holds(w) && (p.single ==> |w| <= 1)
    requires rest == "" || !p.cls.Has(rest[0]) || (p.single && |w| == 1)
    ensures Reach(p, w + rest) == |w|
  {
    if rest == "" || !p.cls.Has(rest[0]) {
      RunLengthIs(p.cls, w, rest);
    } else {
      assert (w + rest)[..1] == w;
      RunLengthLongest(p.cls, w + rest, 1);
    }
  }

  /** A run before pieces that match the rest. */
  lemma {:induction false} RunThen(p: Piece, ps: seq<Piece>, w: string, rest: string, anchored: bool, f: Found)
    requires p.Run? && p.cls.Holds(w) && p.min <= |w| && (p.single ==> |w| <= 1)
    requires rest == "" || !p.cls.Has(rest[0]) || (p.single && |w| == 1)
    requires Match(ps, rest, anchored) == Some(f)
    ensures Match([p] + ps, w + rest, anchored) == Some(Found([w] + f.captures, |w| + f.length))
  {
    assert ([p] + ps)[1..] == ps;
    RunTakesWord([p] + ps, w, rest, anchored);
  }

  /** A character before pieces that match the rest. */
  lemma {:induction false} CharThen(c: char, ps: seq<Piece>, rest: string, anchored: bool, f: Found)
    requires Match(ps, rest, anchored) == Some(f)
    ensures Match([Chr(c)] + ps, [c] + rest, anchored) == Some(Found(f.captures, f.length + 1))
  {
    assert ([Chr(c)] + ps)[1..] == ps && ([c] + rest)[1..] == rest;
  }

  lemma {:induction false} CharFails(ps: seq<Piece>, s: string, anchored: bool)
    requires ps != [] && ps[0].Chr? && (s == "" || s[0] != ps[0].c)
    ensures Match(ps, s, anchored).None?
  {
  }

  /** The pieces match all of `s`, with these captures. (Stated for every anchored search, of which there
      is one, so that proofs about whole parts do not look into the matcher.) */
  ghost predicate Whole(ps: seq<Piece>, s: string, captures: seq<string>) {
    forall anchored: bool :: anchored ==> Match(ps, s, anchored) == Some(Found(captures, |s|))
  }

  lemma {:induction false} WholeChar(c: char, ps: seq<Piece>, rest: string, captures: seq<string>)
    requires Whole(ps, rest, captures)
    ensures Whole([Chr(c)] + ps, [c] + rest, captures)
  {
    CharThen(c, ps, rest, true, Found(captures, |rest|));
  }

  lemma {:induction false} WholeIsMatch(ps: seq<Piece>, s: string, captures: seq<string>)
    ensures Whole(ps, s, captures) <==> Match(ps, s, true) == Some(Found(captures, |s|))
  {
    var anchored := true;
    assert Whole(ps, s, captures) ==> Match(ps, s, anchored) == Some(Found(captures, |s|));
  }

  // ---- Searching ----

  /** A match found by a search: the whole text and the groups. */
  datatype Submatch = Submatch(full: string, groups: seq<string>)

  /** `FindAllStringSubmatch(s, -1)` for pieces that never match the empty string. */
  function FindAll(ps: seq<Piece>, s: string): seq<Submatch>
    decreases |s|
  {
    if s == "" then []
    else
      var r := Match(ps, s, false);
      if r.Some? && r.value.length > 0
      then [Submatch(s[..r.value.length], r.value.captures)] + FindAll(ps, s[r.value.length..])
      else FindAll(ps, s[1..])
  }

  lemma {:induction false} FoundFirst(ps: seq<Piece>, a: string, rest: string, caps: seq<string>)
    requires a != "" && Match(ps, a + rest, false) == Some(Found(caps, |a|))
    ensures FindAll(ps, a + rest) == [Submatch(a, caps)] + FindAll(ps, rest)
  {
    AppendDrop(a, rest);
  }

  // ---- The text of a pattern ----

  /** The characters with a meaning of their own in a pattern. */
  predicate IsMeta(c: char) {
    c in "\\.+*?()|[]{}^$"
  }

  /** `regexp.QuoteMeta`. */
  function QuoteMeta(s: string): string {
    if s == "" then "" else QuoteMeta1(s[0]) + QuoteMeta(s[1..])
  }

  function QuoteMeta1(c: char): string {
    if IsMeta(c) then ['\\', c] else [c]
  }

  lemma {:induction false} QuoteMetaConcat(a: string, b: string)
    ensures QuoteMeta(a + b) == QuoteMeta(a) + QuoteMeta(b)
  {
    if a == "" {
      assert a + b == b;
    } else {
      assert (a + b)[1..] == a[1..] + b;
      QuoteMetaConcat(a[1..], b);
    }
  }

  function Chars(s: string): (ps: seq<Piece>)
    ensures |ps| == |s|
    ensures forall i :: 0 <= i < |s| ==> ps[i] == Chr(s[i])
  {
    seq(|s|, i requires 0 <= i < |s| => Chr(s[i]))
  }

  function Prepend(ps: seq<Piece>, rest: Option<seq<Piece>>): Option<seq<Piece>> {
    if rest.None? then None else Some(ps + rest.value)
  }

  function SetOf(s: string): set<char> {
    set c | c in s
  }

  /** Reads the set of a class that ends in `]`: its characters and what follows the bracket. */
  function ReadSet(r: string): (o: Option<(string, string)>)
    ensures o.Some? ==> |o.value.0| + 1 + |o.value.1| == |r|
  {
    var n := IndexOf(r, ']');
    if n == |r| then None else Some((r[..n], r[n + 1..]))
  }

  /** Reads one captured group, given the text after its opening parenthesis. */
  function ReadGroup(r: string): (o: Option<(Piece, string)>)
    ensures o.Some? ==> |o.value.1| < |r|
  {
    if ".+)" <= r then Some((Run(NotIn({'\n'}), 1, false), r[3..]))
    else if "\\" <= r then
      if |r| >= 4 && r[2..4] == "?)" then Some((Run(In({r[1]}), 0, true), r[4..])) else None
    else if "[^" <= r then
      var o := ReadSet(r[2..]);
      if o.None? then None
      else
        var (chars, rest) := o.value;
        var again := ListTail(chars);
        if again <= rest then Some((ListRun(NotIn(SetOf(chars)), ','), rest[|again|..]))
        else if "+)" <= rest then Some((Run(NotIn(SetOf(chars)), 1, false), rest[2..]))
        else if "*)" <= rest then Some((Run(NotIn(SetOf(chars)), 0, false), rest[2..]))
        else None
    else if "[" <= r then
      var o := ReadSet(r[1..]);
      if o.Some? && "?)" <= o.value.1 then Some((Run(In(SetOf(o.value.0)), 0, true), o.value.1[2..])) else None
    else None
  }

  /** Reads the first piece of a pattern. */
  function ReadPiece(r: string): (o: Option<(Piece, string)>)
    requires r != ""
    ensures o.Some? ==> |o.value.1| < |r|
  {
    if r[0] == '\\' then
      if |r| >= 2 then Some((Chr(r[1]), r[2..])) else None
    else if r[0] == '(' then ReadGroup(r[1..])
    else if r[0] == '[' then
      var o := ReadSet(r[1..]);
      if o.Some? then Some((OneOf(In(SetOf(o.value.0))), o.value.1)) else None
    else if IsMeta(r[0]) then None
    else Some((Chr(r[0]), r[1..]))
  }

  /** Reads a pattern; None when it is not one of the patterns these pieces cover. */
  function Compile(r: string): Option<seq<Piece>>
    decreases |r|
  {
    if r == "" then Some([])
    else
      var o := ReadPiece(r);
      if o.None? then None else Prepend([o.value.0], Compile(o.value.1))
  }

  lemma {:induction false} CompileNext(r: string, p: Piece, rest: string)
    requires r != "" && ReadPiece(r) == Some((p, rest))
    ensures Compile(r) == Prepend([p], Compile(rest))
  {
  }

  /** `regexp.Compile` of a pattern anchored at both ends. */
  function CompileAnchored(pattern: string): Option<seq<Piece>> {
    if |pattern| < 2 || pattern[0] != '^' || pattern[|pattern| - 1] != '$' then None
    else Compile(pattern[1..|pattern| - 1])
  }

  /** `FindStringSubmatch` with such a pattern: the groups, if it matches. */
  function FindSubmatch(pattern: string, s: string): Option<seq<string>> {
    var ps := CompileAnchored(pattern);
    if ps.None? then None
    else
      var f := Match(ps.value, s, true);
      if f.None? then None else Some(f.value.captures)
  }

  lemma {:induction false} FindSubmatchIs(body: string, ps: seq<Piece>, s: string)
    requires Compile(body) == Some(ps)
    ensures CompileAnchored("^" + body + "$") == Some(ps)
    ensures FindSubmatch("^" + body + "$", s)
         == (var f := Match(ps, s, true); if f.None? then None else Some(f.value.captures))
  {
    assert ("^" + body + "$")[1..|body| + 1] == body;
  }

  /** Quoted text stands for its own characters, whatever follows. */
  lemma {:induction false} CompileQuoted(s: string, rest: string)
    ensures Compile(QuoteMeta(s) + rest) == Prepend(Chars(s), Compile(rest))
  {
    if s == "" {
      assert QuoteMeta(s) + rest == rest;
      assert Compile(rest).Some? ==> Chars(s) + Compile(rest).value == Compile(rest).value;
    } else {
      var more := QuoteMeta(s[1..]) + rest;
      assert QuoteMeta(s) + rest == QuoteMeta1(s[0]) + more;
      CompileQuotedChar(s[0], more);
      CompileQuoted(s[1..], rest);
      PrependTwice([Chr(s[0])], Chars(s[1..]), Compile(rest));
      assert [Chr(s[0])] + Chars(s[1..]) == Chars(s);
    }
  }

  lemma {:induction false} PrependTwice(a: seq<Piece>, b: seq<Piece>, rest: Option<seq<Piece>>)
    ensures Prepend(a, Prepend(b, rest)) == Prepend(a + b, rest)
  {
    assert rest.Some? ==> a + (b + rest.value) == a + b + rest.value;
  }

  lemma {:induction false} ReadQuoted(c: char, rest: string)
    ensures ReadPiece(QuoteMeta1(c) + rest) == Some((Chr(c), rest))
  {
    if IsMeta(c) {
      assert (['\\', c] + rest)[2..] == rest;
    } else {
      assert ([c] + rest)[1..] == rest;
      assert '\\' in "\\.+*?()|[]{}^$" && '(' in "\\.+*?()|[]{}^$" && '[' in "\\.+*?()|[]{}^$";
    }
  }

  lemma {:induction false} CompileQuotedChar(c: char, rest: string)
    ensures Compile(QuoteMeta1(c) + rest) == Prepend([Chr(c)], Compile(rest))
  {
    ReadQuoted(c, rest);
    CompileNext(QuoteMeta1(c) + rest, Chr(c), rest);
  }

  lemma {:induction false} ReadSetIs(chars: string, tail: string)
    requires ']' !in chars
    ensures ReadSet(chars + "]" + tail) == Some((chars, tail))
  {
    assert chars + "]" + tail == chars + [']'] + tail;
    IndexOfUnique(chars, ']', tail);
    assert (chars + [']'] + tail)[..|chars|] == chars;
    assert (chars + [']'] + tail)[|chars| + 1..] == tail;
  }

  lemma {:induction false} CompileGroup(group: string, p: Piece, rest: string)
    requires ReadGroup(group + rest) == Some((p, rest))
    ensures Compile("(" + group + rest) == Prepend([p], Compile(rest))
  {
    assert ("(" + group + rest)[1..] == group + rest;
    CompileNext("(" + group + rest, p, rest);
  }

  lemma {:induction false} ReadNegated(r: string, chars: string, tail: string)
    requires ']' !in chars && "[^" <= r && r[2..] == chars + "]" + tail
    ensures ReadGroup(r) ==
      (var again := ListTail(chars);
       if again <= tail then Some((ListRun(NotIn(SetOf(chars)), ','), tail[|again|..]))
       else if "+)" <= tail then Some((Run(NotIn(SetOf(chars)), 1, false), tail[2..]))
       else if "*)" <= tail then Some((Run(NotIn(SetOf(chars)), 0, false), tail[2..]))
       else None)
  {
    ReadSetIs(chars, tail);
    assert r[0] == '[';
  }

  /** `([^X]+)` or `([^X]*)`. */
  function RunGroup(chars: string, quant: string): string {
    "(" + ("[^" + chars + "]" + quant)
  }

  lemma {:induction false} ReadRunGroup(chars: string, quant: string, min: nat, rest: string)
    requires ']' !in chars && ((quant == "+)" && min == 1) || (quant == "*)" && min == 0))
    ensures ReadGroup("[^" + chars + "]" + quant + rest) == Some((Run(NotIn(SetOf(chars)), min, false), rest))
  {
    var r := "[^" + chars + "]" + quant + rest;
    var tail := quant + rest;
    assert r[2..] == chars + "]" + tail;
    assert r[0] == '[' && r[1] == '^';
    ReadNegated(r, chars, tail);
    assert tail[2..] == rest;
    assert tail[0] == quant[0] && tail[1] == ')';
  }

  /** A negated class with a quantifier, whatever follows. */
  lemma {:induction false} CompileNegatedGroup(chars: string, quant: string, min: nat, rest: string)
    requires ']' !in chars && ((quant == "+)" && min == 1) || (quant == "*)" && min == 0))
    ensures Compile(RunGroup(chars, quant) + rest)
         == Prepend([Run(NotIn(SetOf(chars)), min, false)], Compile(rest))
  {
    ReadRunGroup(chars, quant, min, rest);
    var group := "[^" + chars + "]" + quant;
    CompileGroup(group, Run(NotIn(SetOf(chars)), min, false), rest);
  }

  /** `[^X]+(?:,[^X]+)*)`: the text after the parenthesis of a list group. */
  function ListGroup(chars: string): string {
    "[^" + chars + "]" + ListTail(chars)
  }

  function ListTail(chars: string): string {
    "+(?:,[^" + chars + "]+)*)"
  }

  lemma {:induction false} CompileListGroup(chars: string, rest: string)
    requires ']' !in chars
    ensures Compile("(" + ListGroup(chars) + rest)
         == Prepend([ListRun(NotIn(SetOf(chars)), ',')], Compile(rest))
  {
    var r := ListGroup(chars) + rest;
    var tail := ListTail(chars) + rest;
    assert r[2..] == chars + "]" + tail;
    assert r[0] == '[' && r[1] == '^';
    ReadNegated(r, chars, tail);
    assert tail[|ListTail(chars)|..] == rest;
    CompileGroup(ListGroup(chars), ListRun(NotIn(SetOf(chars)), ','), rest);
  }

  lemma {:induction false} CompileAnyGroup(rest: string)
    ensures Compile("(.+)" + rest) == Prepend([Run(NotIn({'\n'}), 1, false)], Compile(rest))
  {
    assert (".+)" + rest)[3..] == rest;
    CompileGroup(".+)", Run(NotIn({'\n'}), 1, false), rest);
    assert "(" + ".+)" + rest == "(.+)" + rest;
  }

  lemma {:induction false} CompileOneOf(chars: string, rest: string)
    requires ']' !in chars
    ensures Compile("[" + chars + "]" + rest) == Prepend([OneOf(In(SetOf(chars)))], Compile(rest))
  {
    var r := "[" + chars + "]" + rest;
    assert r[1..] == chars + "]" + rest;
    ReadSetIs(chars, rest);
    CompileNext(r, OneOf(In(SetOf(chars))), rest);
  }
}
