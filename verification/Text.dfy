/** Optional values, and the few operations on strings that the Go code takes from its standard
    library. A string is a sequence of Unicode characters; `ByteLen` is Go's `len`. */
module Wrappers {
  datatype Option<+T> = None | Some(value: T)

  datatype Result<+T, +E> = Ok(value: T) | Err(error: E)
}

module Text {
  /** The position of the first `c` in `s`, or `|s|` when there is none. */
  function IndexOf(s: string, c: char): (n: nat)
    ensures n <= |s|
    ensures c !in s[..n]
    ensures n < |s| ==> s[n] == c
  {
    if s == "" || s[0] == c then 0 else 1 + IndexOf(s[1..], c)
  }

  lemma {:induction false} IndexOfUnique(a: string, c: char, b: string)
    requires c !in a
    ensures IndexOf(a + [c] + b, c) == |a|
  {
    var s := a + [c] + b;
    if a != "" {
      assert s[1..] == a[1..] + [c] + b;
      IndexOfUnique(a[1..], c, b);
    }
  }

  // Facts about sequences, each proved on its own so that larger proofs stay free of indices.

  lemma {:induction false} Assoc<T>(a: seq<T>, b: seq<T>, c: seq<T>)
    ensures a + b + c == a + (b + c)
  {
  }

  lemma {:induction false} Pair<T>(x: T, y: T, s: seq<T>)
    ensures [x, y] + s == [x] + ([y] + s)
  {
  }

  lemma {:induction false} HeadTail<T>(s: seq<T>)
    requires s != []
    ensures s == [s[0]] + s[1..]
  {
  }

  lemma {:induction false} PrefixCut<T>(a: seq<T>, s: seq<T>)
    requires a <= s
    ensures s == a + s[|a|..]
  {
  }

  lemma {:induction false} Cut<T>(s: seq<T>, k: nat)
    requires k <= |s|
    ensures s == s[..k] + s[k..]
  {
  }

  lemma {:induction false} CutAround<T>(s: seq<T>, p: nat, part: seq<T>)
    requires p + |part| <= |s| && s[p..p + |part|] == part
    ensures s == s[..p] + (part + s[p + |part|..])
  {
  }

  lemma {:induction false} AppendDrop<T>(a: seq<T>, b: seq<T>)
    ensures (a + b)[|a|..] == b && (a + b)[..|a|] == a
  {
  }

  lemma {:induction false} DropDrop<T>(s: seq<T>, i: nat, j: nat)
    requires i + j <= |s|
    ensures s[i..][j..] == s[i + j..]
  {
  }

  // Moving elements along a chain `hand + (queue + rest)` keeps the chain.

  lemma {:induction false} Pull<T>(q: seq<T>, rest: seq<T>)
    requires q != []
    ensures [] + (q + rest) == q[..1] + (q[1..] + rest)
  {
    Cut(q, 1);
    Assoc(q[..1], q[1..], rest);
    EmptyPlus(q + rest);
  }

  lemma {:induction false} PullLast<T>(q: seq<T>)
    requires q != []
    ensures [] + q == q[..1] + q[1..]
  {
    Cut(q, 1);
    EmptyPlus(q);
  }

  lemma {:induction false} Push<T>(q: seq<T>, hand: seq<T>, rest: seq<T>)
    ensures q + (hand + rest) == (q + hand) + ([] + rest)
  {
    EmptyPlus(rest);
    Assoc(q, hand, rest);
  }

  lemma {:induction false} EmptyPlus<T>(a: seq<T>)
    ensures [] + a == a
  {
  }

  /** `strings.Replace(s, old, new, 1)`: only the first occurrence is replaced. */
  function ReplaceFirst(s: string, target: string, replacement: string): string {
    if target <= s then replacement + s[|target|..]
    else if s == "" then ""
    else [s[0]] + ReplaceFirst(s[1..], target, replacement)
  }

  /** A target that carries a mark at offset `o` is replaced where it stands when nothing before
      it carries that mark. */
  lemma {:induction false} ReplaceFirstAt(pre: string, target: string, replacement: string, post: string, o: nat)
    requires o < |target|
    requires target[o] !in pre && target[o] !in target[..o]
    ensures ReplaceFirst(pre + target + post, target, replacement) == pre + replacement + post
  {
    var s := pre + target + post;
    if pre == "" {
      assert s == target + post;
      assert target <= s;
      assert s[|target|..] == post;
    } else {
      assert s[o] != target[o] by {
        assert s[o] == if o < |pre| then pre[o] else target[..o][o - |pre|];
      }
      assert s[1..] == pre[1..] + target + post;
      assert target[o] !in pre[1..];
      ReplaceFirstAt(pre[1..], target, replacement, post, o);
      assert [s[0]] + (pre[1..] + replacement + post) == pre + replacement + post;
    }
  }

  lemma {:induction false} ReplaceFirstAbsent(s: string, target: string, replacement: string, c: char)
    requires c in target && c !in s
    ensures ReplaceFirst(s, target, replacement) == s
  {
    assert c in target && c !in s[..if |target| <= |s| then |target| else 0];
    if s != "" {
      ReplaceFirstAbsent(s[1..], target, replacement, c);
    }
  }

  /** `strings.Index`: where `target` first occurs, or -1. */
  function Index(s: string, target: string): (p: int)
    ensures -1 <= p
    ensures p >= 0 ==> p + |target| <= |s| && s[p..p + |target|] == target
  {
    if target <= s then 0
    else if s == "" then -1
    else
      var p := Index(s[1..], target);
      if p < 0 then -1 else p + 1
  }

  predicate Occurs(s: string, target: string) {
    Index(s, target) >= 0
  }

  /** `s` with the `n` characters from `p` replaced. */
  function Splice(s: string, p: nat, n: nat, replacement: string): string
    requires p + n <= |s|
  {
    s[..p] + (replacement + s[p + n..])
  }

  lemma {:induction false} SpliceLater(s: string, p: nat, n: nat, replacement: string)
    requires s != "" && p + n <= |s| - 1
    ensures [s[0]] + Splice(s[1..], p, n, replacement) == Splice(s, p + 1, n, replacement)
  {
    assert s[..p + 1] == [s[0]] + s[1..][..p];
    assert s[p + 1 + n..] == s[1..][p + n..];
    Assoc([s[0]], s[1..][..p], replacement + s[p + 1 + n..]);
  }

  lemma {:induction false} ReplaceFirstAtIndex(s: string, target: string, replacement: string)
    ensures ReplaceFirst(s, target, replacement)
         == (var p := Index(s, target); if p < 0 then s else Splice(s, p, |target|, replacement))
  {
    if target <= s {
      assert s[..0] == "" && "" + (replacement + s[|target|..]) == replacement + s[|target|..];
    } else if s != "" {
      ReplaceFirstAtIndex(s[1..], target, replacement);
      HeadTail(s);
      var p := Index(s[1..], target);
      if p >= 0 {
        SpliceLater(s, p, |target|, replacement);
      }
    }
  }

  lemma {:induction false} ReplacedAt(s: string, target: string, replacement: string, p: nat)
    requires Index(s, target) == p
    ensures p + |target| <= |s| && ReplaceFirst(s, target, replacement) == Splice(s, p, |target|, replacement)
  {
    ReplaceFirstAtIndex(s, target, replacement);
  }

  lemma {:induction false} StartsOnlyWithin(done: string, target: string, rest: string)
    requires done != "" && target != "" && target[0] !in target[1..]
    ensures target <= done + target + rest <==> target <= done
  {
    var s := done + target + rest;
    if |target| <= |done| {
      assert s[..|target|] == done[..|target|];
    } else {
      assert target[|done|] == target[1..][|done| - 1];
      assert s[|done|] == target[0];
    }
  }

  /** A target whose first character it has nowhere else does not overlap itself: before its own place it
      is found only where it lies whole in the text before. */
  lemma {:induction false} IndexBefore(done: string, target: string, rest: string)
    requires target != "" && target[0] !in target[1..]
    ensures Index(done + target + rest, target) == if Occurs(done, target) then Index(done, target) else |done|
  {
    var s := done + target + rest;
    if done == "" {
      assert s == target + rest;
    } else {
      assert s[1..] == done[1..] + target + rest;
      StartsOnlyWithin(done, target, rest);
      IndexBefore(done[1..], target, rest);
    }
  }

  lemma {:induction false} OccursLetter(s: string, target: string, c: char)
    requires Occurs(s, target) && c in target
    ensures c in s
  {
    var p := Index(s, target);
    assert c in s[p..p + |target|];
  }

  /** `strings.Join`. */
  function Join(xs: seq<string>, sep: string): string {
    if |xs| == 0 then "" else if |xs| == 1 then xs[0] else xs[0] + sep + Join(xs[1..], sep)
  }

  /** `strings.Split` at a single character: never empty. */
  function Split(s: string, c: char): (parts: seq<string>)
    ensures |parts| >= 1
    ensures forall p :: p in parts ==> c !in p
    decreases |s|
  {
    var n := IndexOf(s, c);
    if n == |s| then assert s[..n] == s; [s] else [s[..n]] + Split(s[n + 1..], c)
  }

  lemma {:induction false} SplitJoin(xs: seq<string>, c: char)
    requires |xs| >= 1
    requires forall x :: x in xs ==> c !in x
    ensures Split(Join(xs, [c]), c) == xs
    decreases |xs|
  {
    var s := Join(xs, [c]);
    if |xs| == 1 {
      assert c !in s;
      assert IndexOf(s, c) == |s|;
    } else {
      var rest := Join(xs[1..], [c]);
      assert s == xs[0] + [c] + rest;
      IndexOfUnique(xs[0], c, rest);
      assert s[..|xs[0]|] == xs[0];
      assert s[|xs[0]| + 1..] == rest;
      SplitJoin(xs[1..], c);
    }
  }

  /** `strings.Replace(s, string(c), "", -1)`. */
  function Without(s: string, c: char): (r: string)
    ensures c !in r
    ensures forall x :: x in r ==> x in s
    ensures c !in s ==> r == s
  {
    if s == "" then ""
    else if s[0] == c then Without(s[1..], c)
    else [s[0]] + Without(s[1..], c)
  }

  lemma {:induction false} WithoutConcat(a: string, b: string, c: char)
    ensures Without(a + b, c) == Without(a, c) + Without(b, c)
  {
    if a == "" {
      assert a + b == b;
    } else {
      assert (a + b)[1..] == a[1..] + b;
      WithoutConcat(a[1..], b, c);
    }
  }

  /** `unicode.IsSpace`: the characters with the White_Space property. */
  predicate IsSpace(c: char) {
    c in {'\t', '\n', '\U{0B}', '\U{0C}', '\r', ' ', '\U{85}', '\U{A0}', '\U{1680}', '\U{2028}', '\U{2029}',
          '\U{202F}', '\U{205F}', '\U{3000}'}
    || '\U{2000}' <= c <= '\U{200A}'
  }

  /** `strings.TrimSpace`. */
  function TrimSpace(s: string): (r: string)
    ensures forall x :: x in r ==> x in s
    ensures s != "" && !IsSpace(s[0]) && !IsSpace(s[|s| - 1]) ==> r == s
    decreases |s|
  {
    if s == "" then ""
    else if IsSpace(s[0]) then TrimSpace(s[1..])
    else if IsSpace(s[|s| - 1]) then TrimSpace(s[..|s| - 1])
    else s
  }

  type Byte = b: int | 0 <= b < 256

  /** The UTF-8 encoding of one character. */
  function Utf8(c: char): (bytes: seq<Byte>)
    ensures 1 <= |bytes| <= 4
  {
    var n := c as int;
    if n < 0x80 then [n]
    else if n < 0x800 then [0xC0 + n / 0x40, 0x80 + n % 0x40]
    else if n < 0x10000 then [0xE0 + n / 0x1000, 0x80 + n / 0x40 % 0x40, 0x80 + n % 0x40]
    else [0xF0 + n / 0x40000, 0x80 + n / 0x1000 % 0x40, 0x80 + n / 0x40 % 0x40, 0x80 + n % 0x40]
  }

  /** Go's `len` of a string. */
  function ByteLen(s: string): nat {
    if s == "" then 0 else |Utf8(s[0])| + ByteLen(s[1..])
  }
}
