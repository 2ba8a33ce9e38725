/** String operations the server uses, over `seq<char>`: case mapping (ASCII letters only),
    `str.title`, `str.replace` of one character, `str.join`, the substring test `in`,
    decimal rendering of a natural number, and concatenation of a rendered list
    (the effect of a `for` loop that appends to a string). */
module Text {

  predicate IsUpper(c: char) { 'A' <= c <= 'Z' }

  predicate IsLowerLetter(c: char) { 'a' <= c <= 'z' }

  /** A cased character in the sense of Python's `str.title` (ASCII letters here). */
  predicate IsCased(c: char) { IsUpper(c) || IsLowerLetter(c) }

  function LowerChar(c: char): (r: char)
    ensures !IsUpper(r)
    ensures IsCased(r) == IsCased(c)
  {
    if IsUpper(c) then (c as int + 32) as char else c
  }

  function UpperChar(c: char): (r: char)
    ensures !IsLowerLetter(r)
    ensures IsCased(r) == IsCased(c)
  {
    if IsLowerLetter(c) then (c as int - 32) as char else c
  }

  /** `s.lower()`: the result holds no upper-case letter. */
  function Lower(s: string): (r: string)
    ensures |r| == |s|
    ensures forall i :: 0 <= i < |r| ==> !IsUpper(r[i])
  {
    seq(|s|, i requires 0 <= i < |s| => LowerChar(s[i]))
  }

  /** `s.upper()`: the result holds no lower-case letter. */
  function Upper(s: string): (r: string)
    ensures |r| == |s|
    ensures forall i :: 0 <= i < |r| ==> !IsLowerLetter(r[i])
  {
    seq(|s|, i requires 0 <= i < |s| => UpperChar(s[i]))
  }

  /** `str.title` scanning from a state in which the previous character was (or was not)
      cased: a character is upper-cased when it starts a word and lower-cased otherwise. */
  function TitleFrom(s: string, previousCased: bool): (r: string)
    ensures |r| == |s|
    ensures forall i :: 0 <= i < |s| ==>
      r[i] == (if (if i == 0 then previousCased else IsCased(s[i - 1])) then LowerChar(s[i]) else UpperChar(s[i]))
    decreases |s|
  {
    if s == [] then []
    else
      var c := if previousCased then LowerChar(s[0]) else UpperChar(s[0]);
      var rest := TitleFrom(s[1..], IsCased(s[0]));
      assert forall i :: 1 <= i < |s| ==> s[1..][i - 1] == s[i];
      [c] + rest
  }

  /** `s.title()`. */
  function Title(s: string): string
  {
    TitleFrom(s, false)
  }

  /** `s.replace(old, new)` for single characters. */
  function ReplaceChar(s: string, from: char, to: char): (r: string)
    ensures |r| == |s|
    ensures from != to ==> from !in r
  {
    seq(|s|, i requires 0 <= i < |s| => if s[i] == from then to else s[i])
  }

  /** `sep.join(xs)`. */
  function Join(sep: string, xs: seq<string>): string
    decreases |xs|
  {
    if xs == [] then ""
    else if |xs| == 1 then xs[0]
    else Join(sep, xs[..|xs| - 1]) + sep + xs[|xs| - 1]
  }

  /** `xs[:n]`: Python slicing, which clamps to the length. */
  function Take<T>(xs: seq<T>, n: nat): (r: seq<T>)
    ensures |r| == if |xs| <= n then |xs| else n
    ensures r <= xs
  {
    if |xs| <= n then xs else xs[..n]
  }

  /** `needle in hay` for strings. */
  predicate Contains(hay: string, needle: string)
  {
    exists i :: 0 <= i <= |hay| && needle <= hay[i..]
  }

  lemma ContainsInMiddle(a: string, b: string, c: string)
    ensures Contains(a + b + c, b)
  {
    var s := a + b + c;
    assert s[|a|..] == b + c;
  }

  /** Occurrence is transitive: a text occurring in `b` occurs wherever `b` occurs. */
  lemma ContainsTransitive(a: string, b: string, c: string)
    requires Contains(a, b) && Contains(b, c)
    ensures Contains(a, c)
  {
    var i :| 0 <= i <= |a| && b <= a[i..];
    var j :| 0 <= j <= |b| && c <= b[j..];
    assert forall k :: 0 <= k < |c| ==> a[i + j + k] == b[j + k] == c[k];
    assert c <= a[i + j..];
  }

  function DigitChar(d: nat): char
    requires d < 10
  {
    "0123456789"[d]
  }

  /** `str(n)` for a natural number. */
  function NatToString(n: nat): (r: string)
    ensures 1 <= |r|
    decreases n
  {
    if n < 10 then [DigitChar(n)] else NatToString(n / 10) + [DigitChar(n % 10)]
  }

  /** The text a loop `for x in xs: s += f(x)` appends: the renderings of the elements in order. */
  function ConcatMap<T>(f: T -> string, xs: seq<T>): string
    decreases |xs|
  {
    if xs == [] then "" else ConcatMap(f, xs[..|xs| - 1]) + f(xs[|xs| - 1])
  }

  /** One more loop iteration appends the rendering of the next element. */
  lemma ConcatMapSnoc<T>(f: T -> string, xs: seq<T>, i: nat, prefix: string)
    requires i < |xs|
    ensures prefix + ConcatMap(f, xs[..i + 1]) == prefix + ConcatMap(f, xs[..i]) + f(xs[i])
  {
    assert xs[..i + 1][..i] == xs[..i];
  }

  lemma ConcatMapAll<T>(f: T -> string, xs: seq<T>)
    ensures ConcatMap(f, xs[..|xs|]) == ConcatMap(f, xs)
  {
    assert xs[..|xs|] == xs;
  }

  /** Rendering a concatenation renders each part in order. */
  lemma {:induction false} ConcatMapAppend<T>(f: T -> string, a: seq<T>, b: seq<T>)
    ensures ConcatMap(f, a + b) == ConcatMap(f, a) + ConcatMap(f, b)
    decreases |b|
  {
    if b == [] {
      assert a + b == a;
    } else {
      var b' := b[..|b| - 1];
      assert (a + b)[..|a + b| - 1] == a + b';
      ConcatMapAppend(f, a, b');
    }
  }

  /** Elements kept by the predicate `keep`, in their order. */
  function Filter<T(!new)>(keep: T -> bool, xs: seq<T>): (r: seq<T>)
    ensures |r| <= |xs|
    ensures forall x :: x in r <==> x in xs && keep(x)
    decreases |xs|
  {
    if xs == [] then []
    else
      var init := Filter(keep, xs[..|xs| - 1]);
      assert forall x :: x in xs <==> x in xs[..|xs| - 1] || x == xs[|xs| - 1];
      if keep(xs[|xs| - 1]) then init + [xs[|xs| - 1]] else init
  }

  /** Elements whose rendering is empty may be dropped without changing the text. */
  lemma {:induction false} ConcatMapFilter<T(!new)>(f: T -> string, keep: T -> bool, xs: seq<T>)
    requires forall x :: x in xs && !keep(x) ==> f(x) == ""
    ensures ConcatMap(f, xs) == ConcatMap(f, Filter(keep, xs))
    decreases |xs|
  {
    if xs != [] {
      var init := xs[..|xs| - 1];
      assert forall x :: x in init ==> x in xs;
      ConcatMapFilter(f, keep, init);
      if keep(xs[|xs| - 1]) {
        ConcatMapAppend(f, Filter(keep, init), [xs[|xs| - 1]]);
        assert ConcatMap(f, [xs[|xs| - 1]]) == f(xs[|xs| - 1]) by {
          assert [xs[|xs| - 1]][..0] == [];
        }
      }
    }
  }

  /** Two lists that render element by element to the same texts render to the same text. */
  lemma {:induction false} ConcatMapPointwise<A, B>(f: A -> string, xs: seq<A>, g: B -> string, ys: seq<B>)
    requires |xs| == |ys|
    requires forall i :: 0 <= i < |xs| ==> f(xs[i]) == g(ys[i])
    ensures ConcatMap(f, xs) == ConcatMap(g, ys)
    decreases |xs|
  {
    if xs != [] {
      var n := |xs| - 1;
      assert forall i :: 0 <= i < n ==> xs[..n][i] == xs[i] && ys[..n][i] == ys[i];
      ConcatMapPointwise(f, xs[..n], g, ys[..n]);
    }
  }

  /** The rendering of every element occurs in the rendered text. */
  lemma {:induction false} ConcatMapContains<T>(f: T -> string, xs: seq<T>, x: T)
    requires x in xs
    ensures Contains(ConcatMap(f, xs), f(x))
    decreases |xs|
  {
    var init := xs[..|xs| - 1];
    var last := xs[|xs| - 1];
    if x == last {
      ContainsInMiddle(ConcatMap(f, init), f(x), "");
      assert ConcatMap(f, init) + f(x) + "" == ConcatMap(f, xs);
    } else {
      assert x in init by {
        assert xs == init + [last];
      }
      ConcatMapContains(f, init, x);
      var s := ConcatMap(f, init);
      var i :| 0 <= i <= |s| && f(x) <= s[i..];
      assert (s + f(last))[i..] == s[i..] + f(last);
    }
  }
}
