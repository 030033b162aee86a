/** String operations of the JavaScript runtime that the core relies on,
    restricted to what it uses: truthiness of strings, `trim`, `toLowerCase`,
    `includes`, `+=` accumulation, `filter(Boolean)` and `join`.
    Whitespace and case are modelled on ASCII only. */
module Text {

  /** The ASCII members of JavaScript's whitespace set (space, tab, line feed,
      vertical tab, form feed, carriage return). */
  predicate IsWhitespace(c: char) {
    c == ' ' || c == '\t' || c == '\n' || c == '\r' || c == '\U{000B}' || c == '\U{000C}'
  }

  /** Every character of `s` is whitespace (vacuously so for ""). */
  predicate IsBlank(s: string) {
    forall i :: 0 <= i < |s| ==> IsWhitespace(s[i])
  }

  /** `s.trimStart()`: drops the leading whitespace. */
  function TrimStart(s: string): (r: string)
    ensures |r| <= |s| && r == s[|s| - |r|..]
    ensures IsBlank(s[..|s| - |r|])
    ensures r == [] || !IsWhitespace(r[0])
  {
    if s != [] && IsWhitespace(s[0]) then TrimStart(s[1..]) else s
  }

  /** `s.trimEnd()`: drops the trailing whitespace. */
  function TrimEnd(s: string): (r: string)
    ensures |r| <= |s| && r == s[..|r|]
    ensures IsBlank(s[|r|..])
    ensures r == [] || !IsWhitespace(r[|r| - 1])
  {
    if s != [] && IsWhitespace(s[|s| - 1]) then TrimEnd(s[..|s| - 1]) else s
  }

  /** `s.trim()`: the longest slice of `s` that neither starts nor ends with
      whitespace, once blank margins are cut off on both sides. */
  function Trim(s: string): (r: string)
    ensures exists i :: 0 <= i <= |s| - |r| && r == s[i..i + |r|] && IsBlank(s[..i]) && IsBlank(s[i + |r|..])
    ensures r == [] || (!IsWhitespace(r[0]) && !IsWhitespace(r[|r| - 1]))
  {
    var t := TrimStart(s);
    var r := TrimEnd(t);
    TrimMargins(s, t, r);
    r
  }

  /** The margins `Trim` cuts off: `t` is a blank-prefixed suffix of `s` and
      `r` a blank-suffixed prefix of `t`. */
  lemma TrimMargins(s: string, t: string, r: string)
    requires |t| <= |s| && t == s[|s| - |t|..] && IsBlank(s[..|s| - |t|])
    requires |r| <= |t| && r == t[..|r|] && IsBlank(t[|r|..])
    ensures var i := |s| - |t|; 0 <= i <= |s| - |r| && r == s[i..i + |r|] && IsBlank(s[..i]) && IsBlank(s[i + |r|..])
  {
    var i := |s| - |t|;
    assert s[i + |r|..] == t[|r|..];
    assert s[i..i + |r|] == t[..|r|];
  }

  /** JavaScript truthiness of `s.trim()`: it is "" exactly when `s` is blank. */
  lemma {:induction false} TrimEmptyIffBlank(s: string)
    ensures Trim(s) == "" <==> IsBlank(s)
  {
    var r := Trim(s);
    var i :| 0 <= i <= |s| - |r| && r == s[i..i + |r|] && IsBlank(s[..i]) && IsBlank(s[i + |r|..]);
    if r == "" {
      forall k | 0 <= k < |s| ensures IsWhitespace(s[k]) {
        if k < i {
          assert s[k] == s[..i][k];
        } else {
          assert s[k] == s[i..][k - i];
        }
      }
    }
  }

  lemma {:induction false} TrimStartPadded(pre: string, s: string)
    requires IsBlank(pre) && (s == [] || !IsWhitespace(s[0]))
    ensures TrimStart(pre + s) == s
    decreases |pre|
  {
    if pre != [] {
      assert (pre + s)[1..] == pre[1..] + s;
      TrimStartPadded(pre[1..], s);
    }
  }

  lemma {:induction false} TrimEndPadded(s: string, post: string)
    requires IsBlank(post) && (s == [] || !IsWhitespace(s[|s| - 1]))
    ensures TrimEnd(s + post) == s
    decreases |post|
  {
    if post != [] {
      var p := post[..|post| - 1];
      assert (s + post)[..|s + post| - 1] == s + p;
      TrimEndPadded(s, p);
    }
  }

  /** Trimming a text whose own first and last characters are visible removes
      exactly the blank padding around it. */
  lemma {:induction false} TrimPadded(pre: string, s: string, post: string)
    requires IsBlank(pre) && IsBlank(post)
    requires s != [] && !IsWhitespace(s[0]) && !IsWhitespace(s[|s| - 1])
    ensures Trim(pre + s + post) == s
  {
    assert pre + s + post == pre + (s + post);
    TrimStartPadded(pre, s + post);
    TrimEndPadded(s, post);
  }

  /** The same, for a text given in three parts. */
  lemma {:induction false} TrimPaddedThree(pre: string, head: string, mid: string, tail: string, post: string)
    requires IsBlank(pre) && IsBlank(post)
    requires head != [] && !IsWhitespace(head[0])
    requires tail != [] && !IsWhitespace(tail[|tail| - 1])
    ensures Trim(pre + (head + mid + tail) + post) == head + mid + tail
  {
    var s := head + mid + tail;
    assert s[0] == head[0];
    assert s[|s| - 1] == tail[|tail| - 1];
    TrimPadded(pre, s, post);
  }

  /** The ASCII part of `toLowerCase` on one character. */
  function LowerChar(c: char): (r: char)
    ensures ('A' <= c <= 'Z') <==> r != c
    ensures !('A' <= r <= 'Z')
  {
    if 'A' <= c <= 'Z' then (c as int - 'A' as int + 'a' as int) as char else c
  }

  /** `s.toLowerCase()`, character by character. */
  function ToLower(s: string): (r: string)
    ensures |r| == |s|
    ensures forall i :: 0 <= i < |s| ==> r[i] == LowerChar(s[i])
  {
    seq(|s|, i requires 0 <= i < |s| => LowerChar(s[i]))
  }

  /** Lower-casing commutes with taking a slice, so a substring of the message
      is lower-cased in place. */
  lemma {:induction false} ToLowerSlice(s: string, i: nat, j: nat)
    requires i <= j <= |s|
    ensures ToLower(s)[i..j] == ToLower(s[i..j])
  {
  }

  /** `s.endsWith(t)`: the last `|t|` characters of `s` are `t`. */
  predicate EndsWith(s: string, t: string) {
    |t| <= |s| && s[|s| - |t|..] == t
  }

  /** `t` occurs in `s` at position `i`. */
  predicate ContainsAt(s: string, t: string, i: int) {
    0 <= i <= |s| - |t| && s[i..i + |t|] == t
  }

  /** `s.includes(t)`: `t` occurs in `s` at some position. */
  predicate Contains(s: string, t: string) {
    exists i :: 0 <= i <= |s| - |t| && ContainsAt(s, t, i)
  }

  /** A text that contains a needle also contains it after lower-casing both. */
  lemma {:induction false} ContainsLowered(s: string, t: string)
    requires Contains(s, t)
    ensures Contains(ToLower(s), ToLower(t))
  {
    var i :| 0 <= i <= |s| - |t| && ContainsAt(s, t, i);
    ToLowerSlice(s, i, i + |t|);
    assert ContainsAt(ToLower(s), ToLower(t), i);
  }

  /** The accumulated text `acc += f` over the fragments, in order. */
  function Concat(fs: seq<string>): string {
    if fs == [] then "" else Concat(fs[..|fs| - 1]) + fs[|fs| - 1]
  }

  lemma {:induction false} ConcatAppend(a: seq<string>, b: seq<string>)
    ensures Concat(a + b) == Concat(a) + Concat(b)
    decreases |b|
  {
    if b == [] {
      assert a + b == a;
    } else {
      var b' := b[..|b| - 1];
      assert (a + b)[..|a + b| - 1] == a + b';
      ConcatAppend(a, b');
    }
  }

  /** Each intermediate accumulation is a prefix of the final text. */
  lemma {:induction false} ConcatPrefix(fs: seq<string>, k: nat)
    requires k <= |fs|
    ensures Concat(fs[..k]) <= Concat(fs)
  {
    assert fs == fs[..k] + fs[k..];
    ConcatAppend(fs[..k], fs[k..]);
  }

  /** Cutting the fragment list at `k` splits the text around fragment `k`. */
  lemma {:induction false} ConcatSplit(fs: seq<string>, k: nat)
    requires k < |fs|
    ensures Concat(fs) == Concat(fs[..k]) + fs[k] + Concat(fs[k + 1..])
  {
    var head, tail := fs[..k + 1], fs[k + 1..];
    assert fs == head + tail;
    ConcatAppend(head, tail);
    assert head[..k] == fs[..k];
    assert Concat(head) == Concat(fs[..k]) + fs[k];
  }

  /** A text that lacks one of the characters of `t` does not contain `t`. */
  lemma MissingCharNotContained(s: string, t: string, c: char)
    requires c in t && c !in s
    ensures !Contains(s, t)
  {
  }

  /** Whatever a text contains, the text extended at either end contains. */
  lemma ContainedInFront(a: string, b: string, t: string)
    requires Contains(a, t)
    ensures Contains(a + b, t)
  {
    var i :| 0 <= i <= |a| - |t| && ContainsAt(a, t, i);
    assert (a + b)[i..i + |t|] == a[i..i + |t|];
    assert ContainsAt(a + b, t, i);
  }

  lemma ContainedInBack(a: string, b: string, t: string)
    requires Contains(b, t)
    ensures Contains(a + b, t)
  {
    var i :| 0 <= i <= |b| - |t| && ContainsAt(b, t, i);
    assert (a + b)[|a| + i..|a| + i + |t|] == b[i..i + |t|];
    assert ContainsAt(a + b, t, |a| + i);
  }

  /** The end of a concatenation is contained in it. */
  lemma EndContained(a: string, t: string)
    ensures Contains(a + t, t)
  {
    assert (a + t)[|a|..|a| + |t|] == t;
    assert ContainsAt(a + t, t, |a|);
  }

  /** The middle of a concatenation is contained in it. */
  lemma {:induction false} InfixContained(a: string, t: string, b: string)
    ensures Contains(a + t + b, t)
  {
    assert (a + t + b)[|a|..|a| + |t|] == t;
    assert ContainsAt(a + t + b, t, |a|);
  }

  /** A part in the middle of the last of three parts is contained in the whole. */
  lemma {:induction false} InfixContainedRight(a: string, x: string, t: string, y: string)
    ensures Contains(a + (x + t + y), t)
  {
    InfixContained(a + x, t, y);
    assert a + (x + t + y) == a + x + t + y;
  }

  /** Every fragment appears in the text. */
  lemma {:induction false} ConcatContains(fs: seq<string>, k: nat)
    requires k < |fs|
    ensures Contains(Concat(fs), fs[k])
  {
    ConcatSplit(fs, k);
    InfixContained(Concat(fs[..k]), fs[k], Concat(fs[k + 1..]));
  }

  /** Lines of a template, each followed by a line feed. */
  function Lines(ls: seq<string>): string {
    if ls == [] then "" else Lines(ls[..|ls| - 1]) + ls[|ls| - 1] + "\n"
  }

  lemma {:induction false} LinesAppend(a: seq<string>, b: seq<string>)
    ensures Lines(a + b) == Lines(a) + Lines(b)
    decreases |b|
  {
    if b == [] {
      assert a + b == a;
    } else {
      var b' := b[..|b| - 1];
      assert (a + b)[..|a + b| - 1] == a + b';
      LinesAppend(a, b');
    }
  }

  /** A non-empty run of lines ends with a line feed. */
  lemma {:induction false} LinesEndWithLineFeed(ls: seq<string>)
    requires ls != []
    ensures EndsWith(Lines(ls), "\n")
  {
    var p := Lines(ls[..|ls| - 1]) + ls[|ls| - 1];
    assert Lines(ls) == p + "\n";
    assert (p + "\n")[|p|..] == "\n";
  }

  /** Line `j` of the text sits between the lines before it and the line
      feed that ends it, followed by the remaining lines. */
  lemma {:induction false} LinesSplit(ls: seq<string>, j: nat)
    requires j < |ls|
    ensures Lines(ls) == Lines(ls[..j]) + ls[j] + "\n" + Lines(ls[j + 1..])
  {
    var head, tail := ls[..j + 1], ls[j + 1..];
    assert ls == head + tail;
    LinesAppend(head, tail);
    assert head[..j] == ls[..j];
    assert Lines(head) == Lines(ls[..j]) + ls[j] + "\n";
  }

  /** Writing `x` into the empty line `j` inserts `x` into the text and
      changes nothing else. */
  lemma {:induction false} LinesFill(ls: seq<string>, j: nat, x: string)
    requires j < |ls| && ls[j] == ""
    ensures Lines(ls) == Lines(ls[..j]) + ("\n" + Lines(ls[j + 1..]))
    ensures Lines(ls[j := x]) == Lines(ls[..j]) + x + ("\n" + Lines(ls[j + 1..]))
  {
    var ms := ls[j := x];
    var before, after := Lines(ls[..j]), Lines(ls[j + 1..]);
    assert Lines(ls) == before + "" + "\n" + after by {
      LinesSplit(ls, j);
    }
    assert Lines(ms) == before + x + "\n" + after by {
      LinesSplit(ms, j);
      assert ms[..j] == ls[..j] && ms[j + 1..] == ls[j + 1..];
    }
  }

  /** Filling the empty line `j` of a text `h + lines + "\n" + i + t` that
      follows a line feed inserts `x` right after a line feed and right
      before one. */
  lemma {:induction false} LineInserted(h: string, ls: seq<string>, j: nat, x: string, i: string, t: string)
    requires j < |ls| && ls[j] == "" && EndsWith(h, "\n")
    ensures exists pre, post ::
              h + (Lines(ls) + "\n" + i) + t == pre + post
              && h + (Lines(ls[j := x]) + "\n" + i) + t == pre + x + post
              && EndsWith(pre, "\n") && "\n" <= post
  {
    var b, a := Lines(ls[..j]), "\n" + Lines(ls[j + 1..]);
    LinesFill(ls, j, x);
    if j > 0 {
      LinesEndWithLineFeed(ls[..j]);
    }
    LineFollowsLineFeed(h, b);
    var post := a + ("\n" + i + t);
    assert b + "" == b && (h + b) + "" == h + b;
    RegroupAround(h, Lines(ls), "\n", i, t, b, "", a);
    RegroupAround(h, Lines(ls[j := x]), "\n", i, t, b, x, a);
    assert post[..1] == a[..1] == "\n";
  }

  /** As `LineInserted`, where the part after the lines also gains `y`
      between `u` and `v`. */
  lemma {:induction false} LineAndTextInserted(h: string, ls: seq<string>, j: nat, x: string, u: string, y: string, v: string, t: string)
    requires j < |ls| && ls[j] == ""
    ensures exists p1, p2, p3 ::
              h + (Lines(ls) + "\n" + (u + v)) + t == p1 + p2 + p3
              && h + (Lines(ls[j := x]) + "\n" + (u + y + v)) + t == p1 + x + p2 + y + p3
  {
    var b, a := Lines(ls[..j]), Lines(ls[j + 1..]);
    LinesFill(ls, j, x);
    RegroupAroundTwo(h, b, "", "\n" + a, "\n", u, "", v, t);
    RegroupAroundTwo(h, b, x, "\n" + a, "\n", u, y, v, t);
  }

  /** A text `b + x + a` inside a template, regrouped around `x`. */
  lemma {:induction false} RegroupAround(h: string, l: string, n: string, i: string, t: string, b: string, x: string, a: string)
    requires l == b + x + a
    ensures h + (l + n + i) + t == (h + b) + x + (a + (n + i + t))
  {
  }

  lemma {:induction false} RegroupAroundTwo(h: string, b: string, x: string, a: string, n: string, u: string, y: string, v: string, t: string)
    ensures h + (b + x + a + n + (u + y + v)) + t == (h + b) + x + (a + n + u) + y + (v + t)
  {
  }

  /** A text ending in a line feed still does after a run of whole lines. */
  lemma {:induction false} LineFollowsLineFeed(h: string, b: string)
    requires EndsWith(h, "\n") && (b == "" || EndsWith(b, "\n"))
    ensures EndsWith(h + b, "\n")
  {
    var p := h + b;
    if b == "" {
      assert p == h;
    } else {
      assert p[|p| - 1..] == b[|b| - 1..];
    }
  }

  /** `filter(Boolean)` on strings: the non-empty ones, in order. */
  function NonEmpty(fs: seq<string>): (r: seq<string>)
    ensures |r| <= |fs|
    ensures forall x :: x in r <==> x in fs && x != ""
  {
    if fs == [] then []
    else NonEmpty(fs[..|fs| - 1]) + (if fs[|fs| - 1] == "" then [] else [fs[|fs| - 1]])
  }

  /** Only a list of empty strings filters down to nothing. */
  lemma {:induction false} NonEmptyNil(fs: seq<string>)
    requires forall x :: x in fs ==> x == ""
    ensures NonEmpty(fs) == []
    decreases |fs|
  {
    if fs != [] {
      var init := fs[..|fs| - 1];
      assert forall x :: x in init ==> x in fs;
      assert fs[|fs| - 1] in fs;
      NonEmptyNil(init);
    }
  }

  lemma {:induction false} NonEmptyAppend(a: seq<string>, b: seq<string>)
    ensures NonEmpty(a + b) == NonEmpty(a) + NonEmpty(b)
    decreases |b|
  {
    if b == [] {
      assert a + b == a;
    } else {
      var b' := b[..|b| - 1];
      assert (a + b)[..|a + b| - 1] == a + b';
      NonEmptyAppend(a, b');
    }
  }

  /** Dropping empty fragments never changes the accumulated text. */
  lemma {:induction false} ConcatNonEmpty(fs: seq<string>)
    ensures Concat(NonEmpty(fs)) == Concat(fs)
    decreases |fs|
  {
    if fs != [] {
      var init := fs[..|fs| - 1];
      var last := fs[|fs| - 1];
      ConcatNonEmpty(init);
      ConcatAppend(NonEmpty(init), if last == "" then [] else [last]);
      if last == "" {
        assert Concat([]) == "";
      } else {
        assert Concat([last]) == Concat([]) + last;
      }
    }
  }

  /** `xs.join(sep)`: the strings in order with `sep` between neighbours. */
  function Join(xs: seq<string>, sep: string): string {
    if xs == [] then "" else if |xs| == 1 then xs[0] else xs[0] + sep + Join(xs[1..], sep)
  }

  /** Joining with line feeds and adding a final one writes each string on a
      line of its own. */
  lemma {:induction false} JoinIsLines(xs: seq<string>)
    requires xs != []
    ensures Join(xs, "\n") + "\n" == Lines(xs)
    decreases |xs|
  {
    var x := xs[0];
    assert [x][..0] == [];
    if |xs| > 1 {
      JoinIsLines(xs[1..]);
      LinesAppend([x], xs[1..]);
      assert [x] + xs[1..] == xs;
    }
  }
}
