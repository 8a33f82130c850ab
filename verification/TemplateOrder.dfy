/**
 Exactly when the unspecified iteration order of ResolveTemplate cannot show, for arbitrary content:
 when no value occurs inside the name of another variable.
 */
module TemplateOrder {
  import opened Template

  /** `x` occurs inside `y`, contiguously; the empty text occurs inside everything. */
  predicate Inside(x: string, y: string) { exists i :: 0 <= i <= |y| && OccursAt(x, y, i) }

  predicate OccursAt(x: string, y: string, i: nat) { i + |x| <= |y| && y[i..i + |x|] == x }

  predicate Separated(vars: map<string, string>) {
    forall a, b :: a in vars && b in vars && a != b ==> !Inside(vars[a], b)
  }

  ghost predicate OrderIndependent(vars: map<string, string>) {
    forall content, r1, r2 :: ResolvesTo(content, vars, r1) && ResolvesTo(content, vars, r2) ==> r1 == r2
  }

  ghost predicate Idempotent(vars: map<string, string>) {
    forall content, once, twice :: ResolvesTo(content, vars, once) && ResolvesTo(once, vars, twice) ==> once == twice
  }

  // ----- the tokens of an arbitrary content

  predicate StartsHole(s: string, ks: set<string>) { exists k :: k in ks && Placeholder(k) <= s }

  ghost function Parse(s: string, ks: set<string>): (toks: seq<Token>)
    ensures Render(toks) == s
    decreases |s|
  {
    if s == "" then []
    else if StartsHole(s, ks) then
      var k :| k in ks && Placeholder(k) <= s;
      [Hole(k)] + Parse(s[|k| + 4..], ks)
    else
      [Char(s[0])] + Parse(s[1..], ks)
  }

  /** The first token, and the rest of the text. */
  lemma ParseHead(s: string, ks: set<string>) returns (t: Token, rest: string)
    requires s != ""
    ensures Parse(s, ks) == [t] + Parse(rest, ks) && |rest| < |s| && TokenText(t) + Render(Parse(rest, ks)) == s
    ensures !t.Val? && (t.Hole? ==> t.name in ks) && (t.Char? ==> !StartsHole(s, ks))
  {
    var toks := Parse(s, ks);
    t := toks[0];
    rest := if StartsHole(s, ks) then s[|t.name| + 4..] else s[1..];
    assert toks == [t] + Parse(rest, ks);
    assert toks[1..] == Parse(rest, ks);
  }

  lemma {:induction false} ParseIsClean(s: string, ks: set<string>, k: string)
    requires k in ks && forall x :: x in ks ==> BraceFree(x)
    ensures Plain(Parse(s, ks)) && Clean(Parse(s, ks), k)
    ensures forall i :: 0 <= i < |Parse(s, ks)| ==> !Parse(s, ks)[i].Val?
    decreases |s|
  {
    if s != "" {
      var t, rest := ParseHead(s, ks);
      ParseIsClean(rest, ks, k);
      CleanCons(t, Parse(rest, ks), k);
      PlainCons(t, Parse(rest, ks));
      hide Parse, Render, Clean, Plain, BraceFree;
    }
  }

  lemma PlainCons(t: Token, toks: seq<Token>)
    requires Plain(toks) && !t.Val? && (t.Hole? ==> BraceFree(t.name)) && forall i :: 0 <= i < |toks| ==> !toks[i].Val?
    ensures Plain([t] + toks) && forall i :: 0 <= i < |[t] + toks| ==> !([t] + toks)[i].Val?
  {
    hide BraceFree;
  }

  lemma CleanCons(t: Token, toks: seq<Token>, k: string)
    requires Clean(toks, k) && (t.Char? ==> !(Placeholder(k) <= TokenText(t) + Render(toks)))
    ensures Clean([t] + toks, k)
  {
    forall i | 0 <= i < |[t] + toks| && ([t] + toks)[i].Char?
      ensures !(Placeholder(k) <= Render(([t] + toks)[i..]))
    {
      if i == 0 {
        assert ([t] + toks)[0..] == [t] + toks && ([t] + toks)[1..] == toks;
      } else {
        assert ([t] + toks)[i..] == toks[i - 1..];
      }
    }
  }

  // ----- filling in values creates no new placeholder

  /** `after` is `before` with some placeholders filled in, by values that do not occur inside `b`. */
  ghost predicate FilledApartFrom(before: seq<Token>, after: seq<Token>, b: string) {
    && |before| == |after|
    && Plain(after)
    && forall i :: 0 <= i < |after| ==>
         if after[i].Val? then before[i].Hole? && !Inside(after[i].text, b) else after[i] == before[i]
  }

  lemma FilledTail(before: seq<Token>, after: seq<Token>, b: string)
    requires FilledApartFrom(before, after, b) && after != []
    ensures FilledApartFrom(before[1..], after[1..], b)
  {}

  /** A value that is not inside `b` cannot be the next piece of b's placeholder. */
  lemma ValueBlocks(text: string, r: string, b: string, j: nat)
    requires BraceFree(b) && BraceFree(text) && !Inside(text, b) && 1 <= j < |b| + 4
    ensures !(Placeholder(b)[j..] <= text + r)
  {
    var p := Placeholder(b);
    assert text == "" ==> OccursAt(text, b, 0);
    if j == 1 || j >= |b| + 2 {
      NotAPrefix(p[j..], text + r, 0);
    } else if j - 2 + |text| <= |b| {
      assert !OccursAt(text, b, j - 2);
      assert b[j - 2..j - 2 + |text|] != text;
      var i :| 0 <= i < |text| && b[j - 2 + i] != text[i];
      NotAPrefix(p[j..], text + r, i);
    } else {
      NotAPrefix(p[j..], text + r, |b| + 2 - j);
    }
  }

  lemma HoleBlocks(n: string, r: string, b: string, j: nat)
    requires BraceFree(b) && 1 <= j < |b| + 4
    ensures !(Placeholder(b)[j..] <= Placeholder(n) + r)
  {
    NotAPrefix(Placeholder(b)[j..], Placeholder(n) + r, if j == 1 then 1 else 0);
  }

  /** What reads as the rest of b's placeholder after filling did so before. */
  lemma {:induction false} RestWasThere(before: seq<Token>, after: seq<Token>, b: string, j: nat)
    requires BraceFree(b) && FilledApartFrom(before, after, b)
    requires 1 <= j <= |b| + 4 && Placeholder(b)[j..] <= Render(after)
    ensures Placeholder(b)[j..] <= Render(before)
    decreases |b| + 4 - j
  {
    var p := Placeholder(b);
    if j < |p| {
      assert after != [];
      var r := Render(after[1..]);
      match after[0]
      case Val(text) => ValueBlocks(text, r, b, j);
      case Hole(n) => HoleBlocks(n, r, b, j);
      case Char(c) =>
        FilledTail(before, after, b);
        assert p[j..] == [p[j]] + p[j + 1..];
        assert p[j + 1..] <= r by { PrefixTail(p[j], p[j + 1..], c, r); }
        RestWasThere(before[1..], after[1..], b, j + 1);
        assert before[0] == Char(c);
        PrefixCons(p[j], p[j + 1..], Render(before[1..]));
    }
  }

  lemma PrefixTail(x: char, xs: string, y: char, ys: string)
    requires [x] + xs <= [y] + ys
    ensures x == y && xs <= ys
  {
    assert ([x] + xs)[0] == ([y] + ys)[0];
    assert forall i :: 0 <= i < |xs| ==> xs[i] == ([x] + xs)[i + 1] == ([y] + ys)[i + 1] == ys[i];
  }

  lemma PrefixCons(x: char, xs: string, ys: string)
    requires xs <= ys
    ensures [x] + xs <= [x] + ys
  {}

  lemma StartWasThere(before: seq<Token>, after: seq<Token>, b: string, c: char)
    requires BraceFree(b) && FilledApartFrom(before, after, b) && Placeholder(b) <= [c] + Render(after)
    ensures Placeholder(b) <= [c] + Render(before)
  {
    var p := Placeholder(b);
    assert p == [p[0]] + p[1..];
    PrefixTail(p[0], p[1..], c, Render(after));
    RestWasThere(before, after, b, 1);
    PrefixCons(c, p[1..], Render(before));
  }

  lemma FillingKeepsClean(before: seq<Token>, after: seq<Token>, b: string)
    requires BraceFree(b) && FilledApartFrom(before, after, b) && Clean(before, b)
    ensures Clean(after, b)
  {
    forall i | 0 <= i < |after| && after[i].Char?
      ensures !(Placeholder(b) <= Render(after[i..]))
    {
      var c := after[i].c;
      assert before[i] == Char(c);
      assert after[i..][1..] == after[i + 1..] && before[i..][1..] == before[i + 1..];
      if Placeholder(b) <= [c] + Render(after[i + 1..]) {
        StartWasThere(before[i + 1..], after[i + 1..], b, c);
      }
    }
  }

  lemma FillIsApart(toks: seq<Token>, vars: map<string, string>, ks: set<string>, b: string)
    requires Plain(toks) && BraceFreeVars(vars) && (forall i :: 0 <= i < |toks| ==> !toks[i].Val?)
    requires forall a :: a in ks && a in vars ==> !Inside(vars[a], b)
    ensures FilledApartFrom(toks, Fill(toks, vars, ks), b)
  {}

  // ----- order independence

  lemma SeparatedStaysClean(content: string, vars: map<string, string>)
    requires BraceFreeVars(vars) && Separated(vars)
    ensures Plain(Parse(content, vars.Keys)) || vars == map[]
    ensures StaysClean(Parse(content, vars.Keys), vars)
  {
    var toks := Parse(content, vars.Keys);
    forall k | k in vars
      ensures Plain(toks) && Clean(toks, k) && forall i :: 0 <= i < |toks| ==> !toks[i].Val?
    {
      ParseIsClean(content, vars.Keys, k);
    }
    forall k, ks: set<string> | k in vars && ks <= vars.Keys && k !in ks
      ensures Clean(Fill(toks, vars, ks), k)
    {
      FillIsApart(toks, vars, ks, k);
      FillingKeepsClean(toks, Fill(toks, vars, ks), k);
    }
  }

  lemma FirstElement(order: seq<string>)
    requires order != []
    ensures exists k :: k in order
  {
    assert order[0] in order;
  }

  /** The one text that every order yields. */
  lemma SeparatedResult(content: string, vars: map<string, string>, r: string)
    requires BraceFreeVars(vars) && Separated(vars) && ResolvesTo(content, vars, r)
    ensures r == Render(Fill(Parse(content, vars.Keys), vars, vars.Keys))
  {
    var toks := Parse(content, vars.Keys);
    var order :| IsOrder(vars, order) && r == ResolveInOrder(content, vars, order);
    if vars == map[] {
      if order != [] { FirstElement(order); }
      assert Fill(toks, vars, vars.Keys) == toks;
    } else {
      SeparatedStaysClean(content, vars);
      ResolveOnTokens(toks, vars, order);
      assert Elements(order) == vars.Keys;
    }
  }

  // ----- contents that give an order away

  function Chars(s: string): (toks: seq<Token>)
    ensures |toks| == |s| && forall i :: 0 <= i < |s| ==> toks[i] == Char(s[i])
  {
    seq(|s|, i requires 0 <= i < |s| => Char(s[i]))
  }

  lemma {:induction false} RenderChars(s: string, toks: seq<Token>)
    ensures Render(Chars(s) + toks) == s + Render(toks)
  {
    var all := Chars(s) + toks;
    if s == "" {
      assert all == toks;
    } else {
      RenderChars(s[1..], toks);
      assert all[1..] == Chars(s[1..]) + toks;
      assert all[0] == Char(s[0]);
      ConsConcat(s, Render(toks));
    }
  }

  lemma ConsConcat(s: string, r: string)
    requires s != ""
    ensures [s[0]] + (s[1..] + r) == s + r
  {}

  /** The placeholder of a name that contains the placeholder of `a` where it should contain a's value. */
  function Nested(pre: string, a: string, post: string): seq<Token> {
    Chars("{{" + pre) + [Hole(a)] + Chars(post + "}}")
  }

  function NestedText(pre: string, middle: string, post: string): string { "{{" + pre + middle + post + "}}" }

  lemma RenderHole(a: string, tail: string)
    ensures Render([Hole(a)] + Chars(tail)) == Placeholder(a) + tail
  {
    assert ([Hole(a)] + Chars(tail))[1..] == Chars(tail) == Chars(tail) + [];
    RenderChars(tail, []);
  }

  lemma RenderNested(pre: string, a: string, post: string)
    ensures Render(Nested(pre, a, post)) == NestedText(pre, Placeholder(a), post)
  {
    var head, tail := "{{" + pre, post + "}}";
    assert Nested(pre, a, post) == Chars(head) + ([Hole(a)] + Chars(tail));
    RenderHole(a, tail);
    hide Render, Nested;
    RenderChars(head, [Hole(a)] + Chars(tail));
    assert NestedText(pre, Placeholder(a), post) == head + (Placeholder(a) + tail);
  }

  lemma RenderSuffix(pre: string, a: string, post: string, i: nat)
    requires i < |pre| + 2
    ensures Render(Nested(pre, a, post)[i..]) == NestedText(pre, Placeholder(a), post)[i..]
  {
    var s := "{{" + pre;
    var tail := [Hole(a)] + Chars(post + "}}");
    assert Nested(pre, a, post) == Chars(s) + tail;
    hide Render, Nested, NestedText;
    CharsSuffix(s, tail, i);
    RenderChars(s, tail);
    RenderChars(s[i..], tail);
    RenderNested(pre, a, post);
    TextSuffix(s, Render(tail), i);
    hide Chars;
  }

  lemma TextSuffix(s: string, r: string, i: nat)
    requires i <= |s|
    ensures (s + r)[i..] == s[i..] + r
  {}

  lemma CharsSuffix(s: string, tail: seq<Token>, i: nat)
    requires i <= |s|
    ensures (Chars(s) + tail)[i..] == Chars(s[i..]) + tail
  {}

  lemma RenderPlainTail(post: string, i: nat)
    requires i < |post| + 2
    ensures Render(Chars(post + "}}")[i..]) == (post + "}}")[i..]
  {
    var s := post + "}}";
    assert Chars(s)[i..] == Chars(s[i..]) + [];
    RenderChars(s[i..], []);
  }

  /** In nested content nothing but the inner placeholder is a placeholder. */
  lemma NestedIsClean(pre: string, a: string, post: string, k: string)
    requires BraceFree(pre) && BraceFree(post) && BraceFree(a) && BraceFree(k)
    ensures Plain(Nested(pre, a, post)) && Clean(Nested(pre, a, post), k)
  {
    var toks := Nested(pre, a, post);
    var text := NestedText(pre, Placeholder(a), post);
    var p := Placeholder(k);
    assert text == "{{" + pre + (Placeholder(a) + (post + "}}"));
    forall i | 0 <= i < |toks| && toks[i].Char?
      ensures !(p <= Render(toks[i..]))
    {
      if i < |pre| + 2 {
        RenderSuffix(pre, a, post, i);
        NestedPrefix(pre, a, post, k, i);
      } else {
        assert toks[i..] == Chars(post + "}}")[i - |pre| - 3..];
        RenderPlainTail(post, i - |pre| - 3);
        NotAPrefix(p, (post + "}}")[i - |pre| - 3..], 0);
      }
    }
  }

  lemma NestedPrefix(pre: string, a: string, post: string, k: string, i: nat)
    requires BraceFree(pre) && BraceFree(k) && i < |pre| + 2
    ensures !(Placeholder(k) <= NestedText(pre, Placeholder(a), post)[i..])
  {
    var p, text := Placeholder(k), NestedText(pre, Placeholder(a), post);
    assert forall x :: 0 <= x < |pre| ==> text[x + 2] == pre[x];
    assert text[|pre| + 2] == '{' && text[|pre| + 3] == '{';
    if i >= 2 {
      NotAPrefix(p, text[i..], 0);
    } else if i == 1 {
      if pre == "" { NotAPrefix(p, text[1..], 2); } else { NotAPrefix(p, text[1..], 1); }
    } else if |k| < |pre| {
      NotAPrefix(p, text[0..], |k| + 2);
    } else {
      NotAPrefix(p, text[0..], |pre| + 2);
    }
  }

  lemma {:induction false} OrderOf(ks: set<string>) returns (order: seq<string>)
    ensures (forall k :: k in order <==> k in ks) && forall i, j :: 0 <= i < j < |order| ==> order[i] != order[j]
  {
    if ks == {} {
      order := [];
    } else {
      var k :| k in ks;
      var rest := OrderOf(ks - {k});
      order := [k] + rest;
    }
  }

  /** A text in which no variable of `order` has a placeholder survives all of them. */
  lemma {:induction false} RestIsIdle(toks: seq<Token>, vars: map<string, string>, first: seq<string>, rest: seq<string>, content: string)
    requires Plain(toks) && BraceFreeVars(vars)
    requires forall k :: k in first + rest ==> k in vars
    requires forall k :: k in rest ==> Clean(toks, k) && Hole(k) !in toks
    requires ResolveInOrder(content, vars, first) == Render(toks)
    ensures ResolveInOrder(content, vars, first + rest) == Render(toks)
  {
    if rest == [] {
      assert first + rest == first;
    } else {
      var front, last := rest[..|rest| - 1], rest[|rest| - 1];
      assert last in first + rest;
      IdleStep(toks, vars, last);
      RestIsIdle(toks, vars, first, front, content);
      hide Clean, Plain, Render, ReplaceAll, BraceFreeVars;
      assert (first + rest)[..|first + rest| - 1] == first + front;
      assert (first + rest)[|first + rest| - 1] == last;
    }
  }

  /** A variable without a placeholder in the text changes nothing. */
  lemma IdleStep(toks: seq<Token>, vars: map<string, string>, k: string)
    requires Plain(toks) && BraceFreeVars(vars) && k in vars && Clean(toks, k) && Hole(k) !in toks
    ensures ReplaceAll(Render(toks), Placeholder(k), vars[k]) == Render(toks)
  {
    ReplaceOnTokens(toks, vars, k);
    assert Fill(toks, vars, {k}) == toks;
    hide Render, Clean, ReplaceAll;
  }

  lemma SingleIsClean(t: Token, k: string)
    requires !t.Char? && Plain([t])
    ensures Clean([t], k) && Render([t]) == TokenText(t)
  {}

  /** Filling in the inner placeholder makes the placeholder of the outer name. */
  lemma InnerStep(pre: string, a: string, post: string, vars: map<string, string>)
    requires BraceFreeVars(vars) && a in vars && BraceFree(pre) && BraceFree(post)
    ensures ReplaceAll(NestedText(pre, Placeholder(a), post), Placeholder(a), vars[a]) == Placeholder(pre + vars[a] + post)
  {
    var toks := Nested(pre, a, post);
    NestedIsClean(pre, a, post, a);
    ReplaceOnTokens(toks, vars, a);
    RenderNested(pre, a, post);
    FilledNested(pre, a, post, vars);
    RenderFilled(pre, vars[a], post);
  }

  lemma FilledNested(pre: string, a: string, post: string, vars: map<string, string>)
    requires a in vars
    ensures Fill(Nested(pre, a, post), vars, {a}) == Chars("{{" + pre) + ([Val(vars[a])] + Chars(post + "}}"))
  {}

  lemma RenderFilled(pre: string, v: string, post: string)
    ensures Render(Chars("{{" + pre) + ([Val(v)] + Chars(post + "}}"))) == Placeholder(pre + v + post)
  {
    var tail := Chars(post + "}}");
    RenderChars("{{" + pre, [Val(v)] + tail);
    assert ([Val(v)] + tail)[1..] == tail + [];
    RenderChars(post + "}}", []);
    NestedIsPlaceholder(pre, v, post);
  }

  lemma NestedIsPlaceholder(pre: string, v: string, post: string)
    ensures "{{" + pre + (v + (post + "}}" + "")) == Placeholder(pre + v + post)
  {}

  /** The inner variable last: the outer placeholder appears too late and stays. */
  lemma OuterStays(pre: string, a: string, post: string, vars: map<string, string>, b: string)
    requires BraceFreeVars(vars) && a in vars && b in vars && BraceFree(pre) && BraceFree(post)
    requires b == pre + vars[a] + post
    ensures ResolvesTo(NestedText(pre, Placeholder(a), post), vars, Placeholder(b))
  {
    var content := NestedText(pre, Placeholder(a), post);
    var early := if a == b then [] else [b];
    OuterTooEarly(pre, a, post, vars, early);
    InnerStep(pre, a, post, vars);
    assert (early + [a])[..|early|] == early;
    SingleIsClean(Hole(b), b);
    OthersIdle(Hole(b), vars, early + [a], content);
  }

  lemma OuterTooEarly(pre: string, a: string, post: string, vars: map<string, string>, early: seq<string>)
    requires BraceFreeVars(vars) && a in vars && BraceFree(pre) && BraceFree(post)
    requires forall k :: k in early ==> k in vars && k != a
    ensures ResolveInOrder(NestedText(pre, Placeholder(a), post), vars, early) == NestedText(pre, Placeholder(a), post)
  {
    var toks := Nested(pre, a, post);
    RenderNested(pre, a, post);
    NestedIsClean(pre, a, post, a);
    forall k | k in early
      ensures Clean(toks, k) && Hole(k) !in toks
    {
      NestedIsClean(pre, a, post, k);
    }
    assert [] + early == early;
    RestIsIdle(toks, vars, [], early, NestedText(pre, Placeholder(a), post));
  }

  /** A result that is a lone placeholder of a variable already used, or a value, is final. */
  lemma OthersIdle(t: Token, vars: map<string, string>, first: seq<string>, content: string)
    requires BraceFreeVars(vars) && Plain([t]) && !t.Char?
    requires forall k :: k in first ==> k in vars
    requires forall i, j :: 0 <= i < j < |first| ==> first[i] != first[j]
    requires t.Hole? ==> t.name in first
    requires ResolveInOrder(content, vars, first) == TokenText(t)
    ensures ResolvesTo(content, vars, TokenText(t))
  {
    var others := OrderOf(vars.Keys - Elements(first));
    forall k | k in others
      ensures Clean([t], k) && Hole(k) !in [t]
    {
      SingleIsClean(t, k);
    }
    SingleIsClean(t, "");
    RestIsIdle([t], vars, first, others, content);
    forall i, j | 0 <= i < j < |first + others|
      ensures (first + others)[i] != (first + others)[j]
    {
      assert i < |first| ==> first[i] in Elements(first);
      assert j >= |first| ==> others[j - |first|] in others;
    }
    assert IsOrder(vars, first + others);
  }

  /** The inner variable first: the outer placeholder appears in time and is filled in too. */
  lemma OuterFilled(pre: string, a: string, post: string, vars: map<string, string>, b: string)
    requires BraceFreeVars(vars) && a in vars && b in vars && a != b && BraceFree(pre) && BraceFree(post)
    requires b == pre + vars[a] + post
    ensures ResolvesTo(NestedText(pre, Placeholder(a), post), vars, vars[b])
  {
    var content := NestedText(pre, Placeholder(a), post);
    assert ResolveInOrder(content, vars, []) == content;
    InnerStep(pre, a, post, vars);
    assert [a][..0] == [] && [a, b][..1] == [a];
    assert ResolveInOrder(content, vars, [a]) == Placeholder(b);
    TakeHole("", b, vars[b]);
    assert Placeholder(b) + "" == Placeholder(b) && vars[b] + "" == vars[b];
    OthersIdle(Val(vars[b]), vars, [a, b], content);
  }

  lemma Surroundings(x: string, y: string) returns (pre: string, post: string)
    requires Inside(x, y) && BraceFree(y)
    ensures y == pre + x + post && BraceFree(pre) && BraceFree(post)
  {
    var i :| 0 <= i <= |y| && OccursAt(x, y, i);
    pre, post := y[..i], y[i + |x|..];
  }

  /**
   With brace-free names and values, the iteration order never shows, on any content, if and only if
   no value occurs inside the name of another variable.
   */
  lemma OrderNeverShows(vars: map<string, string>)
    requires BraceFreeVars(vars)
    ensures OrderIndependent(vars) <==> Separated(vars)
  {
    if Separated(vars) {
      forall content, r1, r2 | ResolvesTo(content, vars, r1) && ResolvesTo(content, vars, r2)
        ensures r1 == r2
      {
        SeparatedResult(content, vars, r1);
        SeparatedResult(content, vars, r2);
      }
    } else {
      var a, b :| a in vars && b in vars && a != b && Inside(vars[a], b);
      var pre, post := Surroundings(vars[a], b);
      OuterStays(pre, a, post, vars, b);
      OuterFilled(pre, a, post, vars, b);
      assert Placeholder(b) != vars[b];
      assert !OrderIndependent(vars);
    }
  }

  /** A nested example: with a = b and b = c, `{{{{a}}}}` becomes `c` or `{{b}}`. */
  lemma NestedTextShowsOrder()
    ensures var vars := map["a" := "b", "b" := "c"];
      ResolvesTo("{{{{a}}}}", vars, "c") && ResolvesTo("{{{{a}}}}", vars, "{{b}}") && !Separated(vars)
  {
    var vars := map["a" := "b", "b" := "c"];
    assert "" + "b" + "" == "b";
    OuterStays("", "a", "", vars, "b");
    OuterFilled("", "a", "", vars, "b");
    assert NestedText("", Placeholder("a"), "") == "{{{{a}}}}";
    assert Placeholder("b") == "{{b}}";
    assert OccursAt("b", "b", 0);
    assert Inside(vars["a"], "b");
  }

  // ----- resolving twice

  predicate SeparatedFromAll(vars: map<string, string>) {
    forall a, b :: a in vars && b in vars ==> !Inside(vars[a], b)
  }

  /** With no value inside any name, a resolved text holds no placeholder that could be filled in. */
  lemma SecondPassIsIdle(content: string, vars: map<string, string>, once: string, twice: string)
    requires BraceFreeVars(vars) && SeparatedFromAll(vars)
    requires ResolvesTo(content, vars, once) && ResolvesTo(once, vars, twice)
    ensures once == twice
  {
    SeparatedResult(content, vars, once);
    var filled := Fill(Parse(content, vars.Keys), vars, vars.Keys);
    var order :| IsOrder(vars, order) && twice == ResolveInOrder(once, vars, order);
    if order != [] {
      assert forall k :: k in order ==> k in vars;
      hide SeparatedFromAll, BraceFreeVars, Clean, Plain, Render, Parse, Fill, IsOrder;
      assert order[0] in order;
      FilledIsIdle(content, vars, order[0]);
      forall k | k in order
        ensures Clean(filled, k) && Hole(k) !in filled
      {
        FilledIsIdle(content, vars, k);
      }
      assert [] + order == order;
      RestIsIdle(filled, vars, [], order, once);
    }
  }

  /** A filled-in text has no placeholder of any variable. */
  lemma FilledIsIdle(content: string, vars: map<string, string>, k: string)
    requires BraceFreeVars(vars) && SeparatedFromAll(vars) && k in vars
    ensures var filled := Fill(Parse(content, vars.Keys), vars, vars.Keys);
      Plain(filled) && Clean(filled, k) && Hole(k) !in filled
  {
    var toks := Parse(content, vars.Keys);
    ParseIsClean(content, vars.Keys, k);
    FillIsApart(toks, vars, vars.Keys, k);
    FillingKeepsClean(toks, Fill(toks, vars, vars.Keys), k);
    hide Clean, Parse, Inside;
  }

  /** Resolving twice is resolving once, on every content and in every order, if and only if no value occurs inside any name. */
  lemma ResolvingTwice(vars: map<string, string>)
    requires BraceFreeVars(vars)
    ensures Idempotent(vars) <==> SeparatedFromAll(vars)
  {
    if SeparatedFromAll(vars) {
      forall content, once, twice | ResolvesTo(content, vars, once) && ResolvesTo(once, vars, twice)
        ensures once == twice
      {
        SecondPassIsIdle(content, vars, once, twice);
      }
    } else {
      var a, b :| a in vars && b in vars && Inside(vars[a], b);
      var pre, post := Surroundings(vars[a], b);
      OuterStays(pre, a, post, vars, b);
      PlaceholderAlone(vars, b);
      assert Placeholder(b) != vars[b];
      assert !Idempotent(vars);
    }
  }

  lemma PlaceholderAlone(vars: map<string, string>, b: string)
    requires BraceFreeVars(vars) && b in vars
    ensures ResolvesTo(Placeholder(b), vars, vars[b])
  {
    var order := OrderOf(vars.Keys);
    var toks := [Hole(b)];
    assert WellFormed(toks);
    SingleIsClean(Hole(b), b);
    WellFormedStaysClean(toks, vars);
    ResolveOnTokens(toks, vars, order);
    assert Fill(toks, vars, Elements(order)) == [Val(vars[b])];
    SingleIsClean(Val(vars[b]), b);
    assert IsOrder(vars, order);
  }
}
