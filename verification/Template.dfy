/**
 Template substitution of internal/core/domain/template.go: one ReplaceAll per variable, in whatever order
 the map hands the variables out.
 */
module Template {

  /** `strings.ReplaceAll` for a non-empty pattern: leftmost matches, scanning on after each replacement. */
  function ReplaceAll(s: string, pat: string, sub: string): string
    requires |pat| > 0
    decreases |s|
  {
    if s == [] then []
    else if pat <= s then sub + ReplaceAll(s[|pat|..], pat, sub)
    else [s[0]] + ReplaceAll(s[1..], pat, sub)
  }

  function Placeholder(k: string): (p: string)
    ensures |p| == |k| + 4
    ensures p[0] == '{' && p[1] == '{' && p[|k| + 2] == '}' && p[|k| + 3] == '}'
    ensures forall i :: 2 <= i < |k| + 2 ==> p[i] == k[i - 2]
  {
    "{{" + k + "}}"
  }

  /** An order in which a map with these variables may be iterated. */
  ghost predicate IsOrder(vars: map<string, string>, order: seq<string>) {
    && (forall k :: k in order <==> k in vars)
    && (forall i, j :: 0 <= i < j < |order| ==> order[i] != order[j])
  }

  function ResolveInOrder(content: string, vars: map<string, string>, order: seq<string>): string
    requires forall k :: k in order ==> k in vars
  {
    if order == [] then content
    else
      var last := order[|order| - 1];
      ReplaceAll(ResolveInOrder(content, vars, order[..|order| - 1]), Placeholder(last), vars[last])
  }

  ghost predicate ResolvesTo(content: string, vars: map<string, string>, result: string) {
    exists order :: IsOrder(vars, order) && result == ResolveInOrder(content, vars, order)
  }

  method ResolveTemplate(text: string, vars: map<string, string>) returns (content: string)
    ensures ResolvesTo(text, vars, content)
  {
    content := text;
    var rest := vars.Keys;
    ghost var order: seq<string> := [];
    while rest != {}
      invariant rest <= vars.Keys
      invariant forall k :: k in order <==> k in vars.Keys - rest
      invariant forall i, j :: 0 <= i < j < |order| ==> order[i] != order[j]
      invariant content == ResolveInOrder(text, vars, order)
      decreases rest
    {
      var k :| k in rest;
      content := ReplaceAll(content, Placeholder(k), vars[k]);
      assert k !in order;
      assert (order + [k])[..|order|] == order;
      order := order + [k];
      rest := rest - {k};
    }
    assert IsOrder(vars, order);
  }

  // ----- texts as tokens

  predicate BraceFree(s: string) { forall i :: 0 <= i < |s| ==> s[i] != '{' && s[i] != '}' }

  predicate BraceFreeVars(vars: map<string, string>) { forall k :: k in vars ==> BraceFree(k) && BraceFree(vars[k]) }

  /** A character of the text, a placeholder, or a value that has been put in for a placeholder. */
  datatype Token = Char(c: char) | Hole(name: string) | Val(text: string)

  function TokenText(t: Token): string {
    match t
    case Char(c) => [c]
    case Hole(name) => Placeholder(name)
    case Val(text) => text
  }

  function Render(toks: seq<Token>): string {
    if toks == [] then "" else TokenText(toks[0]) + Render(toks[1..])
  }

  predicate Plain(toks: seq<Token>) {
    forall i :: 0 <= i < |toks| ==>
      (toks[i].Hole? ==> BraceFree(toks[i].name)) && (toks[i].Val? ==> BraceFree(toks[i].text))
  }

  /** No character token starts an occurrence of k's placeholder: the only occurrences are the tokens for it. */
  predicate Clean(toks: seq<Token>, k: string) {
    forall i :: 0 <= i < |toks| && toks[i].Char? ==> !(Placeholder(k) <= Render(toks[i..]))
  }

  function FillToken(t: Token, vars: map<string, string>, ks: set<string>): Token {
    if t.Hole? && t.name in ks && t.name in vars then Val(vars[t.name]) else t
  }

  /** Put the values of the variables `ks` in for their placeholders, all at once. */
  function Fill(toks: seq<Token>, vars: map<string, string>, ks: set<string>): (r: seq<Token>)
    ensures |r| == |toks|
    ensures forall i :: 0 <= i < |toks| ==> r[i] == FillToken(toks[i], vars, ks)
  {
    seq(|toks|, i requires 0 <= i < |toks| => FillToken(toks[i], vars, ks))
  }

  // ----- one ReplaceAll on tokens

  lemma {:induction false} SkipPlainText(t: string, r: string, k: string, v: string)
    requires BraceFree(t)
    ensures ReplaceAll(t + r, Placeholder(k), v) == t + ReplaceAll(r, Placeholder(k), v)
  {
    if t == "" {
      assert t + r == r;
    } else {
      SkipPlainText(t[1..], r, k, v);
      SkipChar(t + r, k, v);
      assert (t + r)[1..] == t[1..] + r;
    }
  }

  lemma SkipChar(s: string, k: string, v: string)
    requires s != "" && !(Placeholder(k) <= s)
    ensures ReplaceAll(s, Placeholder(k), v) == [s[0]] + ReplaceAll(s[1..], Placeholder(k), v)
  {}

  lemma NotAPrefix(p: string, s: string, i: nat)
    requires i < |p| && (i < |s| ==> p[i] != s[i])
    ensures !(p <= s)
  {}

  /** Placeholders of two different brace-free names never start at the same place. */
  lemma OtherName(n: string, k: string, r: string)
    requires BraceFree(n) && BraceFree(k) && n != k
    ensures !(Placeholder(k) <= Placeholder(n) + r)
  {
    var p, s := Placeholder(k), Placeholder(n) + r;
    if |n| < |k| {
      NotAPrefix(p, s, |n| + 2);
    } else if |k| < |n| {
      NotAPrefix(p, s, |k| + 2);
    } else {
      var i :| 0 <= i < |k| && k[i] != n[i];
      NotAPrefix(p, s, i + 2);
    }
  }

  lemma SkipOtherHole(n: string, r: string, k: string, v: string)
    requires BraceFree(n) && BraceFree(k) && n != k
    ensures ReplaceAll(Placeholder(n) + r, Placeholder(k), v) == Placeholder(n) + ReplaceAll(r, Placeholder(k), v)
  {
    var p, s := Placeholder(k), Placeholder(n) + r;
    OtherName(n, k, r);
    var close := "}}" + r;
    assert s == "{{" + (n + close);
    var s1 := "{" + (n + close);
    assert s[1..] == s1 && s1[1..] == n + close;
    SkipChar(s, k, v);
    assert s1[1] != '{' by { if n == "" { assert s1[1] == close[0]; } else { assert s1[1] == n[0]; } }
    NotAPrefix(p, s1, 1);
    SkipChar(s1, k, v);
    SkipPlainText(n, close, k, v);
    NotAPrefix(p, close, 0);
    SkipChar(close, k, v);
    assert close[1..] == "}" + r;
    NotAPrefix(p, "}" + r, 0);
    SkipChar("}" + r, k, v);
    assert ("}" + r)[1..] == r;
    assert Placeholder(n) == "{{" + n + "}}";
    Joined(n, ReplaceAll(r, p, v));
  }

  lemma Joined(n: string, x: string)
    ensures "{" + ("{" + (n + ("}" + ("}" + x)))) == Placeholder(n) + x
  {
    assert "{{" + n + "}}" + x == "{" + ("{" + (n + ("}" + ("}" + x))));
  }

  lemma TakeHole(r: string, k: string, v: string)
    ensures ReplaceAll(Placeholder(k) + r, Placeholder(k), v) == v + ReplaceAll(r, Placeholder(k), v)
  {
    assert (Placeholder(k) + r)[|Placeholder(k)|..] == r;
  }

  /** On a clean token text, ReplaceAll fills exactly the placeholders of k. */
  lemma {:induction false} ReplaceOnTokens(toks: seq<Token>, vars: map<string, string>, k: string)
    requires Plain(toks) && BraceFree(k) && k in vars && Clean(toks, k)
    ensures ReplaceAll(Render(toks), Placeholder(k), vars[k]) == Render(Fill(toks, vars, {k}))
  {
    var filled := Fill(toks, vars, {k});
    if toks != [] {
      assert Clean(toks[1..], k) by { CleanTail(toks, k); }
      ReplaceOnTokens(toks[1..], vars, k);
      assert filled[1..] == Fill(toks[1..], vars, {k});
      var r := Render(toks[1..]);
      match toks[0]
      case Char(c) =>
        assert toks[0..] == toks;
        SkipChar([c] + r, k, vars[k]);
        assert ([c] + r)[1..] == r;
      case Val(text) => SkipPlainText(text, r, k, vars[k]);
      case Hole(n) => if n == k { TakeHole(r, k, vars[k]); } else { SkipOtherHole(n, r, k, vars[k]); }
    }
  }

  lemma CleanTail(toks: seq<Token>, k: string)
    requires toks != [] && Clean(toks, k)
    ensures Clean(toks[1..], k)
  {
    forall i | 0 <= i < |toks[1..]| && toks[1..][i].Char?
      ensures !(Placeholder(k) <= Render(toks[1..][i..]))
    {
      assert toks[1..][i..] == toks[i + 1..];
    }
  }

  // ----- any iteration order on tokens

  /** The text stays clean for each variable not yet filled in, whichever others were filled in before it. */
  ghost predicate StaysClean(toks: seq<Token>, vars: map<string, string>) {
    forall k, ks: set<string> :: k in vars && ks <= vars.Keys && k !in ks ==> Clean(Fill(toks, vars, ks), k)
  }

  function Elements(order: seq<string>): set<string> { set k | k in order }

  lemma {:induction false} ResolveOnTokens(toks: seq<Token>, vars: map<string, string>, order: seq<string>)
    requires Plain(toks) && BraceFreeVars(vars) && StaysClean(toks, vars)
    requires forall k :: k in order ==> k in vars
    requires forall i, j :: 0 <= i < j < |order| ==> order[i] != order[j]
    ensures ResolveInOrder(Render(toks), vars, order) == Render(Fill(toks, vars, Elements(order)))
  {
    if order == [] {
      assert Fill(toks, vars, Elements(order)) == toks;
    } else {
      var front, last := order[..|order| - 1], order[|order| - 1];
      ResolveOnTokens(toks, vars, front);
      var before := Fill(toks, vars, Elements(front));
      assert last !in Elements(front);
      ReplaceOnTokens(before, vars, last);
      assert Elements(order) == Elements(front) + {last};
      assert Fill(before, vars, {last}) == Fill(toks, vars, Elements(order));
    }
  }

  // ----- well-formed templates

  /** Brace-free text and placeholders with brace-free names. */
  predicate WellFormed(toks: seq<Token>) {
    && Plain(toks)
    && forall i :: 0 <= i < |toks| ==> (toks[i].Char? ==> toks[i].c != '{' && toks[i].c != '}')
  }

  lemma WellFormedIsClean(toks: seq<Token>, k: string)
    requires WellFormed(toks)
    ensures Clean(toks, k)
  {
    forall i | 0 <= i < |toks| && toks[i].Char?
      ensures !(Placeholder(k) <= Render(toks[i..]))
    {
      assert Render(toks[i..])[0] == toks[i].c;
    }
  }

  lemma WellFormedStaysClean(toks: seq<Token>, vars: map<string, string>)
    requires WellFormed(toks) && BraceFreeVars(vars)
    ensures StaysClean(toks, vars)
  {
    forall k, ks: set<string> | k in vars && ks <= vars.Keys && k !in ks
      ensures Clean(Fill(toks, vars, ks), k)
    {
      WellFormedIsClean(Fill(toks, vars, ks), k);
    }
  }

  /**
   On a well-formed template every iteration order yields the same text, the simultaneous substitution
   of all variables at once, in which placeholders of unknown names are left alone.
   */
  lemma WellFormedTemplate(toks: seq<Token>, vars: map<string, string>, result: string)
    requires WellFormed(toks) && BraceFreeVars(vars)
    requires ResolvesTo(Render(toks), vars, result)
    ensures result == Render(Fill(toks, vars, vars.Keys))
  {
    var order :| IsOrder(vars, order) && result == ResolveInOrder(Render(toks), vars, order);
    WellFormedStaysClean(toks, vars);
    ResolveOnTokens(toks, vars, order);
    assert Elements(order) == vars.Keys;
  }

  /** Resolving an already resolved well-formed template changes nothing. */
  lemma WellFormedIdempotent(toks: seq<Token>, vars: map<string, string>, once: string, twice: string)
    requires WellFormed(toks) && BraceFreeVars(vars)
    requires ResolvesTo(Render(toks), vars, once) && ResolvesTo(once, vars, twice)
    ensures twice == once
  {
    WellFormedTemplate(toks, vars, once);
    var filled := Fill(toks, vars, vars.Keys);
    WellFormedTemplate(filled, vars, twice);
    assert Fill(filled, vars, vars.Keys) == filled;
  }

  // ----- length

  lemma {:induction false} ReplaceAllNeverLengthens(s: string, pat: string, sub: string)
    requires 0 < |pat| && |sub| <= |pat|
    ensures |ReplaceAll(s, pat, sub)| <= |s|
    decreases |s|
  {
    if s != [] {
      if pat <= s { ReplaceAllNeverLengthens(s[|pat|..], pat, sub); } else { ReplaceAllNeverLengthens(s[1..], pat, sub); }
    }
  }

  /** When no value is longer than its own placeholder, no order of substitutions lengthens any content. */
  lemma {:induction false} ResolvedFits(content: string, vars: map<string, string>, order: seq<string>)
    requires forall k :: k in order ==> k in vars && |vars[k]| <= |k| + 4
    ensures |ResolveInOrder(content, vars, order)| <= |content|
  {
    if order != [] {
      var front, last := order[..|order| - 1], order[|order| - 1];
      ResolvedFits(content, vars, front);
      ReplaceAllNeverLengthens(ResolveInOrder(content, vars, front), Placeholder(last), vars[last]);
    }
  }
}
