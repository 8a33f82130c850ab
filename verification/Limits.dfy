/**
 The channel limit is checked before the template is resolved, and what is stored is the resolved content:
 when it still meets the limit.
 */
module Limits {
  import opened Domain
  import opened Template
  import opened TemplateOrder
  import opened Protocol

  /** No value is longer than its placeholder, except where the placeholder itself is over the limit. */
  predicate ValuesFit(vars: map<string, string>, limit: nat) {
    forall k :: k in vars && |k| + 4 <= limit ==> |vars[k]| <= |k| + 4
  }

  ghost predicate AlwaysFits(vars: map<string, string>, limit: nat) {
    forall content, r :: |content| <= limit && ResolvesTo(content, vars, r) ==> |r| <= limit
  }

  lemma {:induction false} TooLongToOccur(s: string, pat: string, sub: string)
    requires |pat| > |s|
    ensures ReplaceAll(s, pat, sub) == s
    decreases |s|
  {
    if s != [] {
      TooLongToOccur(s[1..], pat, sub);
      assert [s[0]] + s[1..] == s;
    }
  }

  lemma {:induction false} StaysWithin(content: string, vars: map<string, string>, order: seq<string>, limit: nat)
    requires ValuesFit(vars, limit) && |content| <= limit && forall k :: k in order ==> k in vars
    ensures |ResolveInOrder(content, vars, order)| <= limit
  {
    if order != [] {
      var front, last := order[..|order| - 1], order[|order| - 1];
      StaysWithin(content, vars, front, limit);
      var before := ResolveInOrder(content, vars, front);
      if |last| + 4 <= limit { ReplaceAllNeverLengthens(before, Placeholder(last), vars[last]); }
      else { TooLongToOccur(before, Placeholder(last), vars[last]); }
    }
  }

  /** Filler text of a given length. */
  function Filler(n: nat): (s: string)
    ensures |s| == n && BraceFree(s)
  {
    seq(n, i => 'x')
  }

  /** Filler up to the limit and one placeholder whose value is longer than it: the result is over the limit. */
  lemma Overflows(vars: map<string, string>, limit: nat, k: string) returns (content: string, r: string)
    requires BraceFreeVars(vars) && k in vars && |k| + 4 <= limit && |vars[k]| > |k| + 4
    ensures |content| <= limit && ResolvesTo(content, vars, r) && |r| > limit
  {
    var pad := Filler(limit - |k| - 4);
    var toks := Chars(pad) + [Hole(k)];
    assert toks[|pad|] == Hole(k);
    assert forall i :: 0 <= i < |pad| ==> toks[i] == Char(pad[i]);
    assert WellFormed(toks);
    RenderChars(pad, [Hole(k)]);
    RenderOne(Hole(k));
    content := Render(toks);
    var order := OrderOf(vars.Keys);
    assert IsOrder(vars, order);
    r := ResolveInOrder(content, vars, order);
    assert ResolvesTo(content, vars, r);
    WellFormedTemplate(toks, vars, r);
    assert Fill(toks, vars, vars.Keys) == Chars(pad) + [Val(vars[k])];
    RenderChars(pad, [Val(vars[k])]);
    RenderOne(Val(vars[k]));
  }

  lemma RenderOne(t: Token)
    ensures Render([t]) == TokenText(t)
  {
    assert [t][1..] == [];
  }

  /** With brace-free names and values, every content within the limit resolves to one within it if and only if the values fit. */
  lemma LimitSurvives(vars: map<string, string>, limit: nat)
    requires BraceFreeVars(vars)
    ensures AlwaysFits(vars, limit) <==> ValuesFit(vars, limit)
  {
    if ValuesFit(vars, limit) {
      forall content, r | |content| <= limit && ResolvesTo(content, vars, r)
        ensures |r| <= limit
      {
        var order :| IsOrder(vars, order) && r == ResolveInOrder(content, vars, order);
        StaysWithin(content, vars, order, limit);
      }
    } else {
      var k :| k in vars && |k| + 4 <= limit && |vars[k]| > |k| + 4;
      var content, r := Overflows(vars, limit, k);
    }
  }

  /** What `Create` stores for an accepted request whose values fit meets the channel's limit, whatever braces they hold. */
  lemma StoredContentFits(req: Request, id: nat, content: string)
    requires Accept(req).Ok? && ResolvesTo(req.content, req.vars, content)
    requires ValuesFit(req.vars, MaxContentLength(Accept(req).value.0))
    ensures var n := NoticeOf(req, id, None, content); |n.content| <= MaxContentLength(n.channel)
  {
    var order :| IsOrder(req.vars, order) && content == ResolveInOrder(req.content, req.vars, order);
    StaysWithin(req.content, req.vars, order, MaxContentLength(Accept(req).value.0));
  }
}
