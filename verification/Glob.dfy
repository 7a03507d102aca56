/** The recursive matcher with its depth limit. */
module Glob {
  import opened QueueSpec
  import opened GlobSpec

  const MAX_DEPTH := 16

  predicate IsWildcard(c: char) { c == '*' || c == '?' }

  /** What is left of pattern and text after the literal characters in common. */
  function Eaten(p: string, s: string): (string, string) {
    if p == [] || s == [] || IsWildcard(p[0]) then (p, s)
    else if p[0] == '\\' then
      if |p| == 1 then (p[1..], s) else if p[1] == s[0] then Eaten(p[2..], s[1..]) else (p, s)
    else if p[0] == s[0] then Eaten(p[1..], s[1..]) else (p, s)
  }

  function WildEaten(p: string): string {
    if p != [] && IsWildcard(p[0]) then WildEaten(p[1..]) else p
  }

  lemma {:induction false} EatenShrinks(p: string, s: string)
    ensures |Eaten(p, s).0| <= |p| && |Eaten(p, s).1| <= |s|
    ensures Eaten(p, s).0 == p[|p| - |Eaten(p, s).0|..] && Eaten(p, s).1 == s[|s| - |Eaten(p, s).1|..]
  {
    if p == [] || s == [] || IsWildcard(p[0]) {
    } else if p[0] == '\\' {
      if |p| > 1 && p[1] == s[0] {
        EatenShrinks(p[2..], s[1..]);
      }
    } else if p[0] == s[0] {
      EatenShrinks(p[1..], s[1..]);
    }
  }

  /** The matcher as it runs. */
  predicate Code(s: string, p: string, depth: nat)
    decreases |p|
  {
    depth <= MAX_DEPTH &&
    var (p1, s1) := Eaten(p, s);
    EatenShrinks(p, s);
    if s1 == [] then WildEaten(p1) == []
    else if p1 == [] then false
    else if p1[0] == '?' then Code(s1, p1[1..], depth + 1) || Code(s1[1..], p1[1..], depth + 1)
    else if p1[0] == '*' then
      (exists k | 0 <= k < |s1| :: Code(s1[k..], p1[1..], depth + 1)) || WildEaten(p1) == []
    else false
  }

  /** The meaning cut down to a budget of wildcards: text that runs out settles the rest for free. */
  predicate Limited(ts: seq<Token>, s: string, budget: int)
    decreases |ts|
  {
    budget >= 0 &&
    if s == [] then AllWild(ts)
    else if ts == [] then false
    else match ts[0]
      case Lit(c) => s[0] == c && Limited(ts[1..], s[1..], budget)
      case Any => Limited(ts[1..], s, budget - 1) || Limited(ts[1..], s[1..], budget - 1)
      case Star => (exists k | 0 <= k < |s| :: Limited(ts[1..], s[k..], budget - 1)) || AllWild(ts)
  }

  lemma {:induction false} WildEatenIs(p: string)
    ensures WildEaten(p) == [] <==> Tokens(p).Some? && AllWild(Tokens(p).value)
  {
    if p != [] {
      if IsWildcard(p[0]) {
        WildEatenIs(p[1..]);
        TokensUnfold(p);
      } else if Tokens(p).Some? {
        assert Tokens(p).value[0].Lit? && Tokens(p).value[0] in Tokens(p).value;
      }
    }
  }

  lemma {:induction false} TokensUnfold(p: string)
    requires p != [] && p[0] != '\\'
    ensures Tokens(p).Some? <==> Tokens(p[1..]).Some?
    ensures Tokens(p).Some? ==> |Tokens(p).value| > 0 && Tokens(p).value[1..] == Tokens(p[1..]).value
    ensures Tokens(p).Some? && IsWildcard(p[0]) ==>
      && Tokens(p).value[0] == (if p[0] == '*' then Star else Any)
      && (AllWild(Tokens(p).value) <==> AllWild(Tokens(p[1..]).value))
  {
    if Tokens(p).Some? {
      var ts := Tokens(p).value;
      assert ts == [ts[0]] + ts[1..];
    }
  }

  predicate Fitting(p: string, s: string, budget: int) {
    Tokens(p).Some? && Limited(Tokens(p).value, s, budget)
  }

  /** Eating common characters does not change the outcome; what stands next is an end, a wildcard or a mismatch. */
  lemma {:induction false} EatenFits(p: string, s: string, budget: nat)
    ensures var (p1, s1) := Eaten(p, s);
      && (Fitting(p, s, budget) <==> Fitting(p1, s1, budget))
      && (s1 != [] && p1 != [] && !IsWildcard(p1[0]) ==> !Fitting(p1, s1, budget))
  {
    if p == [] || s == [] || IsWildcard(p[0]) {
    } else if p[0] == '\\' {
      if |p| > 1 {
        if Tokens(p).Some? {
          assert Tokens(p).value[1..] == Tokens(p[2..]).value;
        }
        if p[1] == s[0] {
          EatenFits(p[2..], s[1..], budget);
        }
      }
    } else {
      TokensUnfold(p);
      if p[0] == s[0] {
        EatenFits(p[1..], s[1..], budget);
      }
    }
  }

  /** The code computes the cut-down meaning, with one wildcard for each level of depth left. */
  lemma {:induction false} CodeIsLimited(s: string, p: string, depth: nat)
    ensures Code(s, p, depth) <==> Fitting(p, s, MAX_DEPTH - depth)
    decreases |p|
  {
    hide Eaten, WildEaten, Tokens, AllWild;
    if depth <= MAX_DEPTH {
      var (p1, s1) := Eaten(p, s);
      EatenShrinks(p, s);
      EatenFits(p, s, MAX_DEPTH - depth);
      WildEatenIs(p1);
      if s1 != [] && p1 != [] && IsWildcard(p1[0]) {
        TokensUnfold(p1);
        CodeIsLimited(s1, p1[1..], depth + 1);
        CodeIsLimited(s1[1..], p1[1..], depth + 1);
        forall k | 0 <= k < |s1| ensures Code(s1[k..], p1[1..], depth + 1) <==> Fitting(p1[1..], s1[k..], MAX_DEPTH - depth - 1) {
          CodeIsLimited(s1[k..], p1[1..], depth + 1);
        }
      } else {
        NoTokens(p1);
      }
    }
  }

  lemma {:induction false} NoTokens(p: string)
    ensures p == [] ==> Tokens(p) == Some([])
  {
  }

  // Soundness and completeness of the cut-down meaning.

  lemma {:induction false} EmptyTextMatches(ts: seq<Token>)
    ensures Matches(ts, []) <==> AllWild(ts)
  {
    if ts != [] {
      var none: string := [];
      EmptyTextMatches(ts[1..]);
      assert ts == [ts[0]] + ts[1..];
      assert none[0..] == none;
      assert AllWild(ts) <==> !ts[0].Lit? && AllWild(ts[1..]);
    }
  }

  lemma {:induction false} LimitedIsSound(ts: seq<Token>, s: string, budget: int)
    requires Limited(ts, s, budget)
    ensures Matches(ts, s)
    decreases |ts|
  {
    if s == [] {
      EmptyTextMatches(ts);
    } else {
      match ts[0] {
        case Lit(c) => LimitedIsSound(ts[1..], s[1..], budget);
        case Any =>
          if Limited(ts[1..], s, budget - 1) {
            LimitedIsSound(ts[1..], s, budget - 1);
          } else {
            LimitedIsSound(ts[1..], s[1..], budget - 1);
          }
        case Star =>
          if AllWild(ts) {
            EmptyTextMatches(ts[1..]);
            assert s[|s|..] == [];
          } else {
            var k :| 0 <= k < |s| && Limited(ts[1..], s[k..], budget - 1);
            LimitedIsSound(ts[1..], s[k..], budget - 1);
          }
      }
    }
  }

  /** The wildcards that cost depth: all but those of a run at the end that starts with `*`. */
  function Needed(ts: seq<Token>): nat {
    if ts == [] || (ts[0] == Star && AllWild(ts)) then 0
    else (if ts[0].Lit? then 0 else 1) + Needed(ts[1..])
  }

  function Wilds(ts: seq<Token>): nat {
    if ts == [] then 0 else (if ts[0].Lit? then 0 else 1) + Wilds(ts[1..])
  }

  lemma {:induction false} NeededIsFewer(ts: seq<Token>)
    ensures Needed(ts) <= Wilds(ts)
  {
    if ts != [] {
      NeededIsFewer(ts[1..]);
    }
  }

  lemma WildAndWild(ts: seq<Token>)
    requires ts != [] && !ts[0].Lit? && AllWild(ts[1..])
    ensures AllWild(ts)
  {
    assert ts == [ts[0]] + ts[1..];
  }

  lemma {:induction false} LimitedIsComplete(ts: seq<Token>, s: string, budget: int)
    requires Matches(ts, s) && Needed(ts) <= budget
    ensures Limited(ts, s, budget)
    decreases |ts|
  {
    hide AllWild;
    if s == [] {
      EmptyTextMatches(ts);
    } else if ts[0] != Star || !AllWild(ts) {
      match ts[0] {
        case Lit(c) => LimitedIsComplete(ts[1..], s[1..], budget);
        case Any =>
          if Matches(ts[1..], s) {
            LimitedIsComplete(ts[1..], s, budget - 1);
          } else {
            LimitedIsComplete(ts[1..], s[1..], budget - 1);
          }
        case Star =>
          var k :| 0 <= k <= |s| && Matches(ts[1..], s[k..]);
          if k < |s| {
            LimitedIsComplete(ts[1..], s[k..], budget - 1);
          } else {
            assert s[k..] == [];
            EmptyTextMatches(ts[1..]);
            WildAndWild(ts);
          }
      }
    }
  }

  /** A pattern means nothing if it ends in a lone backslash. */
  ghost predicate Means(p: string, s: string) { Tokens(p).Some? && Denotes(Tokens(p).value, s) }

  /** Whatever the matcher accepts, the pattern means. */
  lemma {:induction false} MatcherIsSound(s: string, p: string, depth: nat)
    requires Code(s, p, depth)
    ensures Means(p, s)
  {
    CodeIsLimited(s, p, depth);
    LimitedIsSound(Tokens(p).value, s, MAX_DEPTH - depth);
    MatchesIsDenotes(Tokens(p).value, s);
  }

  /** With at most sixteen unescaped wildcards the matcher accepts exactly what the pattern means. */
  lemma {:induction false} MatcherIsExact(s: string, p: string)
    requires Tokens(p).Some? ==> Wilds(Tokens(p).value) <= MAX_DEPTH
    ensures Code(s, p, 0) <==> Means(p, s)
  {
    CodeIsLimited(s, p, 0);
    if Tokens(p).Some? {
      var ts := Tokens(p).value;
      MatchesIsDenotes(ts, s);
      NeededIsFewer(ts);
      if Limited(ts, s, MAX_DEPTH) {
        LimitedIsSound(ts, s, MAX_DEPTH);
      }
      if Matches(ts, s) {
        LimitedIsComplete(ts, s, MAX_DEPTH);
      }
    }
  }
}
