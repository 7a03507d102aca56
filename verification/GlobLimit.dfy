/** Exactly which patterns the depth limit of the matcher hurts, and the matcher as loops. */
module GlobLimit {
  import opened QueueSpec
  import opened GlobSpec
  import opened Glob

  predicate HasLit(ts: seq<Token>) { exists t | t in ts :: t.Lit? }

  function Literals(ts: seq<Token>): string {
    if ts == [] then "" else (if ts[0].Lit? then [ts[0].c] else "") + Literals(ts[1..])
  }

  /** The `?`s that follow the last literal before any `*`. */
  function Tail(ts: seq<Token>): nat {
    if ts == [] then 0
    else if HasLit(ts) then Tail(ts[1..])
    else if ts[0] == Any then 1 + Tail(ts[1..]) else 0
  }

  function Copies(y: char, m: nat): string { seq(m, _ => y) }

  /** A text the pattern means but that wants all the wildcards: literals, and one `y` for each `?` of the tail. */
  function Hard(ts: seq<Token>, y: char): string { Literals(ts) + Copies(y, Tail(ts)) }

  lemma HasLitUnfold(ts: seq<Token>)
    requires ts != []
    ensures HasLit(ts) <==> ts[0].Lit? || HasLit(ts[1..])
    ensures AllWild(ts) <==> !HasLit(ts)
  {
    assert ts == [ts[0]] + ts[1..];
  }

  lemma CopiesUnfold(y: char, m: nat)
    ensures m > 0 ==> Copies(y, m) == [y] + Copies(y, m - 1)
    ensures m > 0 ==> Copies(y, m)[0] == y && Copies(y, m)[1..] == Copies(y, m - 1)
  {
  }

  lemma {:induction false} NoLiterals(ts: seq<Token>)
    requires !HasLit(ts)
    ensures Literals(ts) == ""
  {
    if ts != [] {
      HasLitUnfold(ts);
      NoLiterals(ts[1..]);
    }
  }

  lemma {:induction false} HardMatches(ts: seq<Token>, y: char)
    ensures Matches(ts, Hard(ts, y))
  {
    if ts != [] {
      var s := Hard(ts, y);
      HasLitUnfold(ts);
      HardMatches(ts[1..], y);
      if !HasLit(ts) {
        NoLiterals(ts);
        NoLiterals(ts[1..]);
        assert s == Copies(y, Tail(ts));
        CopiesUnfold(y, Tail(ts));
        if ts[0] == Star {
          EmptyTextMatches(ts);
          assert s == [];
        } else {
          assert Hard(ts[1..], y) == Copies(y, Tail(ts) - 1) == s[1..];
        }
      } else if ts[0].Lit? {
        if !HasLit(ts[1..]) {
          NoLiterals(ts[1..]);
        }
        assert s == [ts[0].c] + Hard(ts[1..], y);
        assert s[1..] == Hard(ts[1..], y);
      } else {
        assert s == Hard(ts[1..], y) && s[0..] == s;
      }
    }
  }

  /** Characters other than `y`. */
  function Others(s: string, y: char): nat {
    if s == [] then 0 else (if s[0] == y then 0 else 1) + Others(s[1..], y)
  }

  lemma {:induction false} OthersOfSuffix(s: string, k: nat, y: char)
    requires k <= |s|
    ensures Others(s[k..], y) <= Others(s, y)
  {
    if k > 0 {
      OthersOfSuffix(s[1..], k - 1, y);
      assert s[1..][k - 1..] == s[k..];
    } else {
      assert s[0..] == s;
    }
  }

  lemma {:induction false} OthersOfCopies(u: string, m: nat, y: char)
    requires y !in u
    ensures Others(u + Copies(y, m), y) == |u|
  {
    if u != [] {
      assert (u + Copies(y, m))[1..] == u[1..] + Copies(y, m);
      OthersOfCopies(u[1..], m, y);
    } else if m > 0 {
      CopiesUnfold(y, m);
      assert u + Copies(y, m) == Copies(y, m) && u + Copies(y, m - 1) == Copies(y, m - 1);
      OthersOfCopies(u, m - 1, y);
    }
  }

  /** Every literal needs a character of its own. */
  lemma {:induction false} LiteralsNeedText(ts: seq<Token>, s: string, y: char)
    requires Matches(ts, s) && y !in Literals(ts)
    ensures |Literals(ts)| <= Others(s, y)
    decreases |ts|
  {
    if ts != [] {
      assert forall c | c in Literals(ts[1..]) :: c in Literals(ts);
      match ts[0] {
        case Lit(c) =>
          assert c == Literals(ts)[0];
          LiteralsNeedText(ts[1..], s[1..], y);
        case Any =>
          if Matches(ts[1..], s) {
            LiteralsNeedText(ts[1..], s, y);
          } else {
            LiteralsNeedText(ts[1..], s[1..], y);
          }
        case Star =>
          var k :| 0 <= k <= |s| && Matches(ts[1..], s[k..]);
          LiteralsNeedText(ts[1..], s[k..], y);
          OthersOfSuffix(s, k, y);
      }
    }
  }

  lemma {:induction false} TailRejects(ts: seq<Token>, m: nat, y: char, budget: int)
    requires !HasLit(ts) && budget >= -1 && Tail(ts) > budget && m > budget
    ensures !Limited(ts, Copies(y, m), budget)
    decreases |ts|
  {
    if budget >= 0 {
      HasLitUnfold(ts);
      CopiesUnfold(y, m);
      TailRejects(ts[1..], m, y, budget - 1);
      TailRejects(ts[1..], m - 1, y, budget - 1);
    }
  }

  /** Too few characters for the literals: rejected. */
  lemma {:induction false} ShortRejects(ts: seq<Token>, s: string, y: char, budget: int)
    requires y !in Literals(ts) && Others(s, y) < |Literals(ts)|
    ensures !Limited(ts, s, budget)
  {
    if Limited(ts, s, budget) {
      LimitedIsSound(ts, s, budget);
      LiteralsNeedText(ts, s, y);
    }
  }

  lemma {:induction false} HeadUnfold(ts: seq<Token>, y: char)
    requires HasLit(ts) && y !in Literals(ts)
    ensures ts != [] && !AllWild(ts) && y !in Literals(ts[1..]) && Tail(ts) == Tail(ts[1..])
    ensures |Literals(ts)| == |Literals(ts[1..])| + (if ts[0].Lit? then 1 else 0)
    ensures Needed(ts) == Needed(ts[1..]) + if ts[0].Lit? then 0 else 1
    ensures !ts[0].Lit? ==> HasLit(ts[1..])
  {
    HasLitUnfold(ts);
    assert forall c | c in Literals(ts[1..]) :: c in Literals(ts);
  }

  lemma {:induction false} HeadRejects(ts: seq<Token>, u: string, m: nat, y: char, budget: int)
    requires HasLit(ts) && |u| == |Literals(ts)| && y !in u && y !in Literals(ts)
    requires m == Tail(ts) && Needed(ts) > budget
    ensures !Limited(ts, u + Copies(y, m), budget)
    decreases |ts|
  {
    hide Others, Copies, Literals, Needed, Tail, AllWild, HasLit;
    if budget >= 0 {
      HeadUnfold(ts, y);
      var s, rest := u + Copies(y, m), ts[1..];
      if ts[0].Lit? {
        assert |u| > 0;
        assert s[1..] == u[1..] + Copies(y, m);
        if HasLit(rest) {
          HeadRejects(rest, u[1..], m, y, budget);
        } else {
          NoLiterals(rest);
          assert u[1..] == [] && s[1..] == Copies(y, m);
          NeededOfTail(rest);
          TailRejects(rest, m, y, budget);
        }
      } else {
        OthersOfCopies(u, m, y);
        HeadRejects(rest, u, m, y, budget - 1);
        if s != [] {
          LaterRejects(rest, u, m, y, budget - 1);
          assert s[0..] == s;
        }
      }
    }
  }

  lemma LaterRejects(ts: seq<Token>, u: string, m: nat, y: char, budget: int)
    requires HasLit(ts) && |u| == |Literals(ts)| && y !in u && y !in Literals(ts)
    ensures forall k | 0 < k <= |u + Copies(y, m)| :: !Limited(ts, (u + Copies(y, m))[k..], budget)
  {
    var s := u + Copies(y, m);
    LiteralsExist(ts);
    OthersOfCopies(u, m, y);
    forall k | 0 < k <= |s| ensures !Limited(ts, s[k..], budget) {
      assert s[1..][k - 1..] == s[k..];
      OthersOfSuffix(s[1..], k - 1, y);
      assert s[0] != y;
      ShortRejects(ts, s[k..], y, budget);
    }
  }

  lemma {:induction false} LiteralsExist(ts: seq<Token>)
    requires HasLit(ts)
    ensures |Literals(ts)| > 0
  {
    HasLitUnfold(ts);
    if !ts[0].Lit? {
      LiteralsExist(ts[1..]);
    }
  }

  lemma {:induction false} NeededOfTail(ts: seq<Token>)
    requires !HasLit(ts)
    ensures Needed(ts) == Tail(ts)
  {
    if ts != [] {
      HasLitUnfold(ts);
      if ts[0] == Any {
        NeededOfTail(ts[1..]);
      }
    }
  }

  /** A pattern that needs more wildcards than the budget rejects a text it means. */
  lemma {:induction false} HardIsRejected(ts: seq<Token>, y: char, budget: nat)
    requires Needed(ts) > budget && y !in Literals(ts)
    ensures Matches(ts, Hard(ts, y)) && !Limited(ts, Hard(ts, y), budget)
  {
    HardMatches(ts, y);
    if HasLit(ts) {
      HeadRejects(ts, Literals(ts), Tail(ts), y, budget);
    } else {
      NoLiterals(ts);
      NeededOfTail(ts);
      assert Hard(ts, y) == Copies(y, Tail(ts));
      TailRejects(ts, Tail(ts), y, budget);
    }
  }

  /**
   * The limit hurts exactly the patterns with more than sixteen unescaped wildcards, not
   * counting a run of wildcards at the end that starts with `*`: the matcher then rejects
   * some text the pattern means (given a character that is no literal of the pattern).
   */
  lemma {:induction false} CompleteIffFewWildcards(p: string, y: char)
    requires Tokens(p).Some? && y !in Literals(Tokens(p).value)
    ensures Needed(Tokens(p).value) <= MAX_DEPTH <==> forall s: string :: Means(p, s) ==> Code(s, p, 0)
  {
    var ts := Tokens(p).value;
    if Needed(ts) <= MAX_DEPTH {
      forall s: string | Means(p, s) ensures Code(s, p, 0) {
        MatchesIsDenotes(ts, s);
        LimitedIsComplete(ts, s, MAX_DEPTH);
        CodeIsLimited(s, p, 0);
      }
    } else {
      HardIsRejected(ts, y, MAX_DEPTH);
      MatchesIsDenotes(ts, Hard(ts, y));
      CodeIsLimited(Hard(ts, y), p, 0);
    }
  }

  // The loops. Pointers into pattern and text are positions; a text ends where its C string ends.

  method EatSameChars(pattern: string, from: nat, text: string, start: nat) returns (i: nat, j: nat)
    requires from <= |pattern| && start <= |text|
    ensures from <= i <= |pattern| && start <= j <= |text|
    ensures (pattern[i..], text[j..]) == Eaten(pattern[from..], text[start..])
  {
    i, j := from, start;
    var escaped := false;
    while i < |pattern| && j < |text|
      invariant from <= i <= |pattern| && start <= j <= |text|
      invariant escaped ==> i > from && pattern[i - 1] == '\\'
      invariant Eaten(pattern[from..], text[start..]) == Eaten(pattern[if escaped then i - 1 else i..], text[j..])
      invariant escaped ==> j < |text|
      decreases |pattern| - i
    {
      if !escaped && IsWildcard(pattern[i]) {
        return;
      }
      if !escaped && pattern[i] == '\\' {
        escaped := true;
        i := i + 1;
        continue;
      }
      assert escaped ==> pattern[i - 1..][1] == pattern[i] && pattern[i - 1..][2..] == pattern[i + 1..];
      if pattern[i] == text[j] {
        i, j := i + 1, j + 1;
      } else {
        if escaped {
          i := i - 1;
        }
        return;
      }
      escaped := false;
    }
  }

  method EatWildcard(pattern: string, from: nat) returns (i: nat)
    requires from <= |pattern|
    ensures from <= i <= |pattern| && pattern[i..] == WildEaten(pattern[from..])
  {
    i := from;
    while i < |pattern|
      invariant from <= i <= |pattern| && WildEaten(pattern[from..]) == WildEaten(pattern[i..])
    {
      if !IsWildcard(pattern[i]) {
        return;
      }
      i := i + 1;
    }
  }

  method MatchPattern(text: string, start: nat, pattern: string, from: nat, depth: nat) returns (r: bool)
    requires start <= |text| && from <= |pattern|
    ensures r == Code(text[start..], pattern[from..], depth)
    decreases |pattern| - from
  {
    hide Eaten, WildEaten;
    if depth > MAX_DEPTH {
      return false;
    }
    var i, j := EatSameChars(pattern, from, text, start);
    ghost var p, s := pattern[i..], text[j..];
    if j == |text| {
      i := EatWildcard(pattern, i);
      return i == |pattern|;
    }
    if i == |pattern| {
      return false;
    }
    assert p[1..] == pattern[i + 1..] && s[1..] == text[j + 1..];
    if pattern[i] == '?' {
      var rest := MatchPattern(text, j, pattern, i + 1, depth + 1);
      if !rest {
        rest := MatchPattern(text, j + 1, pattern, i + 1, depth + 1);
      }
      if rest {
        return true;
      }
    }
    if pattern[i] == '*' {
      ghost var k := 0;
      while j < |text|
        invariant j <= |text| && k <= |s| && text[j..] == s[k..]
        invariant forall l | 0 <= l < k :: !Code(s[l..], p[1..], depth + 1)
        decreases |text| - j
      {
        var rest := MatchPattern(text, j, pattern, i + 1, depth + 1);
        if rest {
          return true;
        }
        j, k := j + 1, k + 1;
      }
      i := EatWildcard(pattern, i);
      return i == |pattern|;
    }
    return false;
  }

  /** The matcher as called: exact for at most sixteen unescaped wildcards, sound for any. */
  method MatchPatternWide(text: string, pattern: string) returns (r: bool)
    ensures r ==> Means(pattern, text)
    ensures Tokens(pattern).Some? && Needed(Tokens(pattern).value) <= MAX_DEPTH ==> (r <==> Means(pattern, text))
  {
    r := MatchPattern(text, 0, pattern, 0, 0);
    assert text[0..] == text && pattern[0..] == pattern;
    if r {
      MatcherIsSound(text, pattern, 0);
    } else if Tokens(pattern).Some? && Needed(Tokens(pattern).value) <= MAX_DEPTH && Means(pattern, text) {
      MatchesIsDenotes(Tokens(pattern).value, text);
      LimitedIsComplete(Tokens(pattern).value, text, MAX_DEPTH);
      CodeIsLimited(text, pattern, 0);
    }
  }
}
