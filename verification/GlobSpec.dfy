/** What a wildcard pattern means. */
module GlobSpec {
  import opened QueueSpec

  /** `*` is any string, `?` at most one character, anything else stands for itself. */
  datatype Token = Lit(c: char) | Any | Star

  /** A backslash makes a literal of the next character; one at the very end makes no pattern. */
  function Tokens(pattern: string): Option<seq<Token>> {
    if pattern == [] then Some([])
    else if pattern[0] == '\\' && |pattern| == 1 then None
    else
      var escaped := pattern[0] == '\\';
      match Tokens(pattern[if escaped then 2 else 1..])
      case None => None
      case Some(rest) =>
        if escaped then Some([Lit(pattern[1])] + rest)
        else Some([if pattern[0] == '*' then Star else if pattern[0] == '?' then Any else Lit(pattern[0])] + rest)
  }

  /** One piece of text for one token. */
  predicate Fits(t: Token, piece: string) {
    match t
    case Lit(c) => piece == [c]
    case Any => |piece| <= 1
    case Star => true
  }

  function Joined(pieces: seq<string>): string {
    if pieces == [] then "" else pieces[0] + Joined(pieces[1..])
  }

  ghost predicate Cut(ts: seq<Token>, s: string, pieces: seq<string>) {
    |pieces| == |ts| && Joined(pieces) == s && forall i | 0 <= i < |ts| :: Fits(ts[i], pieces[i])
  }

  /** The text can be cut into pieces that fit the tokens one by one. */
  ghost predicate Denotes(ts: seq<Token>, s: string) {
    exists pieces: seq<string> :: Cut(ts, s, pieces)
  }

  /** The same, token by token. */
  predicate Matches(ts: seq<Token>, s: string)
    decreases |ts|
  {
    if ts == [] then s == []
    else match ts[0]
      case Lit(c) => s != [] && s[0] == c && Matches(ts[1..], s[1..])
      case Any => Matches(ts[1..], s) || (s != [] && Matches(ts[1..], s[1..]))
      case Star => exists k | 0 <= k <= |s| :: Matches(ts[1..], s[k..])
  }

  lemma {:induction false} MatchesIsDenotes(ts: seq<Token>, s: string)
    ensures Matches(ts, s) <==> Denotes(ts, s)
    decreases |ts|
  {
    if ts == [] {
      assert s == [] ==> Cut(ts, s, []);
    } else {
      forall k | 0 <= k <= |s| && Fits(ts[0], s[..k]) && Matches(ts[1..], s[k..]) ensures Denotes(ts, s) {
        MatchesIsDenotes(ts[1..], s[k..]);
        var rest :| Cut(ts[1..], s[k..], rest);
        assert Cut(ts, s, [s[..k]] + rest) by { assert ([s[..k]] + rest)[1..] == rest; }
      }
      forall pieces | Cut(ts, s, pieces)
        ensures exists k | 0 <= k <= |s| :: Fits(ts[0], s[..k]) && Matches(ts[1..], s[k..])
      {
        var k := |pieces[0]|;
        assert s == pieces[0] + Joined(pieces[1..]);
        assert s[..k] == pieces[0] && s[k..] == Joined(pieces[1..]);
        assert Cut(ts[1..], s[k..], pieces[1..]);
        MatchesIsDenotes(ts[1..], s[k..]);
      }
      FirstPiece(ts, s);
    }
  }

  lemma {:induction false} FirstPiece(ts: seq<Token>, s: string)
    requires ts != []
    ensures Matches(ts, s) <==> exists k | 0 <= k <= |s| :: Fits(ts[0], s[..k]) && Matches(ts[1..], s[k..])
  {
    assert s[0..] == s;
    match ts[0] {
      case Lit(c) =>
        assert s != [] ==> s[..1] == [s[0]];
      case Any =>
        if Matches(ts, s) {
          if Matches(ts[1..], s) {
            assert Fits(ts[0], s[..0]) && Matches(ts[1..], s[0..]);
          } else {
            assert Fits(ts[0], s[..1]) && Matches(ts[1..], s[1..]);
          }
        }
      case Star =>
        if Matches(ts, s) {
          var k :| 0 <= k <= |s| && Matches(ts[1..], s[k..]);
          assert Fits(ts[0], s[..k]);
        }
    }
  }

  predicate AllWild(ts: seq<Token>) { forall t | t in ts :: !t.Lit? }
}
