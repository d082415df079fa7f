/** The trusted-origin check: the regular expression `^https:\/\/yousign.app$`, held by
    every session as `childOrigin`, is modelled as a sequence of atoms and matched with
    the semantics `String.prototype.match` gives a pattern without flags: a match is
    tried at every start position, `^` and `$` hold only at the ends of the input, and
    `.` (left unescaped in the source) accepts one UTF-16 code unit other than a line
    terminator. Strings here are sequences of Unicode scalar values, so a character
    outside the Basic Multilingual Plane, which JavaScript stores as two code units,
    is never accepted by `.`. */
module OriginPattern {

  datatype Atom = InputStart | InputEnd | Literal(c: char) | AnyChar

  type Pattern = seq<Atom>

  predicate IsLineTerminator(c: char) {
    c == '\n' || c == '\r' || c == '\U{2028}' || c == '\U{2029}'
  }

  /** What `.` accepts without the `s` and `u` flags. */
  predicate DotAccepts(c: char) {
    !IsLineTerminator(c) && (c as int) < 0x1_0000
  }

  /** The pattern that matches the text `t` literally. */
  function Literals(t: string): (p: Pattern)
    ensures |p| == |t|
    ensures forall i :: 0 <= i < |t| ==> p[i] == Literal(t[i])
  {
    seq(|t|, i requires 0 <= i < |t| => Literal(t[i]))
  }

  /** Whether `p` matches `s` starting at position `i`. */
  predicate MatchesAt(p: Pattern, s: string, i: nat)
    requires i <= |s|
    decreases |p|
  {
    if p == [] then true
    else match p[0]
      case InputStart => i == 0 && MatchesAt(p[1..], s, i)
      case InputEnd => i == |s| && MatchesAt(p[1..], s, i)
      case Literal(c) => i < |s| && s[i] == c && MatchesAt(p[1..], s, i + 1)
      case AnyChar => i < |s| && DotAccepts(s[i]) && MatchesAt(p[1..], s, i + 1)
  }

  /** `s.match(p)` is truthy: some start position yields a match. */
  predicate Matches(p: Pattern, s: string) {
    exists i :: 0 <= i <= |s| && MatchesAt(p, s, i)
  }

  /** `^prefix.suffix$`: both texts literal, one `.` between them. */
  function HostPattern(prefix: string, suffix: string): Pattern {
    [InputStart] + Literals(prefix) + [AnyChar] + Literals(suffix) + [InputEnd]
  }

  /** The text before the pattern's one unescaped `.`; `\/` is a literal slash. */
  const TrustedPrefix := "https://yousign"
  /** The text after it. */
  const TrustedSuffix := "app"

  /** `^https:\/\/yousign.app$`. */
  const ChildOrigin: Pattern := HostPattern(TrustedPrefix, TrustedSuffix)

  /** A run of literal atoms consumes exactly its own text. */
  lemma {:induction false} LiteralsThen(t: string, rest: Pattern, s: string, i: nat)
    requires i <= |s|
    ensures MatchesAt(Literals(t) + rest, s, i)
        <==> i + |t| <= |s| && s[i..i + |t|] == t && MatchesAt(rest, s, i + |t|)
    decreases |t|
  {
    var p := Literals(t) + rest;
    if t != [] {
      assert p[0] == Literal(t[0]);
      assert p[1..] == Literals(t[1..]) + rest;
      if i < |s| && s[i] == t[0] {
        LiteralsThen(t[1..], rest, s, i + 1);
        if i + |t| <= |s| {
          assert s[i..i + |t|] == [s[i]] + s[i + 1..i + 1 + |t[1..]|];
          assert t == [t[0]] + t[1..];
        }
      } else if i + |t| <= |s| {
        assert s[i..i + |t|][0] == s[i];
      }
    } else {
      assert p == rest;
    }
  }

  /** A pattern `^prefix.suffix$` matches exactly the texts made of `prefix`, one
      character that `.` accepts, and `suffix`. */
  lemma HostPatternExactly(prefix: string, suffix: string, s: string)
    ensures Matches(HostPattern(prefix, suffix), s)
        <==> && |s| == |prefix| + 1 + |suffix|
             && s[..|prefix|] == prefix
             && DotAccepts(s[|prefix|])
             && s[|prefix| + 1..] == suffix
  {
    var n := |prefix|;
    var tail := [InputEnd];
    var afterDot := Literals(suffix) + tail;
    var afterHost := [AnyChar] + afterDot;
    var body := Literals(prefix) + afterHost;
    var p := HostPattern(prefix, suffix);
    assert p == [InputStart] + body;
    assert p[1..] == body;
    assert afterHost[1..] == afterDot;
    assert tail[1..] == [];
    if Matches(p, s) {
      var i :| 0 <= i <= |s| && MatchesAt(p, s, i);
      assert i == 0 && MatchesAt(body, s, 0);
      LiteralsThen(prefix, afterHost, s, 0);
      assert MatchesAt(afterHost, s, n);
      LiteralsThen(suffix, tail, s, n + 1);
      assert s[..n] == s[0..n];
      assert s[n + 1..] == s[n + 1..n + 1 + |suffix|];
    }
    if |s| == n + 1 + |suffix| && s[..n] == prefix && DotAccepts(s[n]) && s[n + 1..] == suffix {
      assert MatchesAt(tail, s, |s|);
      assert s[n + 1..n + 1 + |suffix|] == suffix;
      LiteralsThen(suffix, tail, s, n + 1);
      assert MatchesAt(afterHost, s, n);
      assert s[0..n] == prefix;
      LiteralsThen(prefix, afterHost, s, 0);
      assert MatchesAt(p, s, 0);
    }
  }

  /** The trusted-origin check accepts exactly the 19-character origins
      `"https://yousign" + c + "app"` where `.` accepts `c`. */
  lemma ChildOriginExactly(s: string)
    ensures Matches(ChildOrigin, s)
        <==> |s| == 19 && s[..15] == TrustedPrefix && DotAccepts(s[15]) && s[16..] == TrustedSuffix
  {
    HostPatternExactly(TrustedPrefix, TrustedSuffix, s);
  }

  /** `^prefix.suffix$` accepts `prefix + [c] + suffix` exactly when `.` accepts `c`. */
  lemma HostPatternSeparator(prefix: string, suffix: string, c: char)
    ensures Matches(HostPattern(prefix, suffix), prefix + [c] + suffix) <==> DotAccepts(c)
  {
    var s := prefix + [c] + suffix;
    HostPatternExactly(prefix, suffix, s);
    assert s[..|prefix|] == prefix && s[|prefix|] == c && s[|prefix| + 1..] == suffix;
  }

  /** Because the dot is not escaped, any one accepted character may stand between
      "yousign" and "app"; the canonical origin is the case `c == '.'`. */
  lemma ChildOriginAcceptsAnySeparator(c: char)
    ensures Matches(ChildOrigin, TrustedPrefix + [c] + TrustedSuffix) <==> DotAccepts(c)
  {
    HostPatternSeparator(TrustedPrefix, TrustedSuffix, c);
  }

  /** A subdomain of the genuine origin, and the genuine host over plain http, are not trusted. */
  lemma ChildOriginRejects()
    ensures !Matches(ChildOrigin, "https://app.yousign.app")
    ensures !Matches(ChildOrigin, "http://yousign.app")
  {
    ChildOriginExactly("https://app.yousign.app");
    ChildOriginExactly("http://yousign.app");
  }
}
