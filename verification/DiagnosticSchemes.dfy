/**
  Which of the listed scheme names are found in a diagnostic text. The names are joined into a regular
  expression unescaped, so that the plus sign of "mongodb+srv" repeats the letter before it.
 */
module DiagnosticSchemes {
  import opened Wrappers
  import opened JsText
  import opened DiagnosticText

  /** The name, in any case, and its colon stand at i. */
  predicate Occurs(s: string, i: nat, name: string) {
    i + |name| < |s| && Lower(s[i..i + |name|]) == name && s[i + |name|] == ':'
  }

  predicate SlashesFollow(s: string, i: nat) {
    i + 1 < |s| && IsSlash(s[i]) && IsSlash(s[i + 1])
  }

  /** The name and its colon lie inside a match. */
  predicate IsMatched(s: string, i: nat, name: string) {
    exists m | m in Matches(s) :: m.start <= i && i + |name| + 1 <= m.end
  }

  // ------------------------------------------------------------------ what the scanner finds

  lemma {:induction false} LiteralEnd(s: string, i: nat, pattern: string)
    requires i + |pattern| <= |s| && '+' !in pattern
    requires forall k | 0 <= k < |pattern| :: LowerChar(s[i + k]) == pattern[k]
    ensures PatternEnd(s, i, pattern) == Some(i + |pattern|)
    decreases |pattern|
  {
    if pattern != "" {
      assert pattern[0] in pattern;
      assert |pattern| > 1 ==> pattern[1] in pattern;
      LiteralEnd(s, i + 1, pattern[1..]);
    }
  }

  lemma {:induction false} NamedFinds(s: string, i: nat, schemes: seq<string>, name: string)
    requires i < |s| && name in schemes && PatternEnd(s, i, name + ":").Some?
    ensures NamedEnd(s, i, schemes).Some?
    decreases |schemes|
  {
    if PatternEnd(s, i, schemes[0] + ":").None? {
      NamedFinds(s, i, schemes[1..], name);
    }
  }

  lemma {:induction false} FoundIsMatched(s: string, find: Finder, from: nat, i: nat) returns (m: Span)
    requires from <= i < |s| && Finds(s, find) && find(i).Some?
    ensures m in MatchesBy(s, find, from) && m.start <= i < m.end
    decreases |s| - from
  {
    match find(from) {
      case None => m := FoundIsMatched(s, find, from + 1, i);
      case Some(end) =>
        if i < end {
          m := Span(from, end);
          assert MatchesBy(s, find, from)[0] == m;
        } else {
          m := FoundIsMatched(s, find, end, i);
          assert m in [Span(from, end)] + MatchesBy(s, find, end);
        }
    }
  }

  lemma {:induction false} MatchedIsFound(s: string, find: Finder, from: nat, m: Span)
    requires from <= |s| && Finds(s, find) && m in MatchesBy(s, find, from)
    ensures from <= m.start < |s| && find(m.start) == Some(m.end)
    decreases |s| - from
  {
    match find(from) {
      case None => MatchedIsFound(s, find, from + 1, m);
      case Some(end) =>
        if m != Span(from, end) {
          MatchedIsFound(s, find, end, m);
        }
    }
  }

  lemma SlashedShape(s: string, i: nat) returns (colon: nat)
    requires i < |s| && SlashedEnd(s, i).Some?
    ensures i < colon && colon + 2 < |s| && s[colon] == ':' && SlashesFollow(s, colon + 1)
    ensures SlashedEnd(s, i) == Some(colon + 3) && forall j | i <= j < colon :: IsSchemeChar(s[j])
  {
    colon := FirstIn(s, i + 1, c => !IsSchemeChar(c));
  }

  lemma NamedMatchShape(s: string, i: nat) returns (colon: nat)
    requires i < |s| && NamedEnd(s, i, SCHEMES).Some?
    ensures i < colon < |s| && NamedEnd(s, i, SCHEMES) == Some(colon + 1) && s[colon] == ':'
    ensures forall j | i <= j < colon :: IsSchemeChar(s[j]) && s[j] != '+'
  {
    NamedShape(s, i);
    colon := NamedEnd(s, i, SCHEMES).value - 1;
  }

  /** Scheme characters and a colon, and either two slashes or no plus sign. */
  predicate IsShaped(s: string, i: nat, colon: nat, end: nat) {
    && i < colon < end <= |s| && s[colon] == ':'
    && (forall j | i <= j < colon :: IsSchemeChar(s[j]))
    && (end == colon + 1 || (end == colon + 3 && SlashesFollow(s, colon + 1)))
    && (end == colon + 1 ==> forall j | i <= j < colon :: s[j] != '+')
  }

  lemma EndIsShaped(s: string, i: nat) returns (colon: nat)
    requires i < |s| && MatchEnd(s, i).Some?
    ensures IsShaped(s, i, colon, MatchEnd(s, i).value)
    ensures NamedEnd(s, i, SCHEMES).Some? || SlashesFollow(s, colon + 1)
  {
    if NamedEnd(s, i, SCHEMES).Some? {
      colon := NamedMatchShape(s, i);
    } else {
      colon := SlashedShape(s, i);
    }
  }

  lemma MatchShape(s: string, m: Span) returns (colon: nat)
    requires m in Matches(s)
    ensures IsShaped(s, m.start, colon, m.end)
    ensures NamedEnd(s, m.start, SCHEMES).Some? || SlashesFollow(s, colon + 1)
  {
    MatchedIsFound(s, Schemes(s), 0, m);
    colon := EndIsShaped(s, m.start);
  }

  lemma OccurrenceHasNoColon(s: string, i: nat, name: string)
    requires IsSchemeName(name) && Occurs(s, i, name)
    ensures forall j | i <= j < i + |name| :: IsSchemeChar(s[j]) && s[j] != ':' && LowerChar(s[j]) == name[j - i]
    ensures !IsSlash(s[i])
  {
    forall j | i <= j < i + |name| ensures IsSchemeChar(s[j]) && s[j] != ':' && LowerChar(s[j]) == name[j - i] {
      assert Lower(s[i..i + |name|])[j - i] == LowerChar(s[j]);
    }
  }

  lemma PlusIsInText(s: string, i: nat, name: string)
    requires IsSchemeName(name) && Occurs(s, i, name)
    ensures '+' in name ==> exists j | i <= j < i + |name| :: s[j] == '+'
  {
    if k :| 0 <= k < |name| && name[k] == '+' {
      assert Lower(s[i..i + |name|])[k] == LowerChar(s[i + k]);
      assert s[i + k] == '+';
    }
  }

  /** A match that reaches the name reaches over its colon: the colon is the match's own. */
  lemma ReachesOver(s: string, i: nat, name: string, m: Span)
    requires IsSchemeName(name) && Occurs(s, i, name) && m in Matches(s) && m.start <= i < m.end
    ensures i + |name| < m.end
    ensures '+' in name ==> SlashesFollow(s, i + |name| + 1)
  {
    var colon := MatchShape(s, m);
    OccurrenceHasNoColon(s, i, name);
    assert forall j | m.start <= j < colon :: s[j] != ':';
    assert colon == i + |name|;
    PlusIsInText(s, i, name);
  }

  lemma SlashedNameIsFound(s: string, i: nat, name: string)
    requires IsSchemeName(name) && Occurs(s, i, name) && SlashesFollow(s, i + |name| + 1)
    ensures SlashedEnd(s, i).Some?
  {
    OccurrenceHasNoColon(s, i, name);
    assert LowerChar(s[i]) == name[0];
    assert FirstIn(s, i + 1, c => !IsSchemeChar(c)) == i + |name|;
  }

  lemma PlainNameIsFound(s: string, i: nat, name: string)
    requires name in SCHEMES && IsSchemeName(name) && '+' !in name && Occurs(s, i, name)
    ensures NamedEnd(s, i, SCHEMES).Some?
  {
    OccurrenceHasNoColon(s, i, name);
    LiteralEnd(s, i, name + ":");
    NamedFinds(s, i, SCHEMES, name);
  }

  /**
    A listed name with its colon lies inside a match, exactly unless the name has a plus sign and no two
    slashes follow.
   */
  lemma ListedNameMatchesExactly(s: string, i: nat, name: string)
    requires name in SCHEMES && Occurs(s, i, name)
    ensures IsMatched(s, i, name) <==> ('+' in name ==> SlashesFollow(s, i + |name| + 1))
  {
    ListedIsName(name);
    if '+' !in name {
      PlainNameIsFound(s, i, name);
      FoundNameIsMatched(s, i, name);
    } else if SlashesFollow(s, i + |name| + 1) {
      SlashedNameIsFound(s, i, name);
      FoundNameIsMatched(s, i, name);
    } else if m :| m in Matches(s) && m.start <= i && i + |name| + 1 <= m.end {
      ReachesOver(s, i, name, m);
    }
  }

  lemma FoundNameIsMatched(s: string, i: nat, name: string)
    requires IsSchemeName(name) && Occurs(s, i, name) && Schemes(s)(i).Some?
    ensures IsMatched(s, i, name)
  {
    var m := FoundIsMatched(s, Schemes(s), 0, i);
    ReachesOver(s, i, name, m);
  }

  lemma OnlyOneNameHasAPlus(name: string)
    requires name in SCHEMES
    ensures '+' in name <==> name == "mongodb+srv"
  {
    assert "mongodb+srv"[7] == '+';
  }

  // ------------------------------------------------------------------ what is rewritten

  /** The name begins inside a rewritten span. */
  predicate IsRewritten(s: string, i: nat) {
    exists x | x in SpansOf(s) :: x.start <= i < x.end
  }

  predicate SameToken(s: string, i: nat, j: nat)
    requires j <= |s|
  {
    forall k | i <= k < j :: !IsBreak(s[k])
  }

  /** A match begins before i in the same token. */
  predicate FollowsMatch(s: string, i: nat)
    requires i <= |s|
  {
    exists m | m in Matches(s) :: m.start < i && SameToken(s, m.start, i)
  }

  /** A span that begins in an earlier token goes on beyond i. */
  predicate IsRunOver(s: string, i: nat)
    requires i <= |s|
  {
    exists x | x in SpansOf(s) :: x.start < i < x.end && !SameToken(s, x.start, i)
  }

  /** Every span begins at a match and ends where SpanEnd says. */
  lemma {:induction false} SpanIsOfMatch(s: string, matches: seq<Span>, k: nat, cursor: nat, x: Span) returns (j: nat)
    requires k <= |matches| && forall i | 0 <= i < |matches| :: matches[i].start <= |s|
    requires x in Spans(s, matches, k, cursor)
    ensures j < |matches| && x == Span(matches[j].start, SpanEnd(s, matches, j))
    decreases |matches| - k
  {
    if matches[k].start < cursor {
      j := SpanIsOfMatch(s, matches, k + 1, cursor, x);
    } else if x == Span(matches[k].start, SpanEnd(s, matches, k)) {
      j := k;
    } else {
      j := SpanIsOfMatch(s, matches, k + 1, SpanEnd(s, matches, k), x);
    }
  }

  /** A span ends at a match, at a break, or with the text. */
  lemma SpanEndsThere(s: string, matches: seq<Span>, k: nat)
    requires k < |matches| && forall i | 0 <= i < |matches| :: matches[i].start <= |s|
    ensures var end := SpanEnd(s, matches, k);
            end == |s| || (end < |s| && IsBreak(s[end])) || exists j | 0 <= j < |matches| :: matches[j].start == end
  {
  }

  lemma {:induction false} LastMatchBefore(matches: seq<Span>, i: nat, m: Span) returns (last: Span)
    requires m in matches && m.start < i
    ensures last in matches && m.start <= last.start < i
    ensures forall n | n in matches && n.start < i :: n.start <= last.start
    decreases |matches|
  {
    var first, rest := matches[0], matches[1..];
    if n :| n in rest && n.start < i && (m == first || n == m) {
      last := LastMatchBefore(rest, i, n);
      if first.start < i && first.start > last.start {
        last := first;
      }
    } else {
      last := m;
    }
    assert forall n | n in matches :: n == first || n in rest;
  }

  lemma CoveringSpan(s: string, m: Span) returns (x: Span)
    requires m in Matches(s)
    ensures x in SpansOf(s) && x.start <= m.start && m.end <= x.end
    ensures x.end == |s| || (x.end < |s| && IsBreak(s[x.end])) || exists n | n in Matches(s) :: n.start == x.end
  {
    MatchesAreOrdered(s);
    SpanPartition(s);
    assert Covers(SpansOf(s), m);
    var i :| 0 <= i < |SpansOf(s)| && SpansOf(s)[i].start <= m.start && m.end <= SpansOf(s)[i].end;
    x := SpansOf(s)[i];
    var k := SpanIsOfMatch(s, Matches(s), 0, 0, x);
    SpanEndsThere(s, Matches(s), k);
    if j :| 0 <= j < |Matches(s)| && Matches(s)[j].start == x.end {
      assert Matches(s)[j] in Matches(s);
    }
  }

  /** What follows a match in its token is rewritten with it, or from a later match on. */
  lemma TokenOfMatchIsRewritten(s: string, i: nat)
    requires i < |s| && FollowsMatch(s, i)
    requires forall m | m in Matches(s) :: m.start != i && m.start < m.end
    ensures IsRewritten(s, i) || IsBreak(s[i])
  {
    var m :| m in Matches(s) && m.start < i && SameToken(s, m.start, i);
    var last := LastMatchBefore(Matches(s), i, m);
    var x := CoveringSpan(s, last);
    SpanGoesBeyond(s, Matches(s), i, last, x);
  }

  /** A span that ends at a match, at a break or with the text does not end between the last match before i and i. */
  lemma SpanGoesBeyond(s: string, matches: seq<Span>, i: nat, last: Span, x: Span)
    requires i < |s| && last.start < i && SameToken(s, last.start, i) && last.start < x.end
    requires forall n | n in matches && n.start < i :: n.start <= last.start
    requires forall n | n in matches :: n.start != i
    requires x.end == |s| || (x.end < |s| && IsBreak(s[x.end])) || exists n | n in matches :: n.start == x.end
    ensures i < x.end || IsBreak(s[i])
  {
    if n :| n in matches && n.start == x.end {
      assert x.end > i;
    }
  }

  /**
    A listed name with its colon begins inside a rewritten span exactly if it is matched, a match begins
    before it in its token, or a span runs over it from an earlier token.
   */
  lemma ListedNameIsRewrittenExactly(s: string, i: nat, name: string)
    requires name in SCHEMES && Occurs(s, i, name)
    ensures IsRewritten(s, i) <==>
            ('+' in name ==> SlashesFollow(s, i + |name| + 1)) || FollowsMatch(s, i) || IsRunOver(s, i)
  {
    ListedIsName(name);
    ListedNameMatchesExactly(s, i, name);
    if IsMatched(s, i, name) {
      var m :| m in Matches(s) && m.start <= i && i + |name| + 1 <= m.end;
      var x := CoveringSpan(s, m);
    } else {
      UnmatchedNameIsRewrittenExactly(s, i, name);
    }
  }

  lemma UnmatchedNameIsRewrittenExactly(s: string, i: nat, name: string)
    requires IsSchemeName(name) && Occurs(s, i, name) && '+' in name && !SlashesFollow(s, i + |name| + 1)
    ensures IsRewritten(s, i) <==> FollowsMatch(s, i) || IsRunOver(s, i)
  {
    OccurrenceHasNoColon(s, i, name);
    forall m | m in Matches(s) ensures m.start != i && m.start < m.end {
      var colon := MatchShape(s, m);
      if m.start == i {
        ReachesOver(s, i, name, m);
      }
    }
    if FollowsMatch(s, i) {
      TokenOfMatchIsRewritten(s, i);
    }
    if x :| x in SpansOf(s) && x.start <= i < x.end {
      MatchesAreOrdered(s);
      var k := SpanIsOfMatch(s, Matches(s), 0, 0, x);
      assert Matches(s)[k] in Matches(s);
    }
  }

  // ------------------------------------------------------------------ a text with a password

  const MISSED := "mongodb+srv:u:p@h"

  /** No listed name begins like a piece of "srv". */
  predicate BeginsElsewhere(name: string) {
    |name| >= 3 && name[1] != '+' && !(name[0] == 's' && name[1] == 'r') && !(name[0] == 'r' && name[1] == 'v')
  }

  lemma WebBeginElsewhere()
    ensures BeginsElsewhere("http") && BeginsElsewhere("https") && BeginsElsewhere("ssh") && BeginsElsewhere("git")
    ensures BeginsElsewhere("sftp") && BeginsElsewhere("ftp") && BeginsElsewhere("ftps")
    ensures BeginsElsewhere("smtp") && BeginsElsewhere("smtps") && BeginsElsewhere("nats")
  {
  }

  lemma StoresBeginElsewhere()
    ensures BeginsElsewhere("postgres") && BeginsElsewhere("postgresql") && BeginsElsewhere("redis") && BeginsElsewhere("rediss")
    ensures BeginsElsewhere("mysql") && BeginsElsewhere("mariadb") && BeginsElsewhere("mongodb") && BeginsElsewhere("mongodb+srv")
    ensures BeginsElsewhere("amqp") && BeginsElsewhere("amqps")
  {
  }

  lemma ListedBeginElsewhere()
    ensures forall name | name in SCHEMES :: BeginsElsewhere(name)
  {
    WebBeginElsewhere();
    StoresBeginElsewhere();
  }

  lemma TwoLetters(s: string, i: nat, pattern: string)
    requires i < |s| && |pattern| >= 3 && pattern[1] != '+' && PatternEnd(s, i, pattern).Some?
    ensures i + 2 < |s| + 1 && LowerChar(s[i]) == pattern[0] && LowerChar(s[i + 1]) == pattern[1]
  {
    assert pattern[1..][0] == pattern[1];
    assert PatternEnd(s, i + 1, pattern[1..]).Some?;
  }

  /** A named match has the first two letters of its name. */
  lemma BeginsLikeItsName(s: string, i: nat)
    requires i < |s| && NamedEnd(s, i, SCHEMES).Some?
    ensures i + 1 < |s| && LowerChar(s[i]) != ':' && LowerChar(s[i + 1]) != ':'
    ensures !(s[i] == 's' && s[i + 1] == 'r') && !(s[i] == 'r' && s[i + 1] == 'v')
  {
    var name := NamedIsOneOf(s, i, SCHEMES);
    ListedBeginElsewhere();
    ListedIsName(name);
    TwoLetters(s, i, name + ":");
    assert name[0] in name && name[1] in name;
  }

  /** A text without slashes whose only colons are behind "+srv" and one letter later. */
  predicate IsMissed(s: string) {
    && |s| == 17 && s[7] == '+' && s[8] == 's' && s[9] == 'r' && s[10] == 'v' && s[11] == ':' && s[13] == ':'
    && forall j | 0 <= j < |s| :: !IsSlash(s[j]) && (s[j] == ':' ==> j == 11 || j == 13)
  }

  lemma MissedHasNoMatch(s: string)
    requires IsMissed(s)
    ensures Matches(s) == []
  {
    if Matches(s) != [] {
      var m := Matches(s)[0];
      var colon := MatchShape(s, m);
      assert colon == 11 || colon == 13;
      assert 8 <= m.start && m.start < 13 && m.start != 11;
      BeginsLikeItsName(s, m.start);
    }
  }

  /** A text that holds a listed scheme and a password, and is returned as it is. */
  lemma MongoSrvIsMissed(sanitize: Sanitizer)
    ensures Occurs(MISSED, 0, "mongodb+srv") && "mongodb+srv" in SCHEMES
    ensures !IsRewritten(MISSED, 0) && SpansOf(MISSED) == [] && Rewritten(MISSED, SpansOf(MISSED), 0, sanitize) == MISSED
  {
    assert Lower(MISSED[0..11]) == "mongodb+srv";
    MissedHasNoMatch(MISSED);
    PlainTextIsKept(MISSED, sanitize);
  }

  lemma {:induction false} LiteralPrefix(s: string, i: nat, prefix: string, rest: string)
    requires i + |prefix| <= |s| && '+' !in prefix && rest != "" && rest[0] != '+'
    requires forall k | 0 <= k < |prefix| :: LowerChar(s[i + k]) == prefix[k]
    ensures PatternEnd(s, i, prefix + rest) == PatternEnd(s, i + |prefix|, rest)
    decreases |prefix|
  {
    if prefix == "" {
      assert prefix + rest == rest;
    } else {
      assert prefix[0] in prefix && (|prefix| > 1 ==> prefix[1] in prefix);
      assert (prefix + rest)[1..] == prefix[1..] + rest;
      LiteralPrefix(s, i + 1, prefix[1..], rest);
    }
  }

  /** prefix stands at i. */
  predicate Stands(s: string, i: nat, prefix: string) {
    i + |prefix| <= |s| && forall k | 0 <= k < |prefix| :: LowerChar(s[i + k]) == prefix[k]
  }

  lemma RepeatedIsTaken(s: string, n: nat, head: string, tail: string, pattern: string)
    requires n >= 1 && Stands(s, 0, head) && |head| == 6 && '+' !in head
    requires Stands(s, 6 + n, tail) && tail == "srv:" && pattern == head + "b+srv:"
    requires forall k | 6 <= k < 6 + n :: s[k] == 'b'
    ensures PatternEnd(s, 0, pattern) == Some(10 + n)
  {
    LiteralPrefix(s, 0, head, "b+srv:");
    assert LowerChar(s[6 + n + 0]) == 's';
    RunOfLetters(s, 6, n);
    assert '+' !in tail;
    LiteralEnd(s, 6 + n, tail);
  }

  /** Conversely, a name that is not listed is matched: the letter before the plus sign may be repeated. */
  lemma UnlistedNameIsMatched(s: string, n: nat)
    requires n >= 1 && Stands(s, 0, "mongod") && Stands(s, 6 + n, "srv:")
    requires forall k | 6 <= k < 6 + n :: s[k] == 'b'
    ensures NamedEnd(s, 0, SCHEMES).Some?
  {
    RepeatedIsTaken(s, n, "mongod", "srv:", "mongodb+srv" + ":");
    NamedFinds(s, 0, SCHEMES, "mongodb+srv");
  }

  lemma RunOfLetters(s: string, i: nat, n: nat)
    requires n >= 1 && i + n < |s| && LowerChar(s[i + n]) == 's' && forall k | i <= k < i + n :: s[k] == 'b'
    ensures PatternEnd(s, i, "b+srv:") == PatternEnd(s, i + n, "srv:")
  {
    assert FirstIn(s, i, c => LowerChar(c) != 'b') == i + n;
    assert "b+srv:"[2..] == "srv:";
  }
}
