/** Finding the URL-shaped spans of a diagnostic text and rewriting them. */
module DiagnosticText {
  import opened Wrappers
  import opened JsText

  /** A half-open range of positions. */
  datatype Span = Span(start: nat, end: nat)

  /** The scheme names; they are joined into a pattern as they are, so that a plus sign in one repeats what is before it. */
  const SCHEMES := [
    "http", "https", "ssh", "git", "postgres", "postgresql", "redis", "rediss", "sftp", "ftp", "ftps", "mysql",
    "mariadb", "mongodb", "mongodb+srv", "amqp", "amqps", "smtp", "smtps", "nats"]

  function LowerChar(c: char): char {
    if 'A' <= c <= 'Z' then (c as int + 32) as char else c
  }

  function Lower(s: string): (r: string)
    ensures |r| == |s|
  {
    seq(|s|, i requires 0 <= i < |s| => LowerChar(s[i]))
  }

  // ------------------------------------------------------------------ index searches

  /** The first position from from on whose character is in the class, or the length. */
  function FirstIn(s: string, from: nat, wanted: char -> bool): (r: nat)
    requires from <= |s|
    ensures from <= r <= |s|
    ensures r < |s| ==> wanted(s[r])
    ensures forall i | from <= i < r :: !wanted(s[i])
    decreases |s| - from
  {
    if from == |s| || wanted(s[from]) then from else FirstIn(s, from + 1, wanted)
  }

  /** The last position up to to that holds c. */
  function LastIndexOf(s: string, c: char, to: nat): (r: Option<nat>)
    requires to <= |s|
    ensures r.Some? ==> r.value <= to && r.value < |s| && s[r.value] == c
  {
    if to < |s| && s[to] == c then Some(to) else if to == 0 then None else LastIndexOf(s, c, to - 1)
  }

  predicate IsControl(c: char) {
    c <= 0x1f as char || c == 0x7f as char
  }

  /** Whitespace that ends a token; the ASCII control characters among it do not. */
  predicate IsBreak(c: char) {
    IsWhitespace(c) && !IsControl(c)
  }

  predicate IsSlash(c: char) {
    c == '/' || c == '\\'
  }

  predicate IsDelimiter(c: char) {
    IsSlash(c) || c == '?' || c == '#'
  }

  predicate IsSchemeChar(c: char) {
    'a' <= LowerChar(c) <= 'z' || '0' <= c <= '9' || c == '+' || c == '.' || c == '-'
  }

  // ------------------------------------------------------------------ scheme matches

  /**
    The end of what a pattern of letters matches at i. A letter before a plus sign matches one or more
    of it; no pattern has the same letter behind, so that the longest run is the only one.
   */
  function PatternEnd(s: string, i: nat, pattern: string): (r: Option<nat>)
    requires i <= |s|
    ensures r.Some? ==> i <= r.value <= |s| && (pattern != "" ==> i < r.value)
    decreases |pattern|, |s| - i
  {
    if pattern == "" then Some(i)
    else if i == |s| || LowerChar(s[i]) != pattern[0] then None
    else if |pattern| > 1 && pattern[1] == '+' then PatternEnd(s, FirstIn(s, i, c => LowerChar(c) != pattern[0]), pattern[2..])
    else PatternEnd(s, i + 1, pattern[1..])
  }

  /** The end of one of these schemes and its colon at i. */
  function NamedEnd(s: string, i: nat, schemes: seq<string>): (r: Option<nat>)
    requires i < |s|
    ensures r.Some? ==> i < r.value <= |s|
    decreases |schemes|, |s| - i
  {
    if schemes == [] then None
    else
      match PatternEnd(s, i, schemes[0] + ":")
      case Some(end) => Some(end)
      case None => NamedEnd(s, i, schemes[1..])
  }

  /** The end of any scheme with two slashes after its colon at i. */
  function SlashedEnd(s: string, i: nat): (r: Option<nat>)
    requires i < |s|
    ensures r.Some? ==> i < r.value <= |s|
  {
    if !('a' <= LowerChar(s[i]) <= 'z') then None
    else
      var colon := FirstIn(s, i + 1, c => !IsSchemeChar(c));
      if colon + 2 < |s| && s[colon] == ':' && IsSlash(s[colon + 1]) && IsSlash(s[colon + 2]) then Some(colon + 3) else None
  }

  function MatchEnd(s: string, i: nat): (r: Option<nat>)
    requires i < |s|
    ensures r.Some? ==> i < r.value <= |s|
  {
    match NamedEnd(s, i, SCHEMES)
    case Some(end) => Some(end)
    case None => SlashedEnd(s, i)
  }

  /** The end of the match at a position, if there is one. */
  type Finder = nat -> Option<nat>

  ghost predicate Finds(s: string, find: Finder) {
    forall i | 0 <= i < |s| && find(i).Some? :: i < find(i).value <= |s|
  }

  /** All matches from from on, left to right, none overlapping the one before. */
  function MatchesBy(s: string, find: Finder, from: nat): seq<Span>
    requires from <= |s| && Finds(s, find)
    decreases |s| - from
  {
    if from == |s| then []
    else
      match find(from)
      case None => MatchesBy(s, find, from + 1)
      case Some(end) => [Span(from, end)] + MatchesBy(s, find, end)
  }

  function Schemes(s: string): Finder {
    (i: nat) => if i < |s| then MatchEnd(s, i) else None
  }

  function Matches(s: string): seq<Span> {
    MatchesBy(s, Schemes(s), 0)
  }

  // ------------------------------------------------------------------ where a span ends

  function TokenEnd(s: string, start: nat): (r: nat)
    requires start <= |s|
    ensures start <= r <= |s|
  {
    FirstIn(s, start, IsBreak)
  }

  function AuthorityEnd(s: string, start: nat, limit: nat): (r: nat)
    requires start <= limit <= |s|
    ensures start <= r <= limit
  {
    var end := FirstIn(s, start, IsDelimiter);
    if end < limit then end else limit
  }

  /** A later scheme inside the user information of the URL that starts at outer. */
  predicate InsideUserInfo(s: string, outer: nat, nested: nat)
    requires outer <= |s| && nested <= |s|
  {
    match IndexOf(s, ':', outer)
    case None => false
    case Some(colon) =>
      colon < nested
      && var authority := FirstIn(s, colon + 1, c => !IsSlash(c));
         var user := LastIndexOf(s, '@', AuthorityEnd(s, authority, TokenEnd(s, authority)));
         user.Some? && authority <= user.value && authority <= nested < user.value
  }

  /** A colon outside square brackets. */
  predicate HasCredentialDelimiter(s: string, inBrackets: bool) {
    s != ""
    && (if s[0] == '[' then HasCredentialDelimiter(s[1..], true)
        else if s[0] == ']' then HasCredentialDelimiter(s[1..], false)
        else (s[0] == ':' && !inBrackets) || HasCredentialDelimiter(s[1..], inBrackets))
  }

  /** The whitespace at blank may belong to user information that ends at user. */
  predicate CanContinueUserInfo(s: string, start: nat, blank: nat, user: nat)
    requires start <= blank <= |s|
  {
    match IndexOf(s, ':', start)
    case None => false
    case Some(colon) =>
      colon < blank
      && var authority := FirstIn(s, colon + 1, c => !IsSlash(c));
         authority <= user && authority <= blank
         && '@' !in s[authority..blank]
         && var end := AuthorityEnd(s, authority, blank);
            end == blank || HasCredentialDelimiter(s[authority..end], false)
  }

  /** How far a candidate that ends at whitespace goes on because of what may still be sensitive. */
  function ContinuationEnd(s: string, start: nat, blank: nat): (r: nat)
    requires start <= blank <= |s|
    ensures blank <= r <= |s|
    ensures r < |s| ==> IsBreak(s[r]) || r == blank
  {
    if blank == |s| then blank
    else if '?' in s[start..blank] || '#' in s[start..blank] then |s|
    else
      var user := IndexOf(s, '@', blank);
      if user.Some? && CanContinueUserInfo(s, start, blank, user.value) then TokenEnd(s, user.value + 1)
      else
        var next := FirstIn(s, blank, c => !IsBreak(c));
        if next < |s| && (s[next] == '?' || s[next] == '#') then |s| else blank
  }

  /** The start of the first later match in the same token that is not inside user information. */
  function NextScheme(s: string, matches: seq<Span>, start: nat, from: nat, limit: nat): (r: Option<nat>)
    requires start <= |s| && from <= |matches| && limit <= |s|
    ensures r.Some? ==> r.value < limit && exists k | from <= k < |matches| :: matches[k].start == r.value
    decreases |matches| - from
  {
    if from == |matches| || matches[from].start >= limit then None
    else if !InsideUserInfo(s, start, matches[from].start) then Some(matches[from].start)
    else NextScheme(s, matches, start, from + 1, limit)
  }

  function SpanEnd(s: string, matches: seq<Span>, k: nat): (r: nat)
    requires k < |matches| && matches[k].start <= |s|
  {
    var start := matches[k].start;
    var tokenEnd := TokenEnd(s, start);
    var next := NextScheme(s, matches, start, k + 1, tokenEnd);
    if next.Some? then next.value else ContinuationEnd(s, start, tokenEnd)
  }

  /** The rewritten spans from match k on, past cursor. */
  function Spans(s: string, matches: seq<Span>, k: nat, cursor: nat): seq<Span>
    requires k <= |matches| && forall i | 0 <= i < |matches| :: matches[i].start <= |s|
    decreases |matches| - k
  {
    if k == |matches| then []
    else if matches[k].start < cursor then Spans(s, matches, k + 1, cursor)
    else [Span(matches[k].start, SpanEnd(s, matches, k))] + Spans(s, matches, k + 1, SpanEnd(s, matches, k))
  }

  // ------------------------------------------------------------------ facts about matches

  /** Matches are non-empty, follow each other, and lie within single tokens. */
  predicate Ordered(s: string, matches: seq<Span>, from: nat) {
    && (forall k | 0 <= k < |matches| ::
          && from <= matches[k].start < matches[k].end <= |s|
          && forall i | matches[k].start <= i < matches[k].end :: !IsBreak(s[i]))
    && (forall j, k | 0 <= j < k < |matches| :: matches[j].end <= matches[k].start)
  }

  /** Lower-case scheme characters from a letter on, at least three, with no plus sign beside another or at the end. */
  predicate IsSchemeName(name: string) {
    && |name| >= 3
    && (forall j | 0 <= j < |name| :: IsSchemeChar(name[j]) && LowerChar(name[j]) == name[j])
    && 'a' <= name[0] <= 'z'
    && (forall j | 0 <= j < |name| && name[j] == '+' :: 0 < j < |name| - 1 && name[j - 1] != '+' && name[j + 1] != '+')
  }

  /** A name and its colon, as the rest of a pattern: no plus sign in front or beside another. */
  predicate IsPattern(pattern: string) {
    && (forall j | 0 <= j < |pattern| :: IsSchemeChar(pattern[j]) || pattern[j] == ':')
    && (forall j | 0 <= j < |pattern| && pattern[j] == '+' :: 0 < j < |pattern| - 1 && pattern[j + 1] != '+')
  }

  lemma NameIsPattern(name: string)
    requires IsSchemeName(name)
    ensures IsPattern(name + ":")
  {
  }

  predicate Repeats(pattern: string) {
    |pattern| > 1 && pattern[1] == '+'
  }

  /** What is left of a pattern after its first letter. */
  function RestOf(pattern: string): string
    requires pattern != ""
  {
    if Repeats(pattern) then pattern[2..] else pattern[1..]
  }

  lemma RestIsPattern(pattern: string)
    requires IsPattern(pattern) && pattern != ""
    ensures IsPattern(RestOf(pattern)) && pattern[0] != '+'
    ensures forall c | c in RestOf(pattern) :: c in pattern
  {
  }

  /** What a pattern takes is made of its own characters, never of a plus sign. */
  lemma {:induction false} PatternTakesItsOwn(s: string, i: nat, pattern: string)
    requires i <= |s| && IsPattern(pattern) && PatternEnd(s, i, pattern).Some?
    ensures forall j | i <= j < PatternEnd(s, i, pattern).value :: LowerChar(s[j]) in pattern && s[j] != '+'
    decreases |pattern|
  {
    if pattern != "" {
      var next := if Repeats(pattern) then FirstIn(s, i, c => LowerChar(c) != pattern[0]) else i + 1;
      RestIsPattern(pattern);
      assert pattern[0] in pattern;
      assert forall j | i <= j < next :: LowerChar(s[j]) == pattern[0];
      PatternTakesItsOwn(s, next, RestOf(pattern));
    }
  }

  /** A name's pattern ends with its colon, and takes no other. */
  lemma {:induction false} PatternEndsAtColon(s: string, i: nat, name: string)
    requires i <= |s| && IsPattern(name + ":") && ':' !in name && PatternEnd(s, i, name + ":").Some?
    ensures var end := PatternEnd(s, i, name + ":").value;
            && i < end && s[end - 1] == ':' && (name != "" ==> i + 1 < end)
            && forall j | i <= j < end - 1 :: s[j] != ':' && IsSchemeChar(s[j])
    decreases |name|
  {
    var pattern := name + ":";
    if name != "" {
      var repeats := name != "" && pattern[1] == '+';
      var next := if repeats then FirstIn(s, i, c => LowerChar(c) != pattern[0]) else i + 1;
      var rest := if repeats then name[2..] else name[1..];
      assert rest + ":" == if repeats then pattern[2..] else pattern[1..];
      assert name[0] in name && pattern[0] == name[0];
      assert forall c | c in rest :: c in name;
      PatternEndsAtColon(s, next, rest);
      assert forall j | i <= j < next :: LowerChar(s[j]) == name[0] && LowerChar(s[j]) != ':';
    } else {
      assert pattern[1..] == "";
    }
  }

  lemma WebSchemesAreNames()
    ensures IsSchemeName("http") && IsSchemeName("https") && IsSchemeName("ssh") && IsSchemeName("git")
    ensures IsSchemeName("sftp") && IsSchemeName("ftp") && IsSchemeName("ftps")
  {
  }

  lemma DatabaseSchemesAreNames()
    ensures IsSchemeName("postgres") && IsSchemeName("postgresql") && IsSchemeName("redis") && IsSchemeName("rediss")
    ensures IsSchemeName("mysql") && IsSchemeName("mariadb")
  {
  }

  lemma MongoSchemesAreNames()
    ensures IsSchemeName("mongodb") && IsSchemeName("mongodb+srv")
  {
  }

  lemma MessageSchemesAreNames()
    ensures IsSchemeName("amqp") && IsSchemeName("amqps") && IsSchemeName("smtp") && IsSchemeName("smtps") && IsSchemeName("nats")
  {
  }

  lemma KnownSchemesAreNames()
    ensures forall name | name in SCHEMES :: IsSchemeName(name)
  {
    WebSchemesAreNames();
    DatabaseSchemesAreNames();
    MongoSchemesAreNames();
    MessageSchemesAreNames();
  }

  /** Of a list of names, the one that a match is of. */
  lemma {:induction false} NamedIsOneOf(s: string, i: nat, schemes: seq<string>) returns (name: string)
    requires i < |s| && NamedEnd(s, i, schemes).Some?
    ensures name in schemes && PatternEnd(s, i, name + ":") == NamedEnd(s, i, schemes)
    decreases |schemes|
  {
    if PatternEnd(s, i, schemes[0] + ":").Some? {
      name := schemes[0];
    } else {
      name := NamedIsOneOf(s, i, schemes[1..]);
    }
  }

  lemma ListedIsName(name: string)
    requires name in SCHEMES
    ensures IsSchemeName(name) && ':' !in name
  {
    KnownSchemesAreNames();
    assert forall j | 0 <= j < |name| :: IsSchemeChar(name[j]);
  }

  /** A named match is one letter or more, no plus sign, and its first colon. */
  lemma NamedShape(s: string, i: nat)
    requires i < |s| && NamedEnd(s, i, SCHEMES).Some?
    ensures var end := NamedEnd(s, i, SCHEMES).value;
            && i + 1 < end && s[end - 1] == ':'
            && forall j | i <= j < end - 1 :: s[j] != ':' && s[j] != '+' && IsSchemeChar(s[j])
  {
    var name := NamedIsOneOf(s, i, SCHEMES);
    ListedIsName(name);
    NameIsPattern(name);
    PatternTakesItsOwn(s, i, name + ":");
    PatternEndsAtColon(s, i, name);
  }

  lemma SlashedHasNoBreak(s: string, i: nat)
    requires i < |s| && SlashedEnd(s, i).Some?
    ensures forall j | i <= j < SlashedEnd(s, i).value :: !IsBreak(s[j])
  {
    var colon := FirstIn(s, i + 1, c => !IsSchemeChar(c));
    assert forall j | i + 1 <= j < colon :: IsSchemeChar(s[j]);
    assert forall c | IsSchemeChar(c) :: !IsBreak(c);
    assert forall c | IsSlash(c) || c == ':' :: !IsBreak(c);
  }

  lemma KnownMatchHasNoBreak(s: string, i: nat)
    requires i < |s| && NamedEnd(s, i, SCHEMES).Some?
    ensures forall j | i <= j < NamedEnd(s, i, SCHEMES).value :: !IsBreak(s[j])
  {
    NamedShape(s, i);
    assert forall c | IsSchemeChar(c) || c == ':' :: !IsBreak(c);
  }

  lemma MatchHasNoBreak(s: string, i: nat)
    requires i < |s| && MatchEnd(s, i).Some?
    ensures forall j | i <= j < MatchEnd(s, i).value :: !IsBreak(s[j])
  {
    if NamedEnd(s, i, SCHEMES).Some? {
      KnownMatchHasNoBreak(s, i);
    } else {
      SlashedHasNoBreak(s, i);
    }
  }

  lemma OrderedCons(s: string, first: Span, rest: seq<Span>)
    requires first.start < first.end <= |s| && Ordered(s, rest, first.end)
    requires forall i | first.start <= i < first.end :: !IsBreak(s[i])
    ensures Ordered(s, [first] + rest, first.start)
  {
    var all := [first] + rest;
    assert forall k | 0 < k < |all| :: all[k] == rest[k - 1];
  }

  lemma OrderedEarlier(s: string, matches: seq<Span>, from: nat)
    requires Ordered(s, matches, from + 1)
    ensures Ordered(s, matches, from)
  {
  }

  ghost predicate FindsTokens(s: string, find: Finder) {
    forall i | 0 <= i < |s| && find(i).Some? :: forall j | i <= j < |s| && j < find(i).value :: !IsBreak(s[j])
  }

  lemma {:induction false} MatchesByAreOrdered(s: string, find: Finder, from: nat)
    requires from <= |s| && Finds(s, find) && FindsTokens(s, find)
    ensures Ordered(s, MatchesBy(s, find, from), from)
    decreases |s| - from
  {
    if from < |s| {
      match find(from) {
        case None =>
          MatchesByAreOrdered(s, find, from + 1);
          OrderedEarlier(s, MatchesBy(s, find, from + 1), from);
        case Some(end) =>
          MatchesByAreOrdered(s, find, end);
          OrderedCons(s, Span(from, end), MatchesBy(s, find, end));
      }
    }
  }

  lemma MatchesAreOrdered(s: string)
    ensures Ordered(s, Matches(s), 0)
  {
    forall i | 0 <= i < |s| && Schemes(s)(i).Some?
      ensures forall j | i <= j < |s| && j < Schemes(s)(i).value :: !IsBreak(s[j])
    {
      MatchHasNoBreak(s, i);
    }
    MatchesByAreOrdered(s, Schemes(s), 0);
  }

  /** No match straddles the position. */
  predicate Clean(matches: seq<Span>, position: nat) {
    forall j | 0 <= j < |matches| && matches[j].start < position :: matches[j].end <= position
  }

  lemma BreaksAreClean(s: string, matches: seq<Span>, position: nat)
    requires Ordered(s, matches, 0) && position <= |s| && (position < |s| ==> IsBreak(s[position]))
    ensures Clean(matches, position)
  {
  }

  /** A span holds its whole match and cuts through no other. */
  lemma SpanEndIsClean(s: string, matches: seq<Span>, k: nat)
    requires Ordered(s, matches, 0) && k < |matches|
    ensures matches[k].end <= SpanEnd(s, matches, k) <= |s| && Clean(matches, SpanEnd(s, matches, k))
  {
    var start := matches[k].start;
    var tokenEnd := TokenEnd(s, start);
    var next := NextScheme(s, matches, start, k + 1, tokenEnd);
    if next.None? {
      BreaksAreClean(s, matches, tokenEnd);
      BreaksAreClean(s, matches, ContinuationEnd(s, start, tokenEnd));
    }
  }

  /** The spans are non-empty, disjoint and increasing. */
  predicate Increasing(s: string, spans: seq<Span>, cursor: nat) {
    && (forall i | 0 <= i < |spans| :: cursor <= spans[i].start < spans[i].end <= |s|)
    && (forall i, j | 0 <= i < j < |spans| :: spans[i].end <= spans[j].start)
  }

  predicate Covers(spans: seq<Span>, m: Span) {
    exists i | 0 <= i < |spans| :: spans[i].start <= m.start && m.end <= spans[i].end
  }

  lemma {:induction false} SpansPartition(s: string, matches: seq<Span>, k: nat, cursor: nat)
    requires Ordered(s, matches, 0) && k <= |matches| && cursor <= |s| && Clean(matches, cursor)
    ensures Increasing(s, Spans(s, matches, k, cursor), cursor)
    ensures forall j | k <= j < |matches| && matches[j].start >= cursor :: Covers(Spans(s, matches, k, cursor), matches[j])
    decreases |matches| - k
  {
    if k < |matches| {
      if matches[k].start < cursor {
        SpansPartition(s, matches, k + 1, cursor);
      } else {
        var end := SpanEnd(s, matches, k);
        SpanEndIsClean(s, matches, k);
        SpansPartition(s, matches, k + 1, end);
        var first := Span(matches[k].start, end);
        IncreasingCons(s, first, Spans(s, matches, k + 1, end), cursor);
        AllCovered(s, matches, k, first, Spans(s, matches, k + 1, end));
      }
    }
  }

  lemma IncreasingCons(s: string, first: Span, rest: seq<Span>, cursor: nat)
    requires cursor <= first.start < first.end <= |s| && Increasing(s, rest, first.end)
    ensures Increasing(s, [first] + rest, cursor)
  {
    var all := [first] + rest;
    assert forall i | 0 < i < |all| :: all[i] == rest[i - 1];
  }

  /** own is the match that the first span starts with; m is that or a later one. */
  lemma CoversCons(first: Span, rest: seq<Span>, own: Span, m: Span)
    requires first.start == own.start <= m.start && (m.start < first.end ==> m.end <= first.end)
    requires m.start >= first.end ==> Covers(rest, m)
    ensures Covers([first] + rest, m)
  {
    var all := [first] + rest;
    if m.start < first.end {
      assert all[0] == first;
    } else {
      var i :| 0 <= i < |rest| && rest[i].start <= m.start && m.end <= rest[i].end;
      assert all[i + 1] == rest[i];
    }
  }

  lemma AllCovered(s: string, matches: seq<Span>, k: nat, first: Span, rest: seq<Span>)
    requires Ordered(s, matches, 0) && k < |matches| && first.start == matches[k].start && Clean(matches, first.end)
    requires forall j | k < j < |matches| && matches[j].start >= first.end :: Covers(rest, matches[j])
    requires matches[k].end <= first.end
    ensures forall j | k <= j < |matches| :: Covers([first] + rest, matches[j])
  {
    forall j | k <= j < |matches| ensures Covers([first] + rest, matches[j]) {
      CoversCons(first, rest, matches[k], matches[j]);
    }
  }

  // ------------------------------------------------------------------ the rewritten text

  type Sanitizer = string -> string

  function SpansOf(s: string): seq<Span> {
    MatchesAreOrdered(s);
    Spans(s, Matches(s), 0, 0)
  }

  /** Each span sanitized, everything between them copied. */
  function Rewritten(s: string, spans: seq<Span>, cursor: nat, sanitize: Sanitizer): string
    requires cursor <= |s| && Increasing(s, spans, cursor)
    decreases |spans|
  {
    if spans == [] then s[cursor..]
    else
      s[cursor..spans[0].start] + sanitize(s[spans[0].start..spans[0].end])
      + Rewritten(s, spans[1..], spans[0].end, sanitize)
  }

  /**
    The rewritten spans of a text are non-empty, disjoint and increasing, and every scheme match lies
    inside one of them.
   */
  lemma SpanPartition(s: string)
    ensures Increasing(s, SpansOf(s), 0)
    ensures forall m | m in Matches(s) :: Covers(SpansOf(s), m)
  {
    MatchesAreOrdered(s);
    SpansPartition(s, Matches(s), 0, 0);
  }

  /** The texts between the spans, before the first and behind the last. */
  function Gaps(s: string, spans: seq<Span>, cursor: nat): (gaps: seq<string>)
    requires cursor <= |s| && Increasing(s, spans, cursor)
    ensures |gaps| == |spans| + 1
    decreases |spans|
  {
    if spans == [] then [s[cursor..]]
    else [s[cursor..spans[0].start]] + Gaps(s, spans[1..], spans[0].end)
  }

  /** The texts of the spans. */
  function Parts(s: string, spans: seq<Span>, cursor: nat): (parts: seq<string>)
    requires cursor <= |s| && Increasing(s, spans, cursor)
    ensures |parts| == |spans|
    decreases |spans|
  {
    if spans == [] then []
    else [s[spans[0].start..spans[0].end]] + Parts(s, spans[1..], spans[0].end)
  }

  function Sanitized(parts: seq<string>, sanitize: Sanitizer): (r: seq<string>)
    ensures |r| == |parts|
  {
    seq(|parts|, i requires 0 <= i < |parts| => sanitize(parts[i]))
  }

  /** Gaps and parts in turn. */
  function Weave(gaps: seq<string>, parts: seq<string>): string
    requires |gaps| == |parts| + 1
  {
    if parts == [] then gaps[0] else gaps[0] + parts[0] + Weave(gaps[1..], parts[1..])
  }

  lemma WeaveStep(gap: string, part: string, gaps: seq<string>, parts: seq<string>)
    requires |gaps| == |parts| + 1
    ensures Weave([gap] + gaps, [part] + parts) == gap + part + Weave(gaps, parts)
  {
    assert ([gap] + gaps)[1..] == gaps && ([part] + parts)[1..] == parts;
  }

  /**
    Nothing outside the spans is changed, whatever the sanitizer: the text is its gaps and parts in turn,
    and the rewritten text is the same gaps with each part sanitized in its place.
   */
  lemma {:induction false} OnlySpansChange(s: string, spans: seq<Span>, cursor: nat, sanitize: Sanitizer)
    requires cursor <= |s| && Increasing(s, spans, cursor)
    ensures s[cursor..] == Weave(Gaps(s, spans, cursor), Parts(s, spans, cursor))
    ensures Rewritten(s, spans, cursor, sanitize)
         == Weave(Gaps(s, spans, cursor), Sanitized(Parts(s, spans, cursor), sanitize))
    decreases |spans|
  {
    if spans != [] {
      var gap, part, end := s[cursor..spans[0].start], s[spans[0].start..spans[0].end], spans[0].end;
      var gaps, parts := Gaps(s, spans[1..], end), Parts(s, spans[1..], end);
      OnlySpansChange(s, spans[1..], end, sanitize);
      WeaveStep(gap, part, gaps, parts);
      WeaveStep(gap, sanitize(part), gaps, Sanitized(parts, sanitize));
      assert gap + part + s[end..] == s[cursor..];
      assert Sanitized([part] + parts, sanitize) == [sanitize(part)] + Sanitized(parts, sanitize);
    }
  }

  /** A text with no scheme in it is returned as it is, whatever the sanitizer. */
  lemma PlainTextIsKept(s: string, sanitize: Sanitizer)
    requires Matches(s) == []
    ensures SpansOf(s) == [] && Rewritten(s, SpansOf(s), 0, sanitize) == s
  {
  }

  // ------------------------------------------------------------------ the scanning loops

  method DiagnosticTokenEnd(s: string, start: nat) returns (end: nat)
    requires start <= |s|
    ensures end == TokenEnd(s, start)
  {
    end := start;
    while end < |s| && !IsBreak(s[end])
      invariant start <= end <= |s|
      invariant TokenEnd(s, start) == TokenEnd(s, end)
    {
      end := end + 1;
    }
  }

  method SkipSlashes(s: string, start: nat) returns (end: nat)
    requires start <= |s|
    ensures end == FirstIn(s, start, c => !IsSlash(c))
  {
    end := start;
    while end < |s| && IsSlash(s[end])
      invariant start <= end <= |s|
      invariant FirstIn(s, start, c => !IsSlash(c)) == FirstIn(s, end, c => !IsSlash(c))
    {
      end := end + 1;
    }
  }

  method FindAuthorityEnd(s: string, start: nat, limit: nat) returns (end: nat)
    requires start <= limit <= |s|
    ensures end == AuthorityEnd(s, start, limit)
  {
    end := start;
    while end < limit && !IsDelimiter(s[end])
      invariant start <= end <= limit
      invariant FirstIn(s, start, IsDelimiter) == FirstIn(s, end, IsDelimiter)
    {
      end := end + 1;
    }
  }

  method SchemeStartFallsInsideUserInfo(s: string, outer: nat, nested: nat) returns (inside: bool)
    requires outer <= |s| && nested <= |s|
    ensures inside == InsideUserInfo(s, outer, nested)
  {
    var colon := IndexOf(s, ':', outer);
    if colon.None? || colon.value >= nested {
      return false;
    }
    var authorityStart := SkipSlashes(s, colon.value + 1);
    var tokenEnd := DiagnosticTokenEnd(s, authorityStart);
    var authorityEnd := FindAuthorityEnd(s, authorityStart, tokenEnd);
    var userInfoEnd := LastIndexOf(s, '@', authorityEnd);
    return userInfoEnd.Some? && userInfoEnd.value >= authorityStart && nested >= authorityStart && nested < userInfoEnd.value;
  }

  method ApparentAuthorityHasCredentialDelimiter(s: string) returns (found: bool)
    ensures found == HasCredentialDelimiter(s, false)
  {
    var insideIpv6Literal := false;
    var i := 0;
    assert s[0..] == s;
    while i < |s|
      invariant 0 <= i <= |s|
      invariant HasCredentialDelimiter(s, false) == HasCredentialDelimiter(s[i..], insideIpv6Literal)
    {
      assert s[i..][1..] == s[i + 1..];
      if s[i] == '[' {
        insideIpv6Literal := true;
      } else if s[i] == ']' {
        insideIpv6Literal := false;
      } else if s[i] == ':' && !insideIpv6Literal {
        return true;
      }
      i := i + 1;
    }
    assert s[i..] == "";
    return false;
  }

  method CanWhitespaceContinueApparentUserInfo(s: string, start: nat, blank: nat, user: nat) returns (r: bool)
    requires start <= blank < |s| && IsBreak(s[blank])
    ensures r == CanContinueUserInfo(s, start, blank, user)
  {
    var colon := IndexOf(s, ':', start);
    if colon.None? || colon.value >= blank {
      return false;
    }
    var authorityStart := SkipSlashes(s, colon.value + 1);
    if user < authorityStart {
      return false;
    }
    if '@' in s[authorityStart..blank] {
      return false;
    }
    var authorityEnd := FindAuthorityEnd(s, authorityStart, blank);
    if authorityEnd == blank {
      return true;
    }
    r := ApparentAuthorityHasCredentialDelimiter(s[authorityStart..authorityEnd]);
  }

  method DiagnosticSensitiveContinuationEnd(s: string, start: nat, blank: nat) returns (end: nat)
    requires start <= blank <= |s| && (blank < |s| ==> IsBreak(s[blank]))
    ensures end == ContinuationEnd(s, start, blank)
  {
    if blank >= |s| {
      return blank;
    }
    if '?' in s[start..blank] || '#' in s[start..blank] {
      return |s|;
    }
    var user := IndexOf(s, '@', blank);
    if user.Some? {
      var continues := CanWhitespaceContinueApparentUserInfo(s, start, blank, user.value);
      if continues {
        end := DiagnosticTokenEnd(s, user.value + 1);
        return;
      }
    }
    var next := blank;
    while next < |s| && IsBreak(s[next])
      invariant blank <= next <= |s|
      invariant FirstIn(s, blank, c => !IsBreak(c)) == FirstIn(s, next, c => !IsBreak(c))
    {
      next := next + 1;
    }
    return if next < |s| && (s[next] == '?' || s[next] == '#') then |s| else blank;
  }

  /** The end of the span that starts at match k. */
  method CandidateEnd(s: string, matches: seq<Span>, k: nat) returns (end: nat)
    requires k < |matches| && forall i | 0 <= i < |matches| :: matches[i].start <= |s|
    ensures end == SpanEnd(s, matches, k)
  {
    var start := matches[k].start;
    var tokenEnd := DiagnosticTokenEnd(s, start);
    var j := k + 1;
    while j < |matches| && matches[j].start < tokenEnd
      invariant k < j <= |matches|
      invariant NextScheme(s, matches, start, k + 1, tokenEnd) == NextScheme(s, matches, start, j, tokenEnd)
    {
      var inside := SchemeStartFallsInsideUserInfo(s, start, matches[j].start);
      if !inside {
        return matches[j].start;
      }
      j := j + 1;
    }
    end := DiagnosticSensitiveContinuationEnd(s, start, tokenEnd);
  }

  method SanitizeUrlDiagnosticText(s: string, sanitize: Sanitizer) returns (r: string)
    ensures Increasing(s, SpansOf(s), 0) && r == Rewritten(s, SpansOf(s), 0, sanitize)
  {
    SpanPartition(s);
    MatchesAreOrdered(s);
    var matches := Matches(s);
    if |matches| == 0 {
      return s;
    }
    r := "";
    var cursor, k := 0, 0;
    while k < |matches|
      invariant 0 <= k <= |matches| && cursor <= |s| && Clean(matches, cursor)
      invariant Increasing(s, Spans(s, matches, k, cursor), cursor)
      invariant r + Rewritten(s, Spans(s, matches, k, cursor), cursor, sanitize) == Rewritten(s, SpansOf(s), 0, sanitize)
    {
      var start := matches[k].start;
      if start >= cursor {
        SpanEndIsClean(s, matches, k);
        var end := CandidateEnd(s, matches, k);
        SpansPartition(s, matches, k + 1, end);
        var piece := s[cursor..start] + sanitize(s[start..end]);
        Append3(r, piece, Rewritten(s, Spans(s, matches, k + 1, end), end, sanitize));
        r := r + piece;
        cursor := end;
      }
      k := k + 1;
    }
    r := r + s[cursor..];
  }

  lemma Append3(a: string, b: string, c: string)
    ensures a + (b + c) == a + b + c
  {
  }
}
