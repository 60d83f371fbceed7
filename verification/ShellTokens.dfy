/** The agent's tokenizer for the shell commands the manager prints, and the quoting that feeds it. */
module ShellTokens {
  import opened Wrappers
  import opened JsText

  datatype Token = Word(value: string) | Op(value: string)

  predicate IsOperatorStart(c: char) {
    c == ';' || c == '|' || c == '&' || c == '<' || c == '>' || c == '(' || c == ')'
  }

  predicate StartsSubstitution(s: string)
    requires s != ""
  {
    s[0] == '`' || (s[0] == '$' && |s| > 1 && s[1] == '(')
  }

  // ------------------------------------------------------------------ specification

  /** A word's text so far and what follows it. */
  type Scan = Option<(string, string)>

  function Before(text: string, scan: Scan): (r: Scan)
    ensures text == "" ==> r == scan
    ensures scan.Some? && scan.value.0 == "" ==> r == Some((text, scan.value.1))
  {
    match scan
    case None => None
    case Some((value, rest)) =>
      assert "" + value == value && text + "" == text;
      Some((text + value, rest))
  }

  /** Text up to the closing double quote. */
  function ScanDoubleQuoted(s: string): (r: Scan)
    ensures r.Some? ==> |r.value.1| < |s|
    decreases |s|
  {
    if s == "" then None
    else if s[0] == '"' then Some(("", s[1..]))
    else if StartsSubstitution(s) then None
    else if s[0] == '\\' && |s| > 1 then Before(s[1..2], ScanDoubleQuoted(s[2..]))
    else Before(s[..1], ScanDoubleQuoted(s[1..]))
  }

  /** Text up to the closing single quote; nothing inside is special. */
  function ScanSingleQuoted(s: string): (r: Scan)
    ensures r.Some? ==> |r.value.1| < |s|
    decreases |s|
  {
    if s == "" then None
    else if s[0] == '\'' then Some(("", s[1..]))
    else Before(s[..1], ScanSingleQuoted(s[1..]))
  }

  /** The longest run of plain, quoted and escaped text at the front of s. */
  function ScanWord(s: string): (r: Scan)
    ensures r.Some? ==> |r.value.1| <= |s|
    ensures r.Some? && s != "" && !IsWhitespace(s[0]) && !IsOperatorStart(s[0]) ==> |r.value.1| < |s|
    decreases |s|
  {
    if s == "" || IsWhitespace(s[0]) || IsOperatorStart(s[0]) then Some(("", s))
    else if s[0] == '\'' then
      match ScanSingleQuoted(s[1..])
      case None => None
      case Some((text, rest)) => Before(text, ScanWord(rest))
    else if s[0] == '"' then
      match ScanDoubleQuoted(s[1..])
      case None => None
      case Some((text, rest)) => Before(text, ScanWord(rest))
    else if StartsSubstitution(s) then None
    else if s[0] == '\\' && |s| > 1 then Before(s[1..2], ScanWord(s[2..]))
    else Before(s[..1], ScanWord(s[1..]))
  }

  function OperatorLength(s: string): (n: nat)
    requires s != ""
    ensures 1 <= n <= |s|
  {
    if |s| > 1 && s[0] == s[1] && (s[0] == '&' || s[0] == '|') then 2 else 1
  }

  /** The tokens of s, or None when it is not in the accepted subset of the shell's grammar. */
  function Tokens(s: string): Option<seq<Token>>
    decreases |s|
  {
    if s == "" then Some([])
    else if IsWhitespace(s[0]) then Tokens(s[1..])
    else if IsOperatorStart(s[0]) then
      var n := OperatorLength(s);
      Prepend([Op(s[..n])], Tokens(s[n..]))
    else
      match ScanWord(s)
      case None => None
      case Some((value, rest)) => if value == "" then None else Prepend([Word(value)], Tokens(rest))
  }

  function Prepend(tokens: seq<Token>, rest: Option<seq<Token>>): (r: Option<seq<Token>>)
    ensures tokens == [] ==> r == rest
    ensures rest == Some([]) ==> r == Some(tokens)
  {
    match rest
    case None => None
    case Some(more) =>
      assert [] + more == more && tokens + [] == tokens;
      Some(tokens + more)
  }

  // ------------------------------------------------------------------ the index loop

  lemma DoubleQuotedEscape(command: string, index: nat)
    requires index + 1 < |command| && command[index] == '\\'
    ensures ScanDoubleQuoted(command[index..]) == Before([command[index + 1]], ScanDoubleQuoted(command[index + 2..]))
  {
    assert command[index..][2..] == command[index + 2..] && command[index..][1..2] == [command[index + 1]];
  }

  lemma DoubleQuotedOther(command: string, index: nat)
    requires index < |command| && command[index] != '"'
    requires command[index] == '\\' ==> index + 1 == |command|
    ensures ScanDoubleQuoted(command[index..]) ==
            if command[index] == '`' || (command[index] == '$' && index + 1 < |command| && command[index + 1] == '(') then None
            else Before([command[index]], ScanDoubleQuoted(command[index + 1..]))
  {
    assert command[index..][1..] == command[index + 1..] && command[index..][..1] == [command[index]];
  }

  /** Scan a double-quoted section whose opening quote is just before start. */
  method DoubleQuoted(command: string, start: nat) returns (r: Option<(string, nat)>)
    requires start <= |command|
    ensures match r
            case None => ScanDoubleQuoted(command[start..]) == None
            case Some((value, index)) =>
              start < index <= |command| && ScanDoubleQuoted(command[start..]) == Some((value, command[index..]))
  {
    var value := "";
    var index := start;
    while index < |command| && command[index] != '"'
      invariant start <= index <= |command|
      invariant ScanDoubleQuoted(command[start..]) == Before(value, ScanDoubleQuoted(command[index..]))
      decreases |command| - index
    {
      var text, next := [command[index]], index + 1;
      if command[index] == '\\' && index + 1 < |command| {
        DoubleQuotedEscape(command, index);
        text, next := [command[index + 1]], index + 2;
      } else {
        DoubleQuotedOther(command, index);
        if command[index] == '`' || (command[index] == '$' && index + 1 < |command| && command[index + 1] == '(') {
          return None;
        }
      }
      BeforeTwice(value, text, ScanDoubleQuoted(command[next..]));
      value := value + text;
      index := next;
    }
    if index == |command| {
      return None;
    }
    assert command[index..][1..] == command[index + 1..];
    return Some((value, index + 1));
  }

  lemma BeforeTwice(a: string, b: string, scan: Scan)
    ensures Before(a, Before(b, scan)) == Before(a + b, scan)
  {
    if scan.Some? {
      assert a + (b + scan.value.0) == a + b + scan.value.0;
    }
  }

  // One lemma for each kind of character a word can continue with.

  lemma {:induction false} SingleQuotedEndsAtIndex(command: string, start: nat)
    requires start <= |command|
    ensures ScanSingleQuoted(command[start..]) ==
            match IndexOf(command, '\'', start)
            case None => None
            case Some(end) => Some((command[start..end], command[end + 1..]))
    decreases |command| - start
  {
    if start < |command| {
      assert command[start..][1..] == command[start + 1..] && command[start..][..1] == [command[start]];
      if command[start] == '\'' {
        assert command[start..start] == "";
      } else {
        SingleQuotedEndsAtIndex(command, start + 1);
        var end := IndexOf(command, '\'', start + 1);
        if end.Some? {
          assert command[start..end.value] == [command[start]] + command[start + 1..end.value];
        }
      }
    }
  }

  lemma ScanSingleQuote(command: string, index: nat)
    requires index < |command| && command[index] == '\''
    ensures ScanWord(command[index..]) ==
            match ScanSingleQuoted(command[index + 1..])
            case None => None
            case Some((text, rest)) => Before(text, ScanWord(rest))
  {
    assert command[index..][1..] == command[index + 1..];
  }

  lemma ScanDoubleQuote(command: string, index: nat)
    requires index < |command| && command[index] == '"'
    ensures ScanWord(command[index..]) ==
            match ScanDoubleQuoted(command[index + 1..])
            case None => None
            case Some((text, rest)) => Before(text, ScanWord(rest))
  {
    assert command[index..][1..] == command[index + 1..];
  }

  lemma ScanEscaped(command: string, index: nat)
    requires index + 1 < |command| && command[index] == '\\'
    ensures ScanWord(command[index..]) == Before([command[index + 1]], ScanWord(command[index + 2..]))
  {
    assert command[index..][2..] == command[index + 2..] && command[index..][1..2] == [command[index + 1]];
  }

  lemma ScanOther(command: string, index: nat)
    requires index < |command| && !IsWhitespace(command[index]) && !IsOperatorStart(command[index])
    requires command[index] != '\'' && command[index] != '"'
    requires command[index] == '\\' ==> index + 1 == |command|
    ensures ScanWord(command[index..]) ==
            if command[index] == '`' || (command[index] == '$' && index + 1 < |command| && command[index + 1] == '(') then None
            else Before([command[index]], ScanWord(command[index + 1..]))
  {
    assert command[index..][1..] == command[index + 1..] && command[index..][..1] == [command[index]];
  }

  /** The next piece of the word at index: a quoted section, an escaped character or a plain one. */
  method Section(command: string, index: nat) returns (r: Option<(string, nat)>)
    requires index < |command| && !IsWhitespace(command[index]) && !IsOperatorStart(command[index])
    ensures match r
            case None => ScanWord(command[index..]) == None
            case Some((text, next)) =>
              index < next <= |command| && ScanWord(command[index..]) == Before(text, ScanWord(command[next..]))
  {
    var current := command[index];
    if current == '\'' {
      ScanSingleQuote(command, index);
      SingleQuotedEndsAtIndex(command, index + 1);
      var end := IndexOf(command, '\'', index + 1);
      return match end case None => None case Some(e) => Some((command[index + 1..e], e + 1));
    }
    if current == '"' {
      ScanDoubleQuote(command, index);
      r := DoubleQuoted(command, index + 1);
      return;
    }
    if current == '\\' && index + 1 < |command| {
      ScanEscaped(command, index);
      return Some(([command[index + 1]], index + 2));
    }
    ScanOther(command, index);
    if current == '`' || (current == '$' && index + 1 < |command| && command[index + 1] == '(') {
      return None;
    }
    assert ScanWord(command[index..]) == Before([current], ScanWord(command[index + 1..]));
    return Some(([current], index + 1));
  }

  /** Scan one word; None when it must be refused. */
  method WordAt(command: string, start: nat) returns (r: Option<(string, nat)>)
    requires start <= |command|
    ensures match r
            case None => ScanWord(command[start..]) == None
            case Some((value, index)) =>
              start <= index <= |command| && ScanWord(command[start..]) == Some((value, command[index..]))
  {
    var value := "";
    var index := start;
    while index < |command| && !IsWhitespace(command[index]) && !IsOperatorStart(command[index])
      invariant start <= index <= |command|
      invariant ScanWord(command[start..]) == Before(value, ScanWord(command[index..]))
      decreases |command| - index
    {
      var section := Section(command, index);
      if section.None? {
        return None;
      }
      BeforeTwice(value, section.value.0, ScanWord(command[section.value.1..]));
      value := value + section.value.0;
      index := section.value.1;
    }
    return Some((value, index));
  }

  lemma TokenStepWord(command: string, index: nat, value: string, end: nat)
    requires index < |command| && !IsWhitespace(command[index]) && !IsOperatorStart(command[index])
    requires end <= |command| && ScanWord(command[index..]) == Some((value, command[end..]))
    ensures index < end
    ensures Tokens(command[index..]) == if value == "" then None else Prepend([Word(value)], Tokens(command[end..]))
  {
    assert |command[end..]| < |command[index..]|;
  }

  lemma TokenStepOperator(command: string, index: nat, n: nat)
    requires index < |command| && IsOperatorStart(command[index]) && !IsWhitespace(command[index])
    requires n == OperatorLength(command[index..])
    ensures Tokens(command[index..]) == Prepend([Op(command[index..index + n])], Tokens(command[index + n..]))
  {
    assert command[index..][..n] == command[index..index + n];
    assert command[index..][n..] == command[index + n..];
  }

  lemma TokenStepWhitespace(command: string, index: nat)
    requires index < |command| && IsWhitespace(command[index])
    ensures Tokens(command[index..]) == Tokens(command[index + 1..])
  {
    assert command[index..][1..] == command[index + 1..];
  }

  /** The token at index, which is no whitespace. */
  method TokenAt(command: string, index: nat) returns (r: Option<(Token, nat)>)
    requires index < |command| && !IsWhitespace(command[index])
    ensures match r
            case None => Tokens(command[index..]) == None
            case Some((token, next)) =>
              index < next <= |command| && Tokens(command[index..]) == Prepend([token], Tokens(command[next..]))
  {
    var c := command[index];
    if IsOperatorStart(c) {
      var n := if (c == '&' || c == '|') && index + 1 < |command| && command[index + 1] == c then 2 else 1;
      TokenStepOperator(command, index, n);
      return Some((Op(command[index..index + n]), index + n));
    }
    var word := WordAt(command, index);
    if word.None? {
      return None;
    }
    TokenStepWord(command, index, word.value.0, word.value.1);
    if word.value.0 == "" {
      return None;
    }
    return Some((Word(word.value.0), word.value.1));
  }

  method SkipWhitespace(command: string, start: nat) returns (index: nat)
    requires start <= |command|
    ensures start <= index <= |command| && (index < |command| ==> !IsWhitespace(command[index]))
    ensures Tokens(command[start..]) == Tokens(command[index..])
  {
    index := start;
    while index < |command| && IsWhitespace(command[index])
      invariant start <= index <= |command|
      invariant Tokens(command[start..]) == Tokens(command[index..])
    {
      TokenStepWhitespace(command, index);
      index := index + 1;
    }
  }

  method Tokenize(command: string) returns (r: Option<seq<Token>>)
    ensures r == Tokens(command)
  {
    var tokens: seq<Token> := [];
    var index := 0;
    assert command[0..] == command;
    while index < |command|
      invariant 0 <= index <= |command|
      invariant Tokens(command) == Prepend(tokens, Tokens(command[index..]))
      decreases |command| - index
    {
      index := SkipWhitespace(command, index);
      if index >= |command| {
        break;
      }
      var token := TokenAt(command, index);
      if token.None? {
        return None;
      }
      PrependTwice(tokens, [token.value.0], Tokens(command[token.value.1..]));
      tokens := tokens + [token.value.0];
      index := token.value.1;
    }
    assert command[index..] == "";
    return Some(tokens);
  }

  lemma PrependTwice(a: seq<Token>, b: seq<Token>, rest: Option<seq<Token>>)
    ensures Prepend(a, Prepend(b, rest)) == Prepend(a + b, rest)
  {
    if rest.Some? {
      assert a + (b + rest.value) == a + b + rest.value;
    }
  }

  // ------------------------------------------------------------------ quoting

  /** Every single quote becomes: close, escaped quote, reopen. */
  function Escape(s: string): string
    decreases |s|
  {
    match IndexOf(s, '\'', 0)
    case None => s
    case Some(i) => s[..i] + ("'" + ("\\'" + ("'" + Escape(s[i + 1..]))))
  }

  function ShQuote(value: string): string {
    "'" + Escape(value) + "'"
  }

  lemma {:induction false} QuoteCloses(text: string, tail: string)
    requires forall i | 0 <= i < |text| :: text[i] != '\''
    ensures ScanSingleQuoted(text + ("'" + tail)) == Some((text, tail))
    decreases |text|
  {
    var s := text + ("'" + tail);
    if text == "" {
      assert s[1..] == tail;
    } else {
      assert s[1..] == text[1..] + ("'" + tail) && s[..1] == [text[0]];
      QuoteCloses(text[1..], tail);
      assert text == [text[0]] + text[1..];
    }
  }

  /** Quoted text without quotes inside. */
  lemma ScanLiteral(text: string, tail: string)
    requires forall i | 0 <= i < |text| :: text[i] != '\''
    ensures ScanWord("'" + (text + ("'" + tail))) == Before(text, ScanWord(tail))
  {
    var s := "'" + (text + ("'" + tail));
    assert s[1..] == text + ("'" + tail);
    QuoteCloses(text, tail);
  }

  lemma ScanEscapedQuote(tail: string)
    ensures ScanWord("\\'" + tail) == Before("'", ScanWord(tail))
  {
    var s := "\\'" + tail;
    assert s[2..] == tail;
    ScanEscaped(s, 0);
    assert s[0..] == s;
  }

  lemma Assoc(a: string, b: string, c: string)
    ensures a + b + c == a + (b + c)
  {
  }

  lemma Assoc4(a: string, b: string, c: string, d: string, e: string)
    ensures a + (b + (c + (b + d))) + e == a + (b + (c + (b + (d + e))))
  {
    Assoc(b, d, e);
    Assoc(c, b + d, e);
    Assoc(b, c + (b + d), e);
    Assoc(a, b + (c + (b + d)), e);
  }

  /** Quoted text, then the quote character that the escape puts between two quoted parts. */
  lemma ScanUpToQuote(text: string, tail: string)
    requires forall i | 0 <= i < |text| :: text[i] != '\''
    ensures ScanWord("'" + (text + ("'" + ("\\'" + tail)))) == Before(text + "'", ScanWord(tail))
  {
    ScanLiteral(text, "\\'" + tail);
    ScanEscapedQuote(tail);
    BeforeTwice(text, "'", ScanWord(tail));
  }

  lemma SplitAtQuote(value: string, i: nat)
    requires i < |value| && value[i] == '\''
    ensures value == value[..i] + "'" + value[i + 1..]
  {
  }

  /** A quoted string is read back as exactly itself, whatever characters it holds. */
  lemma {:induction false} ScanEscape(value: string, rest: string)
    ensures ScanWord("'" + (Escape(value) + ("'" + rest))) == Before(value, ScanWord(rest))
    decreases |value|
  {
    match IndexOf(value, '\'', 0) {
      case None =>
        ScanLiteral(value, rest);
      case Some(i) =>
        var before, after := value[..i], value[i + 1..];
        Assoc4(before, "'", "\\'", Escape(after), "'" + rest);
        ScanUpToQuote(before, "'" + (Escape(after) + ("'" + rest)));
        ScanEscape(after, rest);
        BeforeTwice(before + "'", after, ScanWord(rest));
        SplitAtQuote(value, i);
    }
  }

  lemma ScanQuoted(value: string, rest: string)
    ensures ScanWord(ShQuote(value) + rest) == Before(value, ScanWord(rest))
  {
    Assoc("'", Escape(value), "'");
    Assoc("'", Escape(value) + "'", rest);
    Assoc(Escape(value), "'", rest);
    ScanEscape(value, rest);
  }

  predicate IsPlain(c: char) {
    !IsWhitespace(c) && !IsOperatorStart(c) && c != '\'' && c != '"' && c != '`' && c != '$' && c != '\\'
  }

  predicate IsPlainText(s: string) {
    forall i | 0 <= i < |s| :: IsPlain(s[i])
  }

  lemma {:induction false} ScanPlain(value: string, rest: string)
    requires IsPlainText(value)
    ensures ScanWord(value + rest) == Before(value, ScanWord(rest))
    decreases |value|
  {
    if value == "" {
      assert value + rest == rest;
    } else {
      var s := value + rest;
      assert s[1..] == value[1..] + rest;
      assert s[0..] == s;
      ScanOther(s, 0);
      ScanPlain(value[1..], rest);
      BeforeTwice([value[0]], value[1..], ScanWord(rest));
      assert value == [value[0]] + value[1..];
    }
  }

  // ------------------------------------------------------------------ printing lists of words

  /** What a command is printed from. A blank prints nothing between its two separating spaces. */
  datatype Piece =
    | Quoted(value: string)
    | Plain(value: string)
    | Operator(value: string)
    | Blank
  {
    function Render(): string {
      match this
      case Quoted(v) => ShQuote(v)
      case Plain(v) => v
      case Operator(v) => v
      case Blank => ""
    }

    predicate Valid() {
      match this
      case Quoted(_) => true
      case Plain(v) => IsPlainText(v) && v != ""
      case Operator(v) => v == "&&" || v == "||" || v == "|"
      case Blank => true
    }

    /** The token it stands for; an empty quoted word stands for none that the tokenizer takes. */
    function Meaning(): Option<seq<Token>> {
      match this
      case Quoted(v) => if v == "" then None else Some([Word(v)])
      case Plain(v) => Some([Word(v)])
      case Operator(v) => Some([Op(v)])
      case Blank => Some([])
    }
  }

  function RenderAll(pieces: seq<Piece>): string {
    if pieces == [] then ""
    else if |pieces| == 1 then pieces[0].Render()
    else pieces[0].Render() + " " + RenderAll(pieces[1..])
  }

  function MeaningOf(pieces: seq<Piece>): Option<seq<Token>> {
    if pieces == [] then Some([])
    else
      match pieces[0].Meaning()
      case None => None
      case Some(tokens) => Prepend(tokens, MeaningOf(pieces[1..]))
  }

  predicate AllValid(pieces: seq<Piece>) {
    forall i | 0 <= i < |pieces| :: pieces[i].Valid()
  }

  lemma PieceTokens(piece: Piece, rest: string)
    requires piece.Valid() && (rest == "" || IsWhitespace(rest[0]))
    ensures Tokens(piece.Render() + rest) ==
            match piece.Meaning() case None => None case Some(tokens) => Prepend(tokens, Tokens(rest))
  {
    var s := piece.Render() + rest;
    match piece {
      case Quoted(v) =>
        ScanQuoted(v, rest);
      case Plain(v) =>
        ScanPlain(v, rest);
      case Operator(v) =>
        assert OperatorLength(s) == |v|;
        assert s[..|v|] == v && s[|v|..] == rest;
      case Blank =>
        assert s == rest;
    }
  }

  /**
    Printing and tokenizing are inverse: a printed list of pieces tokenizes to exactly the tokens
    the pieces stand for, and is refused exactly when some quoted word is empty.
   */
  lemma {:induction false} PrintParse(pieces: seq<Piece>)
    requires AllValid(pieces)
    ensures Tokens(RenderAll(pieces)) == MeaningOf(pieces)
    decreases |pieces|
  {
    if |pieces| == 1 {
      PieceTokens(pieces[0], "");
      assert pieces[0].Render() + "" == pieces[0].Render();
      assert MeaningOf(pieces[1..]) == Some([]);
    } else if |pieces| > 1 {
      var rest := " " + RenderAll(pieces[1..]);
      PieceTokens(pieces[0], rest);
      assert pieces[0].Render() + " " + RenderAll(pieces[1..]) == pieces[0].Render() + rest;
      assert rest[1..] == RenderAll(pieces[1..]);
      PrintParse(pieces[1..]);
    }
  }

  function QuoteAll(words: seq<string>): seq<Piece> {
    seq(|words|, i requires 0 <= i < |words| => Quoted(words[i]))
  }

  function WordTokens(words: seq<string>): seq<Token> {
    seq(|words|, i requires 0 <= i < |words| => Word(words[i]))
  }

  lemma {:induction false} MeaningOfQuoted(words: seq<string>)
    ensures MeaningOf(QuoteAll(words)) == if "" in words then None else Some(WordTokens(words))
    decreases |words|
  {
    if words == [] {
      assert QuoteAll(words) == [] && WordTokens(words) == [];
    } else {
      assert QuoteAll(words)[0] == Quoted(words[0]);
      assert QuoteAll(words)[1..] == QuoteAll(words[1..]);
      MeaningOfQuoted(words[1..]);
      assert words == [words[0]] + words[1..];
      assert "" in words <==> words[0] == "" || "" in words[1..];
      assert WordTokens(words) == [Word(words[0])] + WordTokens(words[1..]);
    }
  }

  /** A list of quoted words comes back word for word, with no operator among the tokens. */
  lemma QuotedWordsComeBack(words: seq<string>)
    ensures Tokens(RenderAll(QuoteAll(words))) == if "" in words then None else Some(WordTokens(words))
  {
    PrintParse(QuoteAll(words));
    MeaningOfQuoted(words);
  }
}
