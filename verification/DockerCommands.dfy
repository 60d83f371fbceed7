/** Which commands the agent's policy permits, and what each of them means. */
module DockerCommands {
  import opened Wrappers
  import opened JsText
  import opened ShellTokens

  // ------------------------------------------------------------------ the agent's parser

  datatype Parsed = Parsed(args: seq<string>, cwd: Option<string>, dockerHost: Option<string>, stdin: Option<string>)

  const HOST_PREFIX := "DOCKER_HOST="

  function WordsOnly(tokens: seq<Token>): Option<seq<string>> {
    if forall i | 0 <= i < |tokens| :: tokens[i].Word?
    then Some(seq(|tokens|, i requires 0 <= i < |tokens| && tokens[i].Word? => tokens[i].value))
    else None
  }

  function ParseDockerInvocation(tokens: seq<Token>, cwd: Option<string>): Option<Parsed> {
    var hasHost := tokens != [] && tokens[0].Word? && HOST_PREFIX <= tokens[0].value;
    if hasHost && tokens[0].value == HOST_PREFIX then None
    else
      var host := if hasHost then Some(tokens[0].value[|HOST_PREFIX|..]) else None;
      match WordsOnly(if hasHost then tokens[1..] else tokens)
      case None => None
      case Some(words) =>
        if |words| < 2 || words[0] != "docker" then None else Some(Parsed(words[1..], cwd, host, None))
  }

  function ParseDockerLoginPipe(tokens: seq<Token>, cwd: Option<string>): Option<Parsed> {
    if !(|tokens| > 4 && tokens[0] == Word("printf") && tokens[1] == Word("%s") && tokens[2].Word?
         && tokens[3] == Op("|") && tokens[4] == Word("docker")) then None
    else
      match WordsOnly(tokens[4..])
      case None => None
      case Some(words) =>
        if |words| < 2 || words[1] != "login" || "--password-stdin" !in words then None
        else Some(Parsed(words[1..], cwd, None, Some(tokens[2].value)))
  }

  function ParseTokens(tokens: seq<Token>): Option<Parsed> {
    var changesDirectory := |tokens| > 2 && tokens[0] == Word("cd") && tokens[1].Word? && tokens[2] == Op("&&");
    if changesDirectory && tokens[1].value == "" then None
    else
      var cwd := if changesDirectory then Some(tokens[1].value) else None;
      var remaining := if changesDirectory then tokens[3..] else tokens;
      match ParseDockerLoginPipe(remaining, cwd)
      case Some(p) => Some(p)
      case None => ParseDockerInvocation(remaining, cwd)
  }

  function Permitted(command: string): Option<Parsed> {
    match Tokens(Trim(command))
    case None => None
    case Some(tokens) => if tokens == [] then None else ParseTokens(tokens)
  }

  method ParsePermittedDockerCommand(command: string) returns (r: Option<Parsed>)
    ensures r == Permitted(command)
  {
    var tokens := Tokenize(Trim(command));
    if tokens.None? || tokens.value == [] {
      return None;
    }
    return ParseTokens(tokens.value);
  }

  // ------------------------------------------------------------------ exactly what is permitted

  /** Commands that can come out of the parser. */
  predicate WellFormed(p: Parsed) {
    && p.args != []
    && p.cwd != Some("")
    && p.dockerHost != Some("")
    && (p.stdin.Some? ==> p.dockerHost.None? && p.args[0] == "login" && "--password-stdin" in p.args)
  }

  function DirectoryTokens(p: Parsed): seq<Token> {
    if p.cwd.Some? then [Word("cd"), Word(p.cwd.value), Op("&&")] else []
  }

  function FrontTokens(p: Parsed): seq<Token> {
    if p.stdin.Some? then [Word("printf"), Word("%s"), Word(p.stdin.value), Op("|")]
    else if p.dockerHost.Some? then [Word(HOST_PREFIX + p.dockerHost.value)]
    else []
  }

  /** The one token sequence that means p. */
  function Canonical(p: Parsed): seq<Token> {
    DirectoryTokens(p) + FrontTokens(p) + [Word("docker")] + WordTokens(p.args)
  }

  lemma WordsOnlyOfWords(words: seq<string>)
    ensures WordsOnly(WordTokens(words)) == Some(words)
  {
    assert WordsOnly(WordTokens(words)).value == words;
  }

  lemma WordsOnlySound(tokens: seq<Token>)
    ensures WordsOnly(tokens).Some? ==> tokens == WordTokens(WordsOnly(tokens).value)
  {
  }

  /** The rest of the canonical sequence once the directory change is taken off. */
  function CanonicalCommand(p: Parsed): seq<Token> {
    FrontTokens(p) + WordTokens(["docker"] + p.args)
  }

  lemma CanonicalSplits(p: Parsed)
    ensures Canonical(p) == DirectoryTokens(p) + CanonicalCommand(p)
  {
    assert WordTokens(["docker"] + p.args) == [Word("docker")] + WordTokens(p.args);
  }

  lemma LoginPipeIsCanonical(tokens: seq<Token>, cwd: Option<string>, p: Parsed)
    requires cwd != Some("")
    ensures ParseDockerLoginPipe(tokens, cwd) == Some(p) <==>
            WellFormed(p) && p.stdin.Some? && p.cwd == cwd && tokens == CanonicalCommand(p)
  {
    var words := ["docker"] + p.args;
    var front := [Word("printf"), Word("%s"), Word(if p.stdin.Some? then p.stdin.value else ""), Op("|")];
    if ParseDockerLoginPipe(tokens, cwd) == Some(p) {
      WordsOnlySound(tokens[4..]);
      assert WordsOnly(tokens[4..]).value == words;
      assert tokens == front + tokens[4..];
    }
    if WellFormed(p) && p.stdin.Some? && p.cwd == cwd && tokens == CanonicalCommand(p) {
      assert tokens[4..] == WordTokens(words);
      WordsOnlyOfWords(words);
      assert words[1..] == p.args;
      assert tokens[4] == Word(words[0]);
    }
  }

  lemma InvocationIsCanonical(tokens: seq<Token>, cwd: Option<string>, p: Parsed)
    requires cwd != Some("")
    ensures ParseDockerInvocation(tokens, cwd) == Some(p) <==>
            WellFormed(p) && p.stdin.None? && p.cwd == cwd && tokens == CanonicalCommand(p)
  {
    var words := ["docker"] + p.args;
    var hasHost := tokens != [] && tokens[0].Word? && HOST_PREFIX <= tokens[0].value;
    var rest := if hasHost then tokens[1..] else tokens;
    if ParseDockerInvocation(tokens, cwd) == Some(p) {
      WordsOnlySound(rest);
      assert WordsOnly(rest).value == words;
      if hasHost {
        assert tokens[0].value == HOST_PREFIX + p.dockerHost.value;
        assert tokens == [tokens[0]] + rest;
      }
    }
    if WellFormed(p) && p.stdin.None? && p.cwd == cwd && tokens == CanonicalCommand(p) {
      WordsOnlyOfWords(words);
      assert words[1..] == p.args;
      if p.dockerHost.Some? {
        assert tokens[0].value[|HOST_PREFIX|..] == p.dockerHost.value;
        assert tokens[1..] == WordTokens(words);
      } else {
        assert tokens[0] == Word("docker");
        assert tokens == WordTokens(words);
      }
    }
  }

  /** The parser accepts exactly the canonical token sequences of well-formed commands. */
  lemma ParseIsCanonical(tokens: seq<Token>, p: Parsed)
    ensures ParseTokens(tokens) == Some(p) <==> WellFormed(p) && tokens == Canonical(p)
  {
    CanonicalSplits(p);
    var changesDirectory := |tokens| > 2 && tokens[0] == Word("cd") && tokens[1].Word? && tokens[2] == Op("&&");
    if changesDirectory {
      var front := tokens[..3];
      assert tokens == front + tokens[3..];
      assert front == [Word("cd"), Word(tokens[1].value), Op("&&")];
    }
    if changesDirectory && tokens[1].value == "" {
      assert WellFormed(p) && tokens == Canonical(p) ==> p.cwd == Some("");
    } else {
      var cwd := if changesDirectory then Some(tokens[1].value) else None;
      var remaining := if changesDirectory then tokens[3..] else tokens;
      LoginPipeIsCanonical(remaining, cwd, p);
      InvocationIsCanonical(remaining, cwd, p);
      LoginPipesAreNotInvocations(remaining, cwd);
      if WellFormed(p) && tokens == Canonical(p) {
        assert p.cwd == cwd && remaining == CanonicalCommand(p);
      }
    }
  }

  lemma LoginPipesAreNotInvocations(tokens: seq<Token>, cwd: Option<string>)
    ensures ParseDockerLoginPipe(tokens, cwd).Some? ==> ParseDockerInvocation(tokens, cwd).None?
  {
    if ParseDockerLoginPipe(tokens, cwd).Some? {
      assert tokens[3].Op?;
      assert tokens[0].value == "printf";
    }
  }

  /** A command is executed as p exactly when p is well formed and its tokens are p's tokens. */
  lemma PermittedExactly(command: string, p: Parsed)
    ensures Permitted(command) == Some(p) <==> WellFormed(p) && Tokens(Trim(command)) == Some(Canonical(p))
  {
    match Tokens(Trim(command)) {
      case None =>
      case Some(tokens) =>
        ParseIsCanonical(tokens, p);
        assert Word("docker") in Canonical(p);
    }
  }

  // ------------------------------------------------------------------ re-printing

  function DirectoryPieces(p: Parsed): seq<Piece> {
    if p.cwd.Some? then [Plain("cd"), Quoted(p.cwd.value), Operator("&&")] else []
  }

  function FrontPieces(p: Parsed): seq<Piece> {
    if p.stdin.Some? then [Plain("printf"), Quoted("%s"), Quoted(p.stdin.value), Operator("|")]
    else if p.dockerHost.Some? then [Quoted(HOST_PREFIX + p.dockerHost.value)]
    else []
  }

  /** Print p again, every value quoted. */
  function Pieces(p: Parsed): seq<Piece> {
    DirectoryPieces(p) + FrontPieces(p) + [Plain("docker")] + QuoteAll(p.args)
  }

  predicate Tight(s: string) {
    s != "" && !IsWhitespace(s[0]) && !IsWhitespace(s[|s| - 1])
  }

  lemma TrimKeepsTight(s: string)
    requires Tight(s)
    ensures Trim(s) == s
  {
    assert TrimStart(s) == s;
  }

  lemma RenderIsTight(piece: Piece)
    requires piece.Valid() && !piece.Blank?
    ensures Tight(piece.Render())
  {
  }

  lemma {:induction false} RenderAllIsTight(pieces: seq<Piece>)
    requires AllValid(pieces) && pieces != [] && !pieces[0].Blank? && !pieces[|pieces| - 1].Blank?
    ensures Tight(RenderAll(pieces))
    decreases |pieces|
  {
    RenderIsTight(pieces[0]);
    EndIsTight(pieces);
    StartIsTight(pieces);
  }

  lemma StartIsTight(pieces: seq<Piece>)
    requires AllValid(pieces) && pieces != [] && !pieces[0].Blank?
    ensures RenderAll(pieces) != "" && RenderAll(pieces)[0] == pieces[0].Render()[0]
    ensures !IsWhitespace(RenderAll(pieces)[0])
  {
    RenderIsTight(pieces[0]);
  }

  lemma {:induction false} EndIsTight(pieces: seq<Piece>)
    requires AllValid(pieces) && pieces != [] && !pieces[|pieces| - 1].Blank?
    ensures RenderAll(pieces) != "" && !IsWhitespace(RenderAll(pieces)[|RenderAll(pieces)| - 1])
    decreases |pieces|
  {
    if |pieces| == 1 {
      RenderIsTight(pieces[0]);
    } else {
      EndIsTight(pieces[1..]);
      var rest := RenderAll(pieces[1..]);
      assert RenderAll(pieces) == pieces[0].Render() + " " + rest;
      assert RenderAll(pieces)[|RenderAll(pieces)| - 1] == rest[|rest| - 1];
    }
  }

  /** What a printed list of pieces is executed as, in terms of the tokens it stands for. */
  lemma PermittedPieces(pieces: seq<Piece>)
    requires AllValid(pieces) && pieces != [] && !pieces[0].Blank? && !pieces[|pieces| - 1].Blank?
    ensures Tokens(Trim(RenderAll(pieces))) == MeaningOf(pieces)
  {
    RenderAllIsTight(pieces);
    TrimKeepsTight(RenderAll(pieces));
    PrintParse(pieces);
  }

  lemma {:induction false} MeaningOfAppend(left: seq<Piece>, right: seq<Piece>)
    ensures MeaningOf(left + right) ==
            match MeaningOf(left) case None => None case Some(tokens) => Prepend(tokens, MeaningOf(right))
    decreases |left|
  {
    if left == [] {
      assert left + right == right;
    } else {
      assert (left + right)[1..] == left[1..] + right;
      MeaningOfAppend(left[1..], right);
      if left[0].Meaning().Some? && MeaningOf(left[1..]).Some? {
        PrependTwice(left[0].Meaning().value, MeaningOf(left[1..]).value, MeaningOf(right));
      }
    }
  }

  /** The words a text is split into have no empty one among them. */
  lemma {:induction false} TokensAreNonEmpty(s: string, i: nat)
    requires Tokens(s).Some? && i < |Tokens(s).value|
    ensures Tokens(s).value[i] != Word("")
    decreases |s|
  {
    if IsWhitespace(s[0]) {
      TokensAreNonEmpty(s[1..], i);
    } else if IsOperatorStart(s[0]) {
      if i > 0 {
        TokensAreNonEmpty(s[OperatorLength(s)..], i - 1);
      }
    } else if i > 0 {
      TokensAreNonEmpty(ScanWord(s).value.1, i - 1);
    }
  }

  function TokenOf(piece: Piece): Token
    requires !piece.Blank?
  {
    if piece.Operator? then Op(piece.value) else Word(piece.value)
  }

  /** Without blanks and empty words, each piece stands for one token. */
  lemma {:induction false} MeaningPointwise(pieces: seq<Piece>)
    requires forall i | 0 <= i < |pieces| :: !pieces[i].Blank? && pieces[i] != Quoted("")
    ensures MeaningOf(pieces).Some? && |MeaningOf(pieces).value| == |pieces|
    ensures forall i | 0 <= i < |pieces| :: MeaningOf(pieces).value[i] == TokenOf(pieces[i])
    decreases |pieces|
  {
    if pieces != [] {
      MeaningPointwise(pieces[1..]);
      assert pieces[0].Meaning() == Some([TokenOf(pieces[0])]);
      forall i | 0 < i < |pieces| ensures MeaningOf(pieces).value[i] == TokenOf(pieces[i]) {
        assert MeaningOf(pieces).value[i] == MeaningOf(pieces[1..]).value[i - 1];
      }
    }
  }

  lemma EmptyWordsShow(p: Parsed)
    ensures p.stdin == Some("") || "" in p.args ==> Word("") in Canonical(p)
  {
    CanonicalSplits(p);
    var tokens := Canonical(p);
    var n := |tokens| - |p.args|;
    if p.stdin == Some("") {
      assert tokens[n - 3] == FrontTokens(p)[2];
    }
    if "" in p.args {
      var i :| 0 <= i < |p.args| && p.args[i] == "";
      assert tokens[n + i] == Word("");
    }
  }

  lemma PiecesMeanCanonical(p: Parsed)
    requires WellFormed(p) && Word("") !in Canonical(p)
    ensures MeaningOf(Pieces(p)) == Some(Canonical(p)) && AllValid(Pieces(p))
  {
    EmptyWordsShow(p);
    var pieces, tokens := Pieces(p), Canonical(p);
    PiecesMatchTokens(p);
    MeaningPointwise(pieces);
    assert MeaningOf(pieces).value == tokens;
  }

  predicate Matches(piece: Piece, token: Token) {
    piece.Valid() && !piece.Blank? && piece != Quoted("") && token == TokenOf(piece)
  }

  predicate AllMatch(pieces: seq<Piece>, tokens: seq<Token>) {
    |pieces| == |tokens| && forall i | 0 <= i < |pieces| :: Matches(pieces[i], tokens[i])
  }

  lemma MatchAppend(pieces: seq<Piece>, tokens: seq<Token>, morePieces: seq<Piece>, moreTokens: seq<Token>)
    requires AllMatch(pieces, tokens) && AllMatch(morePieces, moreTokens)
    ensures AllMatch(pieces + morePieces, tokens + moreTokens)
  {
  }

  lemma PiecesMatchTokens(p: Parsed)
    requires WellFormed(p) && p.stdin != Some("") && "" !in p.args
    ensures AllMatch(Pieces(p), Canonical(p))
  {
    assert AllMatch(DirectoryPieces(p), DirectoryTokens(p));
    assert AllMatch(FrontPieces(p), FrontTokens(p));
    MatchAppend(DirectoryPieces(p), DirectoryTokens(p), FrontPieces(p), FrontTokens(p));
    assert AllMatch([Plain("docker")], [Word("docker")]);
    MatchAppend(DirectoryPieces(p) + FrontPieces(p), DirectoryTokens(p) + FrontTokens(p), [Plain("docker")], [Word("docker")]);
    assert AllMatch(QuoteAll(p.args), WordTokens(p.args)) by {
      assert forall i | 0 <= i < |p.args| :: p.args[i] in p.args;
    }
    MatchAppend(DirectoryPieces(p) + FrontPieces(p) + [Plain("docker")], DirectoryTokens(p) + FrontTokens(p) + [Word("docker")],
                QuoteAll(p.args), WordTokens(p.args));
  }

  /** Re-printing any executed command with every value quoted is executed the same way. */
  lemma ReprintIsStable(command: string, p: Parsed)
    requires Permitted(command) == Some(p)
    ensures Permitted(RenderAll(Pieces(p))) == Some(p)
  {
    PermittedExactly(command, p);
    var tokens := Canonical(p);
    if Word("") in tokens {
      var i :| 0 <= i < |tokens| && tokens[i] == Word("");
      TokensAreNonEmpty(Trim(command), i);
    }
    PiecesMeanCanonical(p);
    PermittedPieces(Pieces(p));
    PermittedExactly(RenderAll(Pieces(p)), p);
  }
}
