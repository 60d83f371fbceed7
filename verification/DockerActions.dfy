/** What the manager's command builders print, and how the agent reads it. */
module DockerActions {
  import opened Wrappers
  import opened JsText
  import opened ShellTokens
  import opened DockerCommands

  datatype EnvVar = EnvVar(key: string, value: string)
  datatype Port = Port(hostPort: nat, containerPort: nat, protocol: string)
  datatype Mount = Mount(volumeName: string, containerPath: string, readOnly: bool)
  datatype Label = Label(key: string, value: string)

  /** Optional strings that are absent or empty are both "". A timeout of 0 is an absent one. */
  datatype Action =
    | ContainerRun(image: string, name: string, restartPolicy: string, network: string,
                   env: seq<EnvVar>, ports: seq<Port>, volumes: seq<Mount>, command: string)
    | ContainerStart(containerId: string)
    | ContainerStop(containerId: string, timeoutSeconds: nat)
    | ContainerRestart(containerId: string, timeoutSeconds: nat)
    | ContainerRename(containerId: string, newName: string)
    | ContainerRemove(containerId: string, force: bool, removeVolumes: bool)
    | ImagePull(image: string)
    | ImageRemove(imageId: string, force: bool)
    | ImagePrune(all: bool)
    | NetworkCreate(networkName: string, driver: string, subnet: string, gateway: string,
                    attachable: bool, internal: bool, labels: seq<Label>)
    | NetworkRemove(networkId: string)
    | NetworkPrune
    | VolumeCreate(volumeName: string, labels: seq<Label>)
    | VolumeRemove(volumeName: string, force: bool)
    | VolumePrune
    | Unmapped(kind: string)

  function PortText(p: Port): string { Decimal(p.hostPort) + ":" + Decimal(p.containerPort) + "/" + p.protocol }
  function MountText(m: Mount): string { m.volumeName + ":" + m.containerPath + (if m.readOnly then ":ro" else "") }

  function Flagged<T>(flag: string, items: seq<T>, text: T -> string): seq<string> {
    if items == [] then [] else [flag, text(items[0])] + Flagged(flag, items[1..], text)
  }

  function Optional(condition: bool, words: seq<string>): seq<string> {
    if condition then words else []
  }

  const EnvText: EnvVar -> string := (e: EnvVar) => e.key + "=" + e.value
  const LabelText: Label -> string := (l: Label) => l.key + "=" + l.value

  /** Actions that map to a single command. */
  predicate Mapped(a: Action) {
    match a
    case Unmapped(_) => false
    case NetworkCreate(_, driver, _, _, _, _, _) => driver != "host" && driver != "none"
    case _ => true
  }

  /** The docker arguments each action is meant to run with, word by word. */
  function Argv(a: Action): seq<string>
    requires Mapped(a)
  {
    match a
    case ContainerRun(_, _, _, _, _, _, _, _) => RunWords(a)
    case ContainerStart(id) => ["start"] + [id]
    case ContainerStop(id, t) => TimedWords("stop", id, t)
    case ContainerRestart(id, t) => TimedWords("restart", id, t)
    case ContainerRename(id, name) => ["rename"] + [id, name]
    case ContainerRemove(id, force, removeVolumes) =>
      ["rm"] + Optional(force, ["--force"]) + Optional(removeVolumes, ["--volumes"]) + [id]
    case ImagePull(image) => ["pull"] + [image]
    case ImageRemove(id, force) => ["image", "rm"] + Optional(force, ["--force"]) + [id]
    case ImagePrune(all) => ["image", "prune", "--force"] + Optional(all, ["--all"])
    case NetworkCreate(_, _, _, _, _, _, _) => NetworkWords(a)
    case NetworkRemove(id) => ["network", "rm"] + Optional(false, ["--force"]) + [id]
    case NetworkPrune => ["network", "prune", "--force"] + Optional(false, ["--all"])
    case VolumeCreate(name, labels) => ["volume", "create"] + Flagged("--label", labels, LabelText) + [name]
    case VolumeRemove(name, force) => ["volume", "rm"] + Optional(force, ["--force"]) + [name]
    case VolumePrune => ["volume", "prune", "--force"] + Optional(false, ["--all"])
  }

  function RunOptions(a: Action): seq<string>
    requires a.ContainerRun?
  {
    ["run", "-d"]
    + Optional(a.name != "", ["--name", a.name])
    + Optional(a.restartPolicy != "no", ["--restart", a.restartPolicy])
    + Optional(a.network != "", ["--network", a.network])
  }

  function RunWords(a: Action): seq<string>
    requires a.ContainerRun?
  {
    RunOptions(a)
    + Flagged("--env", a.env, EnvText)
    + Flagged("--publish", a.ports, PortText)
    + Flagged("--volume", a.volumes, MountText)
    + [a.image]
    + Optional(a.command != "", ["sh", "-lc", a.command])
  }

  function TimedWords(verb: string, containerId: string, timeoutSeconds: nat): seq<string> {
    [verb] + Optional(timeoutSeconds != 0, ["--time", Decimal(timeoutSeconds)]) + [containerId]
  }

  function NetworkOptions(a: Action): seq<string>
    requires a.NetworkCreate?
  {
    ["network", "create"] + ["--driver", a.driver]
    + Optional(a.subnet != "", ["--subnet", a.subnet])
    + Optional(a.gateway != "", ["--gateway", a.gateway])
  }

  function NetworkWords(a: Action): seq<string>
    requires a.NetworkCreate?
  {
    NetworkOptions(a)
    + Optional(a.attachable, ["--attachable"])
    + Optional(a.internal, ["--internal"])
    + Flagged("--label", a.labels, LabelText)
    + [a.networkName]
  }

  // ------------------------------------------------------------------ printed argument lists

  /** What printing "docker" followed by these words must tokenize to. */
  function Intended(words: seq<string>): Option<seq<Token>> {
    if "" in words then None else Some([Word("docker")] + WordTokens(words))
  }

  ghost predicate PrintsPieces(args: seq<string>, words: seq<string>, ended: bool, pieces: seq<Piece>) {
    && args != []
    && pieces != [] && pieces[0] == Plain("docker") && AllValid(pieces)
    && Join(args) == RenderAll(pieces)
    && MeaningOf(pieces) == Intended(words)
    && (ended ==> !pieces[|pieces| - 1].Blank?)
  }

  /** The space-joined args read as "docker" and the given words; ended says they end in a word. */
  ghost predicate Prints(args: seq<string>, words: seq<string>, ended: bool) {
    exists pieces :: PrintsPieces(args, words, ended, pieces)
  }

  lemma {:induction false} RenderAllAppend(pieces: seq<Piece>, piece: Piece)
    requires pieces != []
    ensures RenderAll(pieces + [piece]) == RenderAll(pieces) + " " + piece.Render()
    decreases |pieces|
  {
    var rest := pieces[1..];
    assert (pieces + [piece])[1..] == rest + [piece];
    if rest == [] {
      assert RenderAll(rest + [piece]) == piece.Render();
    } else {
      RenderAllAppend(rest, piece);
      Regroup4(pieces[0].Render(), RenderAll(rest), piece.Render());
    }
  }

  lemma Regroup4(a: string, b: string, c: string)
    ensures a + " " + (b + " " + c) == a + " " + b + " " + c
  {
  }

  lemma IntendedAppend(words: seq<string>, word: string)
    ensures Intended(words + [word]) ==
            match Intended(words)
            case None => None
            case Some(tokens) => Prepend(tokens, if word == "" then None else Some([Word(word)]))
  {
    assert "" in words + [word] <==> "" in words || word == "";
    assert [Word("docker")] + WordTokens(words + [word]) == [Word("docker")] + WordTokens(words) + [Word(word)];
  }

  /** Pushing one more printed piece. */
  lemma PushPiece(args: seq<string>, words: seq<string>, ended: bool, piece: Piece)
    requires Prints(args, words, ended) && piece.Valid() && !piece.Operator?
    ensures Prints(args + [piece.Render()], if piece.Blank? then words else words + [piece.value], !piece.Blank?)
  {
    var pieces :| PrintsPieces(args, words, ended, pieces);
    JoinAppend(args, piece.Render());
    RenderAllAppend(pieces, piece);
    MeaningOfAppend(pieces, [piece]);
    assert [piece][1..] == [];
    assert MeaningOf([piece]) == piece.Meaning();
    if !piece.Blank? {
      IntendedAppend(words, piece.value);
    }
    var words' := if piece.Blank? then words else words + [piece.value];
    assert PrintsPieces(args + [piece.Render()], words', !piece.Blank?, pieces + [piece]);
  }

  lemma PushQuoted(args: seq<string>, words: seq<string>, ended: bool, value: string)
    requires Prints(args, words, ended)
    ensures Prints(args + [ShQuote(value)], words + [value], true)
  {
    PushPiece(args, words, ended, Quoted(value));
  }

  lemma PushPlain(args: seq<string>, words: seq<string>, ended: bool, value: string)
    requires Prints(args, words, ended) && IsPlainText(value) && value != ""
    ensures Prints(args + [value], words + [value], true)
  {
    PushPiece(args, words, ended, Plain(value));
  }

  /** One argument holding several words reads like several arguments. */
  lemma Merge(args: seq<string>, words: seq<string>, ended: bool, left: string, right: string)
    requires args != [] && Prints(args + [left, right], words, ended)
    ensures Prints(args + [left + " " + right], words, ended)
  {
    assert args + [left, right] == args + [left] + [right];
    JoinAppend(args, left);
    JoinAppend(args + [left], right);
    JoinAppend(args, left + " " + right);
    assert Join(args + [left, right]) == Join(args + [left + " " + right]);
    var pieces :| PrintsPieces(args + [left, right], words, ended, pieces);
    assert PrintsPieces(args + [left + " " + right], words, ended, pieces);
  }

  lemma MergeFirst(words: seq<string>, ended: bool, left: string, right: string)
    requires Prints([left, right], words, ended)
    ensures Prints([left + " " + right], words, ended)
  {
    var pieces :| PrintsPieces([left, right], words, ended, pieces);
    assert Join([left, right]) == Join([left + " " + right]);
    assert PrintsPieces([left + " " + right], words, ended, pieces);
  }

  lemma Start()
    ensures Prints(["docker"], [], true)
  {
    var pieces := [Plain("docker")];
    assert pieces[1..] == [];
    assert WordTokens([]) == [];
    assert PrintsPieces(["docker"], [], true, pieces);
  }

  /** "docker <verb>" as one literal argument. */
  lemma StartVerb(verb: string)
    requires IsPlainText(verb) && verb != ""
    ensures Prints(["docker " + verb], [verb], true)
  {
    Start();
    PushPlain(["docker"], [], true, verb);
    assert ["docker"] + [verb] == ["docker", verb] && [] + [verb] == [verb];
    MergeFirst([verb], true, "docker", verb);
    assert "docker" + " " + verb == "docker " + verb;
  }

  lemma StartTwoWords(verb: string, second: string)
    requires IsPlainText(verb) && verb != "" && IsPlainText(second) && second != ""
    ensures Prints(["docker " + verb + " " + second], [verb, second], true)
  {
    StartVerb(verb);
    PushPlain(["docker " + verb], [verb], true, second);
    assert ["docker " + verb] + [second] == ["docker " + verb, second] && [verb] + [second] == [verb, second];
    MergeFirst([verb, second], true, "docker " + verb, second);
  }

  lemma CanonicalOfWords(words: seq<string>)
    ensures Canonical(Parsed(words, None, None, None)) == [Word("docker")] + WordTokens(words)
  {
  }

  /** What the agent makes of a finished argument list. */
  lemma PrintedIsPermitted(args: seq<string>, words: seq<string>)
    requires Prints(args, words, true) && words != []
    ensures Tight(Join(args))
    ensures Permitted(Join(args)) == Reading(words)
  {
    var pieces :| PrintsPieces(args, words, true, pieces);
    RenderAllIsTight(pieces);
    PermittedPieces(pieces);
    assert Tokens(Trim(Join(args))) == Intended(words);
    if "" !in words {
      var p := Parsed(words, None, None, None);
      CanonicalOfWords(words);
      assert WellFormed(p);
      PermittedExactly(Join(args), p);
    }
  }

  /** Prints as a value, so that the builders below reason with these laws and not with its definition. */
  type Printer = (seq<string>, seq<string>, bool) -> bool

  ghost predicate IsPrinter(P: Printer) {
    forall args, words, ended {:trigger Prints(args, words, ended)} :: P(args, words, ended) == Prints(args, words, ended)
  }

  lemma SomePrinter() returns (P: Printer)
    ensures IsPrinter(P)
  {
    P := (args, words, ended) => Prints(args, words, ended);
  }

  lemma AddQuoted(P: Printer, args: seq<string>, words: seq<string>, ended: bool, value: string)
    requires IsPrinter(P) && P(args, words, ended)
    ensures P(args + [ShQuote(value)], words + [value], true)
  {
    assert Prints(args, words, ended);
    PushQuoted(args, words, ended, value);
  }

  lemma AddPlain(P: Printer, args: seq<string>, words: seq<string>, value: string)
    requires IsPrinter(P) && P(args, words, true) && IsPlainText(value) && value != ""
    ensures P(args + [value], words + [value], true)
  {
    assert Prints(args, words, true);
    PushPlain(args, words, true, value);
  }

  lemma AddBlank(P: Printer, args: seq<string>, words: seq<string>)
    requires IsPrinter(P) && P(args, words, true)
    ensures P(args + [""], words, false)
  {
    assert Prints(args, words, true);
    PushPiece(args, words, true, Blank);
  }

  lemma AddMerged(P: Printer, args: seq<string>, words: seq<string>, left: string, right: string)
    requires IsPrinter(P) && args != [] && P(args + [left, right], words, true)
    ensures P(args + [left + " " + right], words, true)
  {
    assert Prints(args + [left, right], words, true);
    Merge(args, words, true, left, right);
  }

  lemma Verb(P: Printer, verb: string)
    requires IsPrinter(P) && IsPlainText(verb) && verb != ""
    ensures P(["docker " + verb], [verb], true)
  {
    StartVerb(verb);
  }

  lemma TwoWordVerb(P: Printer, verb: string, second: string)
    requires IsPrinter(P) && IsPlainText(verb) && verb != "" && IsPlainText(second) && second != ""
    ensures P(["docker " + verb + " " + second], [verb, second], true)
  {
    StartTwoWords(verb, second);
  }

  lemma Done(P: Printer, args: seq<string>, words: seq<string>)
    requires IsPrinter(P) && P(args, words, true) && words != []
    ensures Tight(Join(args)) && Permitted(Join(args)) == Reading(words)
  {
    assert Prints(args, words, true);
    PrintedIsPermitted(args, words);
  }

  lemma NonEmptyArgs(P: Printer, args: seq<string>, words: seq<string>, ended: bool)
    requires IsPrinter(P) && P(args, words, ended)
    ensures args != []
  {
    assert Prints(args, words, ended);
  }

  lemma FlaggedAppend<T>(flag: string, items: seq<T>, text: T -> string, last: T)
    ensures Flagged(flag, items + [last], text) == Flagged(flag, items, text) + [flag, text(last)]
  {
    if items == [] {
      assert [last][1..] == [];
    } else {
      assert (items + [last])[1..] == items[1..] + [last];
      FlaggedAppend(flag, items[1..], text, last);
    }
  }

  /** Push "--flag" and a quoted value as two arguments. */
  method PushFlag(ghost P: Printer, args: seq<string>, flag: string, value: string, ghost words: seq<string>) returns (r: seq<string>)
    requires IsPrinter(P) && P(args, words, true) && IsPlainText(flag) && flag != ""
    ensures r == args + [flag, ShQuote(value)]
    ensures P(r, words + [flag, value], true)
  {
    AddPlain(P, args, words, flag);
    AddQuoted(P, args + [flag], words + [flag], true, value);
    assert args + [flag] + [ShQuote(value)] == args + [flag, ShQuote(value)];
    assert words + [flag] + [value] == words + [flag, value];
    r := args + [flag, ShQuote(value)];
  }

  /** Push one flag and value for every item. */
  method PushFlags<T>(ghost P: Printer, args: seq<string>, flag: string, items: seq<T>, text: T -> string, ghost words: seq<string>)
    returns (r: seq<string>)
    requires IsPrinter(P) && P(args, words, true) && IsPlainText(flag) && flag != ""
    ensures P(r, words + Flagged(flag, items, text), true)
  {
    r := args;
    var i := 0;
    assert words + Flagged(flag, items[..0], text) == words;
    while i < |items|
      invariant 0 <= i <= |items|
      invariant P(r, words + Flagged(flag, items[..i], text), true)
    {
      FlaggedAppend(flag, items[..i], text, items[i]);
      assert items[..i + 1] == items[..i] + [items[i]];
      ghost var done := words + Flagged(flag, items[..i], text);
      r := PushFlag(P, r, flag, text(items[i]), done);
      assert done + [flag, text(items[i])] == words + Flagged(flag, items[..i + 1], text);
      i := i + 1;
    }
    assert items[..i] == items;
  }

  /** Each label is one argument "--label 'key=value'". */
  method PushLabels(ghost P: Printer, args: seq<string>, labels: seq<Label>, ghost words: seq<string>) returns (r: seq<string>)
    requires IsPrinter(P) && P(args, words, true)
    ensures P(r, words + Flagged("--label", labels, LabelText), true)
  {
    r := args;
    NonEmptyArgs(P, args, words, true);
    var i := 0;
    assert words + Flagged("--label", labels[..0], LabelText) == words;
    while i < |labels|
      invariant 0 <= i <= |labels| && r != []
      invariant P(r, words + Flagged("--label", labels[..i], LabelText), true)
    {
      FlaggedAppend("--label", labels[..i], LabelText, labels[i]);
      assert labels[..i + 1] == labels[..i] + [labels[i]];
      ghost var done := words + Flagged("--label", labels[..i], LabelText);
      var text := LabelText(labels[i]);
      var pushed := PushFlag(P, r, "--label", text, done);
      AddMerged(P, r, done + ["--label", text], "--label", ShQuote(text));
      assert done + ["--label", text] == words + Flagged("--label", labels[..i + 1], LabelText);
      r := r + ["--label" + " " + ShQuote(text)];
      i := i + 1;
    }
    assert labels[..i] == labels;
  }

  method PushOptionalFlag(ghost P: Printer, args: seq<string>, condition: bool, flag: string, value: string, ghost words: seq<string>)
    returns (r: seq<string>)
    requires IsPrinter(P) && P(args, words, true) && IsPlainText(flag) && flag != ""
    ensures P(r, words + Optional(condition, [flag, value]), true)
  {
    r := args;
    if condition {
      r := PushFlag(P, args, flag, value, words);
    } else {
      assert words + [] == words;
    }
  }

  method PushOptional(ghost P: Printer, args: seq<string>, condition: bool, flag: string, ghost words: seq<string>) returns (r: seq<string>)
    requires IsPrinter(P) && P(args, words, true) && IsPlainText(flag) && flag != ""
    ensures P(r, words + Optional(condition, [flag]), true)
  {
    r := args;
    if condition {
      AddPlain(P, args, words, flag);
      r := args + [flag];
    } else {
      assert words + [] == words;
    }
  }

  /** The agent's reading of a command that is meant to run docker with these arguments. */
  function Reading(words: seq<string>): Option<Parsed> {
    if "" in words then None else Some(Parsed(words, None, None, None))
  }

  // The literal words of the commands need no quoting.

  lemma RunVerbArePlain()
    ensures IsPlainText("run") && IsPlainText("-d") && IsPlainText("--name")
  {
  }

  lemma RunFlagsArePlain()
    ensures IsPlainText("--restart") && IsPlainText("--network")
  {
  }

  lemma ItemFlagsArePlain()
    ensures IsPlainText("--env") && IsPlainText("--publish") && IsPlainText("--volume")
  {
  }

  lemma RemoveFlagsArePlain()
    ensures IsPlainText("rm") && IsPlainText("--force") && IsPlainText("--volumes")
  {
  }

  lemma NetworkFlagsArePlain()
    ensures IsPlainText("network") && IsPlainText("create") && IsPlainText("--driver")
  {
  }

  lemma AddressFlagsArePlain()
    ensures IsPlainText("--subnet") && IsPlainText("--gateway")
  {
  }

  lemma NetworkSwitchesArePlain()
    ensures IsPlainText("--attachable") && IsPlainText("--internal")
  {
  }

  lemma NounsArePlain()
    ensures IsPlainText("image") && IsPlainText("network") && IsPlainText("volume")
  {
  }

  lemma ComposeFlagsArePlain()
    ensures IsPlainText("compose") && IsPlainText("--env-file") && IsPlainText("-p") && IsPlainText("-f")
  {
  }

  lemma RemoveOrphansIsPlain()
    ensures IsPlainText("--remove-orphans")
  {
  }

  lemma ForceRecreateIsPlain()
    ensures IsPlainText("--force-recreate")
  {
  }

  // ------------------------------------------------------------------ the builders

  method PrintContainerRun(ghost P: Printer, a: Action) returns (args: seq<string>)
    requires IsPrinter(P) && a.ContainerRun?
    ensures P(args, RunWords(a), true)
  {
    ItemFlagsArePlain();
    args := PrintRunOptions(P, a);
    ghost var words := RunOptions(a);
    args := PushFlags(P, args, "--env", a.env, EnvText, words);
    words := words + Flagged("--env", a.env, EnvText);
    args := PushFlags(P, args, "--publish", a.ports, PortText, words);
    words := words + Flagged("--publish", a.ports, PortText);
    args := PushFlags(P, args, "--volume", a.volumes, MountText, words);
    words := words + Flagged("--volume", a.volumes, MountText);
    AddQuoted(P, args, words, true, a.image);
    args := PushShell(P, args + [ShQuote(a.image)], a.command, words + [a.image]);
  }

  method PrintRunOptions(ghost P: Printer, a: Action) returns (args: seq<string>)
    requires IsPrinter(P) && a.ContainerRun?
    ensures P(args, RunOptions(a), true)
  {
    RunVerbArePlain();
    RunFlagsArePlain();
    TwoWordVerb(P, "run", "-d");
    assert "docker " + "run" + " " + "-d" == "docker run -d";
    args := ["docker run -d"];
    ghost var words := ["run", "-d"];
    args := PushOptionalFlag(P, args, a.name != "", "--name", a.name, words);
    words := words + Optional(a.name != "", ["--name", a.name]);
    args := PushOptionalFlag(P, args, a.restartPolicy != "no", "--restart", a.restartPolicy, words);
    words := words + Optional(a.restartPolicy != "no", ["--restart", a.restartPolicy]);
    args := PushOptionalFlag(P, args, a.network != "", "--network", a.network, words);
  }

  method PushShell(ghost P: Printer, args: seq<string>, command: string, ghost words: seq<string>) returns (r: seq<string>)
    requires IsPrinter(P) && P(args, words, true)
    ensures P(r, words + Optional(command != "", ["sh", "-lc", command]), true)
  {
    r := args;
    if command != "" {
      AddPlain(P, r, words, "sh");
      r := r + ["sh"];
      r := PushFlag(P, r, "-lc", command, words + ["sh"]);
      assert words + ["sh"] + ["-lc", command] == words + ["sh", "-lc", command];
    } else {
      assert words + [] == words;
    }
  }

  /** "docker stop" and "docker restart": an absent timeout leaves two spaces in a row. */
  method PrintTimed(ghost P: Printer, verb: string, containerId: string, timeoutSeconds: nat) returns (args: seq<string>)
    requires IsPrinter(P) && IsPlainText(verb) && verb != ""
    ensures P(args, TimedWords(verb, containerId, timeoutSeconds), true)
  {
    var timeout := "";
    Verb(P, verb);
    ghost var words := [verb];
    if timeoutSeconds != 0 {
      timeout := "--time " + Decimal(timeoutSeconds);
      AddTimeout(P, ["docker " + verb], words, Decimal(timeoutSeconds));
      words := words + ["--time", Decimal(timeoutSeconds)];
    } else {
      AddBlank(P, ["docker " + verb], words);
    }
    AddQuoted(P, ["docker " + verb] + [timeout], words, timeoutSeconds != 0, containerId);
    args := ["docker " + verb] + [timeout] + [ShQuote(containerId)];
    assert [verb] + [] == [verb];
  }

  lemma AddTimeout(P: Printer, args: seq<string>, words: seq<string>, text: string)
    requires IsPrinter(P) && P(args, words, true) && IsPlainText(text) && text != ""
    ensures P(args + ["--time " + text], words + ["--time", text], true)
  {
    NonEmptyArgs(P, args, words, true);
    AddPlain(P, args, words, "--time");
    AddPlain(P, args + ["--time"], words + ["--time"], text);
    assert args + ["--time"] + [text] == args + ["--time", text];
    assert words + ["--time"] + [text] == words + ["--time", text];
    AddMerged(P, args, words + ["--time", text], "--time", text);
    assert "--time" + " " + text == "--time " + text;
  }

  /** A fixed one-word verb followed by quoted values. */
  method PrintSimple(ghost P: Printer, verb: string, values: seq<string>) returns (args: seq<string>)
    requires IsPrinter(P) && IsPlainText(verb) && verb != "" && 1 <= |values| <= 2
    ensures P(args, [verb] + values, true)
  {
    Verb(P, verb);
    AddQuoted(P, ["docker " + verb], [verb], true, values[0]);
    args := ["docker " + verb] + [ShQuote(values[0])];
    if |values| == 2 {
      AddQuoted(P, args, [verb] + [values[0]], true, values[1]);
      args := args + [ShQuote(values[1])];
      assert [verb] + [values[0]] + [values[1]] == [verb] + values;
    } else {
      assert [values[0]] == values;
    }
  }

  /** "docker image rm", "docker network rm" and "docker volume rm". */
  method PrintRemove(ghost P: Printer, noun: string, force: bool, value: string) returns (args: seq<string>)
    requires IsPrinter(P) && IsPlainText(noun) && noun != ""
    ensures P(args, [noun, "rm"] + Optional(force, ["--force"]) + [value], true)
  {
    TwoWordVerb(P, noun, "rm");
    assert "docker " + noun + " " + "rm" == "docker " + noun + " rm";
    args := PushOptional(P, ["docker " + noun + " rm"], force, "--force", [noun, "rm"]);
    AddQuoted(P, args, [noun, "rm"] + Optional(force, ["--force"]), true, value);
    args := args + [ShQuote(value)];
  }

  /** "docker image prune", "docker network prune" and "docker volume prune". */
  method PrintPrune(ghost P: Printer, noun: string, all: bool) returns (args: seq<string>)
    requires IsPrinter(P) && IsPlainText(noun) && noun != ""
    ensures P(args, [noun, "prune", "--force"] + Optional(all, ["--all"]), true)
  {
    TwoWordVerb(P, noun, "prune");
    assert "docker " + noun + " " + "prune" == "docker " + noun + " prune";
    AddPlain(P, ["docker " + noun + " prune"], [noun, "prune"], "--force");
    assert [noun, "prune"] + ["--force"] == [noun, "prune", "--force"];
    args := PushOptional(P, ["docker " + noun + " prune"] + ["--force"], all, "--all", [noun, "prune", "--force"]);
  }

  method PrintContainerRemove(ghost P: Printer, containerId: string, force: bool, removeVolumes: bool)
    returns (args: seq<string>)
    requires IsPrinter(P)
    ensures P(args, ["rm"] + Optional(force, ["--force"]) + Optional(removeVolumes, ["--volumes"]) + [containerId], true)
  {
    RemoveFlagsArePlain();
    Verb(P, "rm");
    assert "docker " + "rm" == "docker rm";
    args := PushOptional(P, ["docker rm"], force, "--force", ["rm"]);
    ghost var words := ["rm"] + Optional(force, ["--force"]);
    args := PushOptional(P, args, removeVolumes, "--volumes", words);
    AddQuoted(P, args, words + Optional(removeVolumes, ["--volumes"]), true, containerId);
    args := args + [ShQuote(containerId)];
  }

  method PrintNetworkCreate(ghost P: Printer, a: Action) returns (args: seq<string>)
    requires IsPrinter(P) && a.NetworkCreate?
    ensures P(args, NetworkWords(a), true)
  {
    NetworkSwitchesArePlain();
    args := PrintNetworkOptions(P, a);
    ghost var words := NetworkOptions(a);
    args := PushOptional(P, args, a.attachable, "--attachable", words);
    words := words + Optional(a.attachable, ["--attachable"]);
    args := PushOptional(P, args, a.internal, "--internal", words);
    words := words + Optional(a.internal, ["--internal"]);
    args := PushLabels(P, args, a.labels, words);
    words := words + Flagged("--label", a.labels, LabelText);
    AddQuoted(P, args, words, true, a.networkName);
    args := args + [ShQuote(a.networkName)];
  }

  lemma NetworkCreateVerb(P: Printer)
    requires IsPrinter(P)
    ensures P(["docker network create"], ["network", "create"], true)
  {
    NetworkFlagsArePlain();
    TwoWordVerb(P, "network", "create");
    assert "docker " + "network" + " " + "create" == "docker network create";
  }

  method PrintNetworkOptions(ghost P: Printer, a: Action) returns (args: seq<string>)
    requires IsPrinter(P) && a.NetworkCreate?
    ensures P(args, NetworkOptions(a), true)
  {
    NetworkFlagsArePlain();
    AddressFlagsArePlain();
    NetworkCreateVerb(P);
    args := PushFlag(P, ["docker network create"], "--driver", a.driver, ["network", "create"]);
    ghost var words := ["network", "create"] + ["--driver", a.driver];
    args := PushOptionalFlag(P, args, a.subnet != "", "--subnet", a.subnet, words);
    words := words + Optional(a.subnet != "", ["--subnet", a.subnet]);
    args := PushOptionalFlag(P, args, a.gateway != "", "--gateway", a.gateway, words);
  }

  method PrintVolumeCreate(ghost P: Printer, volumeName: string, labels: seq<Label>) returns (args: seq<string>)
    requires IsPrinter(P)
    ensures P(args, ["volume", "create"] + Flagged("--label", labels, LabelText) + [volumeName], true)
  {
    TwoWordVerb(P, "volume", "create");
    assert "docker " + "volume" + " " + "create" == "docker volume create";
    args := PushLabels(P, ["docker volume create"], labels, ["volume", "create"]);
    AddQuoted(P, args, ["volume", "create"] + Flagged("--label", labels, LabelText), true, volumeName);
    args := args + [ShQuote(volumeName)];
  }

  /** The arguments of the container actions. */
  method PrintContainerAction(ghost P: Printer, a: Action) returns (args: seq<string>)
    requires IsPrinter(P)
    requires a.ContainerRun? || a.ContainerStart? || a.ContainerStop? || a.ContainerRestart? || a.ContainerRename? || a.ContainerRemove?
    ensures P(args, Argv(a), true)
  {
    match a {
      case ContainerRun(_, _, _, _, _, _, _, _) => args := PrintContainerRun(P, a);
      case ContainerStart(id) => args := PrintSimple(P, "start", [id]);
      case ContainerStop(id, t) => args := PrintTimed(P, "stop", id, t);
      case ContainerRestart(id, t) => args := PrintTimed(P, "restart", id, t);
      case ContainerRename(id, name) => args := PrintSimple(P, "rename", [id, name]);
      case ContainerRemove(id, force, removeVolumes) => args := PrintContainerRemove(P, id, force, removeVolumes);
    }
  }

  /** The arguments of the other actions. */
  method PrintResourceAction(ghost P: Printer, a: Action) returns (args: seq<string>)
    requires IsPrinter(P) && Mapped(a)
    requires !(a.ContainerRun? || a.ContainerStart? || a.ContainerStop? || a.ContainerRestart? || a.ContainerRename? || a.ContainerRemove?)
    ensures P(args, Argv(a), true)
  {
    NounsArePlain();
    match a {
      case ImagePull(image) => args := PrintSimple(P, "pull", [image]);
      case ImageRemove(id, force) => args := PrintRemove(P, "image", force, id);
      case ImagePrune(all) => args := PrintPrune(P, "image", all);
      case NetworkCreate(_, _, _, _, _, _, _) => args := PrintNetworkCreate(P, a);
      case NetworkRemove(id) => args := PrintRemove(P, "network", false, id);
      case NetworkPrune => args := PrintPrune(P, "network", false);
      case VolumeCreate(name, labels) => args := PrintVolumeCreate(P, name, labels);
      case VolumeRemove(name, force) => args := PrintRemove(P, "volume", force, name);
      case VolumePrune => args := PrintPrune(P, "volume", false);
    }
  }

  /**
    Every action that maps to a single command is printed as text the agent executes with exactly
    the intended argument vector, whatever characters its values hold; the agent refuses the text
    exactly when some value is the empty string.
   */
  method BuildDockerActionCommand(a: Action) returns (r: Option<string>)
    ensures r.Some? <==> Mapped(a)
    ensures r.Some? ==> Permitted(r.value) == Reading(Argv(a))
  {
    if a.Unmapped? || (a.NetworkCreate? && (a.driver == "host" || a.driver == "none")) {
      return None;
    }
    ghost var P := SomePrinter();
    var args;
    if a.ContainerRun? || a.ContainerStart? || a.ContainerStop? || a.ContainerRestart? || a.ContainerRename? || a.ContainerRemove? {
      args := PrintContainerAction(P, a);
    } else {
      args := PrintResourceAction(P, a);
    }
    var command := Join(args);
    ArgvIsNotEmpty(a);
    Done(P, args, Argv(a));
    if a.ContainerStop? || a.ContainerRestart? {
      TrimKeepsTight(command);
      command := Trim(command);
    }
    return Some(command);
  }

  lemma ArgvIsNotEmpty(a: Action)
    requires Mapped(a)
    ensures Argv(a) != []
  {
  }

  // ------------------------------------------------------------------ compose

  datatype ComposeAction = Up | Stop | Down | Pull

  function WithWord(text: string, word: string): string {
    text + " " + word
  }

  /** A flag and its quoted value at the end of a command text. */
  function WithFlag(text: string, flag: string, value: string): string {
    WithWord(WithWord(text, flag), ShQuote(value))
  }

  /** The command text up to its verb. */
  function ComposeBase(projectName: string, path: string, environmentFile: Option<string>): string {
    var base := if environmentFile.Some? then WithFlag("docker compose", "--env-file", environmentFile.value) else "docker compose";
    WithFlag(WithFlag(base, "-p", projectName), "-f", path)
  }

  /** The command text, with the environment file given as a path. */
  function BuildComposeCommand(
    projectName: string, path: string, action: ComposeAction, removeVolumes: bool,
    environmentFile: Option<string>, buildBeforeUp: bool): string
  {
    var base := ComposeBase(projectName, path, environmentFile);
    match action
    case Pull => WithWord(base, "pull")
    case Up =>
      var up := WithWord(WithWord(base, "up"), "-d");
      var built := if buildBeforeUp then WithWord(up, "--build") else up;
      WithWord(WithWord(built, "--remove-orphans"), "--force-recreate")
    case Stop => WithWord(base, "stop")
    case Down =>
      var down := WithWord(WithWord(base, "down"), "--remove-orphans");
      if removeVolumes then WithWord(down, "--volumes") else down
  }

  function ComposeOptions(projectName: string, path: string, environmentFile: Option<string>): seq<string> {
    var words := if environmentFile.Some? then ["compose"] + ["--env-file"] + [environmentFile.value] else ["compose"];
    words + ["-p"] + [projectName] + ["-f"] + [path]
  }

  /** The docker arguments a compose command is meant to run with. */
  function ComposeArgv(
    projectName: string, path: string, action: ComposeAction, removeVolumes: bool,
    environmentFile: Option<string>, buildBeforeUp: bool): seq<string>
  {
    var words := ComposeOptions(projectName, path, environmentFile);
    match action
    case Pull => words + ["pull"]
    case Up => words + ["up"] + ["-d"] + Optional(buildBeforeUp, ["--build"]) + ["--remove-orphans"] + ["--force-recreate"]
    case Stop => words + ["stop"]
    case Down => words + ["down"] + ["--remove-orphans"] + Optional(removeVolumes, ["--volumes"])
  }

  lemma AddWord(P: Printer, args: seq<string>, words: seq<string>, word: string) returns (r: seq<string>)
    requires IsPrinter(P) && P(args, words, true) && IsPlainText(word) && word != ""
    ensures P(r, words + [word], true) && Join(r) == WithWord(Join(args), word)
  {
    NonEmptyArgs(P, args, words, true);
    AddPlain(P, args, words, word);
    JoinAppend(args, word);
    r := args + [word];
  }

  lemma AddOptionalWord(P: Printer, args: seq<string>, words: seq<string>, condition: bool, word: string) returns (r: seq<string>)
    requires IsPrinter(P) && P(args, words, true) && IsPlainText(word) && word != ""
    ensures P(r, words + Optional(condition, [word]), true)
    ensures Join(r) == if condition then WithWord(Join(args), word) else Join(args)
  {
    if condition {
      r := AddWord(P, args, words, word);
    } else {
      assert words + [] == words;
      r := args;
    }
  }

  lemma AddFlag(P: Printer, args: seq<string>, words: seq<string>, flag: string, value: string) returns (r: seq<string>)
    requires IsPrinter(P) && P(args, words, true) && IsPlainText(flag) && flag != ""
    ensures P(r, words + [flag] + [value], true) && Join(r) == WithFlag(Join(args), flag, value)
  {
    r := AddWord(P, args, words, flag);
    NonEmptyArgs(P, r, words + [flag], true);
    AddQuoted(P, r, words + [flag], true, value);
    JoinAppend(r, ShQuote(value));
    r := r + [ShQuote(value)];
  }

  lemma PrintedBase(P: Printer, projectName: string, path: string, environmentFile: Option<string>) returns (args: seq<string>)
    requires IsPrinter(P)
    ensures P(args, ComposeOptions(projectName, path, environmentFile), true)
    ensures Join(args) == ComposeBase(projectName, path, environmentFile)
  {
    ComposeFlagsArePlain();
    Verb(P, "compose");
    assert "docker " + "compose" == "docker compose";
    args := ["docker compose"];
    var words := ["compose"];
    if environmentFile.Some? {
      args := AddFlag(P, args, words, "--env-file", environmentFile.value);
      words := words + ["--env-file"] + [environmentFile.value];
    }
    args := AddFlag(P, args, words, "-p", projectName);
    args := AddFlag(P, args, words + ["-p"] + [projectName], "-f", path);
  }

  lemma PrintedUp(P: Printer, base: seq<string>, words: seq<string>, buildBeforeUp: bool) returns (args: seq<string>)
    requires IsPrinter(P) && P(base, words, true)
    ensures P(args, words + ["up"] + ["-d"] + Optional(buildBeforeUp, ["--build"]) + ["--remove-orphans"] + ["--force-recreate"], true)
    ensures Join(args) ==
            var up := WithWord(WithWord(Join(base), "up"), "-d");
            var built := if buildBeforeUp then WithWord(up, "--build") else up;
            WithWord(WithWord(built, "--remove-orphans"), "--force-recreate")
  {
    RemoveOrphansIsPlain();
    ForceRecreateIsPlain();
    args := AddWord(P, base, words, "up");
    args := AddWord(P, args, words + ["up"], "-d");
    var up := words + ["up"] + ["-d"];
    args := AddOptionalWord(P, args, up, buildBeforeUp, "--build");
    var built := up + Optional(buildBeforeUp, ["--build"]);
    args := AddWord(P, args, built, "--remove-orphans");
    args := AddWord(P, args, built + ["--remove-orphans"], "--force-recreate");
  }

  lemma PrintedDown(P: Printer, base: seq<string>, words: seq<string>, removeVolumes: bool) returns (args: seq<string>)
    requires IsPrinter(P) && P(base, words, true)
    ensures P(args, words + ["down"] + ["--remove-orphans"] + Optional(removeVolumes, ["--volumes"]), true)
    ensures Join(args) ==
            var down := WithWord(WithWord(Join(base), "down"), "--remove-orphans");
            if removeVolumes then WithWord(down, "--volumes") else down
  {
    RemoveOrphansIsPlain();
    args := AddWord(P, base, words, "down");
    args := AddWord(P, args, words + ["down"], "--remove-orphans");
    args := AddOptionalWord(P, args, words + ["down"] + ["--remove-orphans"], removeVolumes, "--volumes");
  }

  lemma PrintedCommand(
    P: Printer, projectName: string, path: string, action: ComposeAction, removeVolumes: bool,
    environmentFile: Option<string>, buildBeforeUp: bool) returns (args: seq<string>)
    requires IsPrinter(P)
    ensures P(args, ComposeArgv(projectName, path, action, removeVolumes, environmentFile, buildBeforeUp), true)
    ensures Join(args) == BuildComposeCommand(projectName, path, action, removeVolumes, environmentFile, buildBeforeUp)
  {
    args := PrintedBase(P, projectName, path, environmentFile);
    var words := ComposeOptions(projectName, path, environmentFile);
    match action
    case Up => args := PrintedUp(P, args, words, buildBeforeUp);
    case Down => args := PrintedDown(P, args, words, removeVolumes);
    case Pull => args := AddWord(P, args, words, "pull");
    case Stop => args := AddWord(P, args, words, "stop");
  }

  /** Every compose command with a file path reads back as the intended argument vector. */
  lemma ComposeCommandIsPermitted(
    projectName: string, path: string, action: ComposeAction, removeVolumes: bool,
    environmentFile: Option<string>, buildBeforeUp: bool)
    ensures Permitted(BuildComposeCommand(projectName, path, action, removeVolumes, environmentFile, buildBeforeUp))
         == Reading(ComposeArgv(projectName, path, action, removeVolumes, environmentFile, buildBeforeUp))
  {
    var P := SomePrinter();
    var args := PrintedCommand(P, projectName, path, action, removeVolumes, environmentFile, buildBeforeUp);
    var words := ComposeArgv(projectName, path, action, removeVolumes, environmentFile, buildBeforeUp);
    assert words != [];
    Done(P, args, words);
  }
}
