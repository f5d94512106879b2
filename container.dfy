/**
 * The Dockerfile and Compose generators of the Docker dialog.
 *
 * The Dockerfile is eight commented instruction blocks, each followed by a
 * blank line. Two of them are computed: the build commands, typed one per
 * line in a text area, are fused into a single `RUN` instruction, and the
 * start command is split on single spaces into the exec form of `CMD`. The
 * Compose file is a fixed service description around the port and the
 * environment entry, followed by a commented-out scaffold.
 */
module Container {
  import opened Text

  datatype DockerConfig = DockerConfig(
    baseImage: string,
    workdir: string,
    port: string,
    commands: string,
    startCommand: string,
    copyFiles: string,
    env: string)

  /** The dialog's initial state. */
  function DefaultConfig(): DockerConfig
  {
    DockerConfig("node:18-alpine", "/app", "3000", "npm install\nnpm run build", "npm start", ". .",
                 "NODE_ENV=production")
  }

  /**
   * Every field but the build commands is a single-line `<input>`; the build
   * commands come from a text area and may hold any number of line breaks.
   */
  predicate SingleLineFields(c: DockerConfig)
  {
    && '\n' !in c.baseImage && '\n' !in c.workdir && '\n' !in c.port
    && '\n' !in c.startCommand && '\n' !in c.copyFiles && '\n' !in c.env
  }

  // ---------------------------------------------------------------------------
  // RUN: the build commands fused into one instruction

  const Continuation := " && \\"
  const Indent := "    "

  /** What joins two build commands: `' && \\\n    '` in the template. */
  const RunSeparator := Continuation + "\n" + Indent

  /** The template's RUN instruction: `commands.split('\n').join(' && \\\n    ')`. */
  function RunInstruction(commands: string): string
  {
    "RUN " + JoinWith(SplitOn(commands, '\n'), RunSeparator)
  }

  /**
   * The fused commands as lines: the first after `head`, every later one
   * indented, and every one but the last continued with ` && \`.
   */
  function Fused(head: string, cmds: seq<string>): (r: seq<string>)
    requires |cmds| >= 1
    ensures |r| == |cmds|
    decreases |cmds|
  {
    if |cmds| == 1 then [head + cmds[0]]
    else [head + cmds[0] + Continuation] + Fused(Indent, cmds[1..])
  }

  function RunLines(commands: string): seq<string>
  {
    Fused("RUN ", SplitOn(commands, '\n'))
  }

  /** Line `i` of the fused commands is command `i`, introduced and continued by position. */
  lemma {:induction false} FusedAt(head: string, cmds: seq<string>)
    requires |cmds| >= 1
    ensures forall i :: 0 <= i < |cmds| ==>
      Fused(head, cmds)[i] == (if i == 0 then head else Indent) + cmds[i]
                              + (if i + 1 < |cmds| then Continuation else "")
    decreases |cmds|
  {
    if |cmds| > 1 {
      FusedAt(Indent, cmds[1..]);
      var r := Fused(head, cmds);
      forall i | 1 <= i < |cmds|
        ensures r[i] == Indent + cmds[i] + (if i + 1 < |cmds| then Continuation else "")
      {
        assert r[i] == Fused(Indent, cmds[1..])[i - 1];
        assert cmds[1..][i - 1] == cmds[i];
      }
    }
  }

  /** The fused lines render as the commands joined by the RUN separator. */
  lemma {:induction false} FusedRendering(head: string, cmds: seq<string>)
    requires |cmds| >= 1
    ensures Unlines(Fused(head, cmds)) == head + JoinWith(cmds, RunSeparator)
    decreases |cmds|
  {
    if |cmds| > 1 {
      var rest := Fused(Indent, cmds[1..]);
      FusedRendering(Indent, cmds[1..]);
      var first := head + cmds[0] + Continuation;
      UnlinesAppend([first], rest);
      assert Unlines([first]) == first;
      assert JoinWith(cmds, RunSeparator) == cmds[0] + RunSeparator + JoinWith(cmds[1..], RunSeparator);
    }
  }

  lemma {:induction false} FusedSingleLines(head: string, cmds: seq<string>)
    requires |cmds| >= 1 && '\n' !in head && '\n' !in Indent
    requires forall i :: 0 <= i < |cmds| ==> '\n' !in cmds[i]
    ensures SingleLines(Fused(head, cmds))
    decreases |cmds|
  {
    assert '\n' !in Continuation;
    if |cmds| > 1 {
      FusedSingleLines(Indent, cmds[1..]);
      SingleLinesAppend([head + cmds[0] + Continuation], Fused(Indent, cmds[1..]));
    }
  }

  /** `s` with `c` replaced by `t` holds `c` once per `c` of `s` and per `c` of `t`. */
  lemma {:induction false} CountCharReplace(s: string, c: char, t: string)
    ensures CountChar(ReplaceChar(s, c, t), c) == CountChar(s, c) * CountChar(t, c)
    decreases |s|
  {
    if |s| > 0 {
      CountCharReplace(s[1..], c, t);
      CountCharAppend(if s[0] == c then t else [s[0]], ReplaceChar(s[1..], c, t), c);
    }
  }

  lemma SeparatorBreaksOnce()
    ensures CountChar(RunSeparator, '\n') == 1
  {
    CountCharOut(Continuation, '\n');
    CountCharOut(Indent, '\n');
    CountCharAppend(Continuation, "\n", '\n');
    CountCharAppend(Continuation + "\n", Indent, '\n');
  }

  /**
   * The RUN instruction's lines render as the template's expression, which
   * replaces every line break of the text area by the separator: `k`
   * commands are fused with exactly `k - 1` line breaks.
   */
  lemma RunRendering(commands: string)
    ensures Unlines(RunLines(commands)) == RunInstruction(commands)
    ensures RunInstruction(commands) == "RUN " + ReplaceChar(commands, '\n', RunSeparator)
    ensures CountChar(RunInstruction(commands), '\n') == |SplitOn(commands, '\n')| - 1
  {
    FusedRendering("RUN ", SplitOn(commands, '\n'));
    JoinSplitIsReplace(commands, '\n', RunSeparator);
    CountCharReplace(commands, '\n', RunSeparator);
    SeparatorBreaksOnce();
    CountCharOut("RUN ", '\n');
    CountCharAppend("RUN ", ReplaceChar(commands, '\n', RunSeparator), '\n');
  }

  /**
   * The RUN instruction is one line per build command: line `i` carries
   * command `i`, and all but the last end with the ` && \` continuation.
   */
  lemma RunLinesShape(commands: string)
    ensures |RunLines(commands)| == CountChar(commands, '\n') + 1
    ensures forall i :: 0 <= i < |RunLines(commands)| ==>
      RunLines(commands)[i] == (if i == 0 then "RUN " else Indent) + SplitOn(commands, '\n')[i]
                               + (if i + 1 < |RunLines(commands)| then Continuation else "")
  {
    FusedAt("RUN ", SplitOn(commands, '\n'));
  }

  /** Whatever the text area holds, the RUN lines are single lines. */
  lemma RunSingleLines(commands: string)
    ensures SingleLines(RunLines(commands))
    ensures Lines(RunInstruction(commands)) == RunLines(commands)
  {
    FusedSingleLines("RUN ", SplitOn(commands, '\n'));
    RunRendering(commands);
    LinesOfUnlines(RunLines(commands));
  }

  /** A single build command is run as typed, with no separator. */
  lemma SingleCommand(command: string)
    requires '\n' !in command
    ensures RunLines(command) == ["RUN " + command]
    ensures RunInstruction(command) == "RUN " + command
  {
    SplitWithoutSeparator(command, '\n');
  }

  // ---------------------------------------------------------------------------
  // CMD: the start command in exec form

  /** What joins two arguments: `'", "'` in the template. */
  const ArgSeparator := "\", \""

  /** The template's CMD instruction: `["` + `startCommand.split(' ').join('", "')` + `"]`. */
  function CmdInstruction(start: string): string
  {
    "CMD [\"" + JoinWith(SplitOn(start, ' '), ArgSeparator) + "\"]"
  }

  function Quote(t: string): string
  {
    "\"" + t + "\""
  }

  function QuoteAll(ts: seq<string>): seq<string>
  {
    seq(|ts|, i requires 0 <= i < |ts| => Quote(ts[i]))
  }

  /** Joining with `", "` between outer quotes quotes every argument. */
  lemma {:induction false} QuotedJoin(ts: seq<string>)
    requires |ts| >= 1
    ensures "\"" + JoinWith(ts, ArgSeparator) + "\"" == JoinWith(QuoteAll(ts), ", ")
    decreases |ts|
  {
    if |ts| > 1 {
      QuotedJoin(ts[1..]);
      assert QuoteAll(ts)[1..] == QuoteAll(ts[1..]);
      assert JoinWith(QuoteAll(ts), ", ") == Quote(ts[0]) + ", " + JoinWith(QuoteAll(ts[1..]), ", ");
      assert JoinWith(ts, ArgSeparator) == ts[0] + ArgSeparator + JoinWith(ts[1..], ArgSeparator);
    }
  }

  /**
   * CMD is the exec form of the start command's single-space tokens: one
   * quoted argument per token, one more token than there are spaces, no
   * token holding a space, and the tokens joined by single spaces give the
   * start command back. Quotes inside a token are not escaped.
   */
  lemma CmdExecForm(start: string)
    ensures CmdInstruction(start) == "CMD [" + JoinWith(QuoteAll(SplitOn(start, ' ')), ", ") + "]"
    ensures |SplitOn(start, ' ')| == CountChar(start, ' ') + 1
    ensures forall i :: 0 <= i < |SplitOn(start, ' ')| ==> ' ' !in SplitOn(start, ' ')[i]
    ensures JoinWith(SplitOn(start, ' '), " ") == start
  {
    var ts := SplitOn(start, ' ');
    QuotedJoin(ts);
    Bracketed(JoinWith(ts, ArgSeparator));
    JoinSplit(start, ' ');
  }

  /** `CMD ["` + x + `"]` is `CMD [` + the quoted x + `]`. */
  lemma Bracketed(x: string)
    ensures "CMD [\"" + x + "\"]" == "CMD [" + ("\"" + x + "\"") + "]"
  {
    assert "CMD [\"" == "CMD [" + "\"";
    assert "\"]" == "\"" + "]";
  }

  lemma SplitPair(a: string, b: string, c: char)
    requires c !in a && c !in b
    ensures SplitOn(a + [c] + b, c) == [a, b]
  {
    SplitWithoutSeparator(a, c);
    SplitWithoutSeparator(b, c);
    SplitAtSeparator(a, b, c);
  }

  lemma JoinPair(a: string, b: string, sep: string)
    ensures JoinWith([a, b], sep) == a + sep + b
  {
    assert [a, b][1..] == [b];
  }

  lemma JoinTriple(a: string, b: string, d: string, sep: string)
    ensures JoinWith([a, b, d], sep) == a + sep + (b + sep + d)
  {
    assert [a, b, d][1..] == [b, d];
    JoinPair(b, d, sep);
  }

  /** Two words separated by one space give two quoted arguments. */
  lemma CmdTwoWords(a: string, b: string)
    requires ' ' !in a && ' ' !in b
    ensures SplitOn(a + " " + b, ' ') == [a, b]
    ensures CmdInstruction(a + " " + b) == "CMD [" + Quote(a) + ", " + Quote(b) + "]"
  {
    assert a + " " + b == a + [' '] + b;
    SplitPair(a, b, ' ');
    CmdExecForm(a + " " + b);
    assert QuoteAll([a, b]) == [Quote(a), Quote(b)];
    JoinPair(Quote(a), Quote(b), ", ");
  }

  /**
   * Two spaces in a row give an empty argument between the words: the split
   * is on one space, not on runs of spaces.
   */
  lemma SplitDoubleSpace(a: string, b: string)
    requires ' ' !in a && ' ' !in b
    ensures SplitOn(a + "  " + b, ' ') == [a, "", b]
  {
    SplitPair("", b, ' ');
    assert "" + [' '] + b == " " + b;
    SplitWithoutSeparator(a, ' ');
    SplitAtSeparator(a, " " + b, ' ');
    assert a + "  " + b == a + [' '] + (" " + b);
  }

  lemma CmdDoubleSpace(a: string, b: string)
    requires ' ' !in a && ' ' !in b
    ensures SplitOn(a + "  " + b, ' ') == [a, "", b]
    ensures CmdInstruction(a + "  " + b) == "CMD [" + Quote(a) + ", " + Quote("") + ", " + Quote(b) + "]"
  {
    SplitDoubleSpace(a, b);
    CmdExecForm(a + "  " + b);
    assert QuoteAll([a, "", b]) == [Quote(a), Quote(""), Quote(b)];
    JoinTriple(Quote(a), Quote(""), Quote(b), ", ");
  }

  // ---------------------------------------------------------------------------
  // Commented instruction blocks

  /** A `# <comment>` line, the instruction lines, and a blank line. */
  datatype Block = Block(comment: string, body: seq<string>)

  function BlockLines(bs: seq<Block>): seq<string>
    decreases |bs|
  {
    if |bs| == 0 then []
    else ["# " + bs[0].comment] + bs[0].body + [""] + BlockLines(bs[1..])
  }

  lemma BlockLinesOne(b: Block)
    ensures BlockLines([b]) == ["# " + b.comment] + b.body + [""]
  {
    assert [b][1..] == [];
  }

  lemma {:induction false} BlockLinesAppend(a: seq<Block>, b: seq<Block>)
    ensures BlockLines(a + b) == BlockLines(a) + BlockLines(b)
    decreases |a|
  {
    if |a| == 0 {
      assert a + b == b;
    } else {
      assert (a + b)[0] == a[0] && (a + b)[1..] == a[1..] + b;
      BlockLinesAppend(a[1..], b);
    }
  }

  /** A line that starts an instruction: it begins with a capital letter. */
  predicate IsInstructionLine(l: string)
  {
    |l| > 0 && 'A' <= l[0] <= 'Z'
  }

  /** The text before the first space. */
  function FirstWord(l: string): string
    decreases |l|
  {
    if |l| == 0 || l[0] == ' ' then "" else [l[0]] + FirstWord(l[1..])
  }

  lemma {:induction false} FirstWordOf(kw: string, rest: string)
    requires ' ' !in kw
    ensures FirstWord(kw + " " + rest) == kw
    decreases |kw|
  {
    if |kw| > 0 {
      assert (kw + " " + rest)[1..] == kw[1..] + " " + rest;
      FirstWordOf(kw[1..], rest);
    }
  }

  /** The instruction keywords of a Dockerfile, in order. */
  function Keywords(ls: seq<string>): seq<string>
    decreases |ls|
  {
    if |ls| == 0 then []
    else (if IsInstructionLine(ls[0]) then [FirstWord(ls[0])] else []) + Keywords(ls[1..])
  }

  lemma {:induction false} KeywordsAppend(a: seq<string>, b: seq<string>)
    ensures Keywords(a + b) == Keywords(a) + Keywords(b)
    decreases |a|
  {
    if |a| == 0 {
      assert a + b == b;
    } else {
      assert (a + b)[0] == a[0] && (a + b)[1..] == a[1..] + b;
      KeywordsAppend(a[1..], b);
    }
  }

  /** Lines that all start with a space (or are empty) hold no instruction. */
  lemma {:induction false} KeywordsOfContinuation(ls: seq<string>)
    requires forall j :: 0 <= j < |ls| ==> |ls[j]| == 0 || ls[j][0] == ' '
    ensures Keywords(ls) == []
    decreases |ls|
  {
    if |ls| > 0 {
      KeywordsOfContinuation(ls[1..]);
    }
  }

  /** The keyword of a block: the first word of its first body line. */
  function KeywordOf(b: Block): string
  {
    if |b.body| == 0 then "" else FirstWord(b.body[0])
  }

  /** A block whose first body line is an instruction and whose other lines continue it. */
  predicate InstructionBlock(b: Block)
  {
    |b.body| >= 1 && IsInstructionLine(b.body[0])
    && forall j :: 1 <= j < |b.body| ==> |b.body[j]| > 0 && b.body[j][0] == ' '
  }

  lemma KeywordsOfBlock(b: Block)
    requires InstructionBlock(b)
    ensures Keywords(["# " + b.comment] + b.body + [""]) == [KeywordOf(b)]
  {
    var head := ["# " + b.comment];
    KeywordsAppend(head, b.body);
    KeywordsAppend(head + b.body, [""]);
    KeywordsAppend([b.body[0]], b.body[1..]);
    assert [b.body[0]] + b.body[1..] == b.body;
    KeywordsOfContinuation(b.body[1..]);
  }

  /** Each instruction block contributes its keyword, in block order. */
  lemma {:induction false} KeywordsOfBlocks(bs: seq<Block>)
    requires forall i :: 0 <= i < |bs| ==> InstructionBlock(bs[i])
    ensures Keywords(BlockLines(bs)) == seq(|bs|, i requires 0 <= i < |bs| => KeywordOf(bs[i]))
    decreases |bs|
  {
    if |bs| > 0 {
      KeywordsOfBlock(bs[0]);
      KeywordsOfBlocks(bs[1..]);
      KeywordsAppend(["# " + bs[0].comment] + bs[0].body + [""], BlockLines(bs[1..]));
      var ks := seq(|bs|, i requires 0 <= i < |bs| => KeywordOf(bs[i]));
      assert ks == [KeywordOf(bs[0])] + seq(|bs| - 1, i requires 0 <= i < |bs| - 1 => KeywordOf(bs[1..][i]));
    }
  }

  /** The text of one block: comment line, instructions, and the closing line break. */
  function BlockText(b: Block): string
  {
    "# " + b.comment + "\n" + Unlines(b.body) + "\n"
  }

  function BlockTexts(bs: seq<Block>): seq<string>
  {
    seq(|bs|, i requires 0 <= i < |bs| => BlockText(bs[i]))
  }

  /** Block lines render as the block texts separated by blank lines. */
  lemma {:induction false} BlocksRendering(bs: seq<Block>)
    requires forall i :: 0 <= i < |bs| ==> |bs[i].body| >= 1
    ensures Unlines(BlockLines(bs)) == JoinWith(BlockTexts(bs), "\n")
    decreases |bs|
  {
    if |bs| > 0 {
      var b := bs[0];
      var head := ["# " + b.comment] + b.body;
      UnlinesAppend(["# " + b.comment], b.body);
      UnlinesAppend(head, [""]);
      assert Unlines(head + [""]) == BlockText(b);
      if |bs| > 1 {
        BlocksRendering(bs[1..]);
        UnlinesAppend(head + [""], BlockLines(bs[1..]));
        assert BlockTexts(bs)[1..] == BlockTexts(bs[1..]);
      } else {
        assert BlockLines(bs) == head + [""];
      }
    }
  }

  lemma {:induction false} BlocksSingleLines(bs: seq<Block>)
    requires forall i :: 0 <= i < |bs| ==> '\n' !in bs[i].comment && SingleLines(bs[i].body)
    ensures SingleLines(BlockLines(bs))
    decreases |bs|
  {
    if |bs| > 0 {
      BlocksSingleLines(bs[1..]);
      assert '\n' !in "# ";
      SingleLinesAppend(["# " + bs[0].comment], bs[0].body);
      SingleLinesAppend(["# " + bs[0].comment] + bs[0].body, [""]);
      SingleLinesAppend(["# " + bs[0].comment] + bs[0].body + [""], BlockLines(bs[1..]));
    }
  }

  // ---------------------------------------------------------------------------
  // The Dockerfile

  function FromBlock(c: DockerConfig): Block
  {
    Block("Use official Node.js runtime as base image", ["FROM " + c.baseImage])
  }

  function WorkdirBlock(c: DockerConfig): Block
  {
    Block("Set working directory", ["WORKDIR " + c.workdir])
  }

  function EnvBlock(c: DockerConfig): Block
  {
    Block("Set environment variables", ["ENV " + c.env])
  }

  /** The package manifests copied before the build commands run. */
  const PackageFiles := "package*.json ./"

  const PackageBlock := Block("Copy package files", ["COPY " + PackageFiles])

  function RunBlock(c: DockerConfig): Block
  {
    Block("Install dependencies", RunLines(c.commands))
  }

  function CopyBlock(c: DockerConfig): Block
  {
    Block("Copy application code", ["COPY " + c.copyFiles])
  }

  function ExposeBlock(c: DockerConfig): Block
  {
    Block("Expose port", ["EXPOSE " + c.port])
  }

  function CmdBlock(c: DockerConfig): Block
  {
    Block("Start the application", [CmdInstruction(c.startCommand)])
  }

  function Blocks(c: DockerConfig): seq<Block>
  {
    [FromBlock(c), WorkdirBlock(c), EnvBlock(c), PackageBlock, RunBlock(c), CopyBlock(c), ExposeBlock(c), CmdBlock(c)]
  }

  function DockerfileLines(c: DockerConfig): seq<string>
  {
    BlockLines(Blocks(c))
  }

  /** `generateDockerfile`. */
  function GenerateDockerfile(c: DockerConfig): string
  {
    Unlines(DockerfileLines(c))
  }

  lemma BlocksHaveBodies(c: DockerConfig)
    ensures forall i :: 0 <= i < |Blocks(c)| ==> |Blocks(c)[i].body| >= 1
  {
  }

  /** The Dockerfile is the template's eight paragraphs separated by blank lines. */
  lemma DockerfileRendering(c: DockerConfig)
    ensures GenerateDockerfile(c) == JoinWith(BlockTexts(Blocks(c)), "\n")
  {
    BlocksHaveBodies(c);
    BlocksRendering(Blocks(c));
  }

  /** The fifth paragraph holds the template's RUN expression. */
  lemma RunParagraph(c: DockerConfig)
    ensures Blocks(c)[4] == RunBlock(c)
    ensures BlockText(RunBlock(c)) == "# " + RunBlock(c).comment + "\n" + RunInstruction(c.commands) + "\n"
  {
    RunRendering(c.commands);
  }

  /** A block whose comment and body are single lines. */
  predicate SingleBlock(b: Block)
  {
    '\n' !in b.comment && SingleLines(b.body)
  }

  lemma FromSingle(c: DockerConfig)
    requires '\n' !in c.baseImage
    ensures SingleBlock(FromBlock(c))
  {
    assert '\n' !in "Use official Node.js runtime as base image";
    assert '\n' !in "FROM ";
  }

  lemma WorkdirSingle(c: DockerConfig)
    requires '\n' !in c.workdir
    ensures SingleBlock(WorkdirBlock(c))
  {
    assert '\n' !in "WORKDIR ";
  }

  lemma EnvSingle(c: DockerConfig)
    requires '\n' !in c.env
    ensures SingleBlock(EnvBlock(c))
  {
    assert '\n' !in "ENV ";
  }

  lemma PackageSingle()
    ensures SingleBlock(PackageBlock)
  {
  }

  lemma RunSingle(c: DockerConfig)
    ensures SingleBlock(RunBlock(c))
  {
    RunSingleLines(c.commands);
  }

  lemma CopySingle(c: DockerConfig)
    requires '\n' !in c.copyFiles
    ensures SingleBlock(CopyBlock(c))
  {
    assert '\n' !in "COPY ";
  }

  lemma ExposeSingle(c: DockerConfig)
    requires '\n' !in c.port
    ensures SingleBlock(ExposeBlock(c))
  {
    assert '\n' !in "EXPOSE ";
  }

  lemma CmdBlockSingle(c: DockerConfig)
    requires '\n' !in c.startCommand
    ensures SingleBlock(CmdBlock(c))
  {
    CmdSingle(c.startCommand);
  }

  lemma BlocksSingle(c: DockerConfig)
    requires SingleLineFields(c)
    ensures forall i :: 0 <= i < |Blocks(c)| ==> SingleBlock(Blocks(c)[i])
  {
    FromSingle(c);
    WorkdirSingle(c);
    EnvSingle(c);
    PackageSingle();
    RunSingle(c);
    CopySingle(c);
    ExposeSingle(c);
    CmdBlockSingle(c);
  }

  lemma CmdSingle(start: string)
    requires '\n' !in start
    ensures '\n' !in CmdInstruction(start)
  {
    JoinSplitIsReplace(start, ' ', ArgSeparator);
    ReplaceKeepsOut(start, ' ', ArgSeparator, '\n');
    assert '\n' !in "CMD [\"" && '\n' !in "\"]";
  }

  /** Replacing one character by a text without `d` adds no `d`. */
  lemma {:induction false} ReplaceKeepsOut(s: string, c: char, t: string, d: char)
    requires d !in s && d !in t
    ensures d !in ReplaceChar(s, c, t)
    decreases |s|
  {
    if |s| > 0 {
      ReplaceKeepsOut(s[1..], c, t, d);
    }
  }

  /**
   * For single-line input fields the Dockerfile's lines are the block lines,
   * whatever the build commands hold: each command gets a line of its own.
   */
  lemma DockerfileDocumentLines(c: DockerConfig)
    requires SingleLineFields(c)
    ensures Lines(GenerateDockerfile(c)) == DockerfileLines(c)
  {
    BlocksSingle(c);
    BlocksSingleLines(Blocks(c));
    LinesOfUnlines(DockerfileLines(c));
  }

  lemma RunBlockIsInstruction(c: DockerConfig)
    ensures InstructionBlock(RunBlock(c))
  {
    RunLinesShape(c.commands);
    var run := RunLines(c.commands);
    assert run[0][0] == 'R';
    forall j | 1 <= j < |run| ensures |run[j]| > 0 && run[j][0] == ' ' {
      assert run[j][0] == Indent[0];
    }
  }

  lemma BlocksAreInstructions(c: DockerConfig)
    ensures forall i :: 0 <= i < |Blocks(c)| ==> InstructionBlock(Blocks(c)[i])
  {
    RunBlockIsInstruction(c);
    assert CmdInstruction(c.startCommand)[0] == 'C';
  }

  const InstructionKeywords: seq<string> := ["FROM", "WORKDIR", "ENV", "COPY", "RUN", "COPY", "EXPOSE", "CMD"]

  /** The keyword of a `<keyword> <rest>` instruction block. */
  lemma KeywordOfLine(b: Block, head: string, kw: string, rest: string)
    requires head == kw + " " && ' ' !in kw && b.body == [head + rest]
    ensures KeywordOf(b) == kw
  {
    FirstWordOf(kw, rest);
  }

  lemma RunKeyword(c: DockerConfig)
    ensures KeywordOf(RunBlock(c)) == "RUN"
  {
    RunLinesShape(c.commands);
    var cmds := SplitOn(c.commands, '\n');
    var tail := cmds[0] + (if 1 < |cmds| then Continuation else "");
    FirstWordOf("RUN", tail);
    assert RunLines(c.commands)[0] == "RUN" + " " + tail;
  }

  lemma CmdKeyword(c: DockerConfig)
    ensures KeywordOf(CmdBlock(c)) == "CMD"
  {
    var args := "[\"" + JoinWith(SplitOn(c.startCommand, ' '), ArgSeparator) + "\"]";
    assert CmdInstruction(c.startCommand) == "CMD " + args;
    KeywordOfLine(CmdBlock(c), "CMD ", "CMD", args);
  }

  lemma LeadingKeywords(c: DockerConfig)
    ensures KeywordOf(FromBlock(c)) == "FROM" && KeywordOf(WorkdirBlock(c)) == "WORKDIR"
    ensures KeywordOf(EnvBlock(c)) == "ENV" && KeywordOf(PackageBlock) == "COPY"
  {
    KeywordOfLine(FromBlock(c), "FROM ", "FROM", c.baseImage);
    KeywordOfLine(WorkdirBlock(c), "WORKDIR ", "WORKDIR", c.workdir);
    KeywordOfLine(EnvBlock(c), "ENV ", "ENV", c.env);
    KeywordOfLine(PackageBlock, "COPY ", "COPY", PackageFiles);
  }

  lemma TrailingKeywords(c: DockerConfig)
    ensures KeywordOf(RunBlock(c)) == "RUN" && KeywordOf(CopyBlock(c)) == "COPY"
    ensures KeywordOf(ExposeBlock(c)) == "EXPOSE" && KeywordOf(CmdBlock(c)) == "CMD"
  {
    RunKeyword(c);
    KeywordOfLine(CopyBlock(c), "COPY ", "COPY", c.copyFiles);
    KeywordOfLine(ExposeBlock(c), "EXPOSE ", "EXPOSE", c.port);
    CmdKeyword(c);
  }

  /** The keyword of every block's first line. */
  lemma BlockKeywords(c: DockerConfig)
    ensures seq(|Blocks(c)|, i requires 0 <= i < |Blocks(c)| => KeywordOf(Blocks(c)[i])) == InstructionKeywords
  {
    LeadingKeywords(c);
    TrailingKeywords(c);
  }

  /**
   * The instructions come in the fixed order FROM, WORKDIR, ENV, COPY, RUN,
   * COPY, EXPOSE, CMD, however many build commands there are.
   */
  lemma InstructionOrder(c: DockerConfig)
    requires SingleLineFields(c)
    ensures Keywords(Lines(GenerateDockerfile(c))) == InstructionKeywords
  {
    DockerfileDocumentLines(c);
    BlocksAreInstructions(c);
    KeywordsOfBlocks(Blocks(c));
    BlockKeywords(c);
  }

  /** A document whose last line is empty ends with a line break. */
  lemma EndsWithBreak(ls: seq<string>)
    requires |ls| >= 2 && ls[|ls| - 1] == ""
    ensures |Unlines(ls)| > 0 && Unlines(ls)[|Unlines(ls)| - 1] == '\n'
  {
    var n := |ls| - 1;
    assert ls == ls[..n] + [""];
    UnlinesAppend(ls[..n], [""]);
  }

  lemma {:induction false} BlockLinesEnd(bs: seq<Block>)
    requires |bs| >= 1
    ensures |BlockLines(bs)| >= 2 && BlockLines(bs)[|BlockLines(bs)| - 1] == ""
    decreases |bs|
  {
    if |bs| > 1 {
      BlockLinesEnd(bs[1..]);
    }
  }

  /** The Dockerfile ends with a line break. */
  lemma DockerfileEndsWithNewline(c: DockerConfig)
    ensures |GenerateDockerfile(c)| > 0 && GenerateDockerfile(c)[|GenerateDockerfile(c)| - 1] == '\n'
  {
    BlockLinesEnd(Blocks(c));
    EndsWithBreak(DockerfileLines(c));
  }

  /** Blocks whose bodies all lack `ch` at position `k < 2` (where `# ` does too) lack it throughout. */
  lemma {:induction false} BlocksNotAt(bs: seq<Block>, k: nat, ch: char)
    requires k < 2 && "# "[k] != ch
    requires forall i :: 0 <= i < |bs| ==> NotAt(bs[i].body, k, ch)
    ensures NotAt(BlockLines(bs), k, ch)
    decreases |bs|
  {
    if |bs| > 0 {
      var b := bs[0];
      assert ("# " + b.comment)[k] == "# "[k];
      NotAtAppend(["# " + b.comment], b.body, k, ch);
      NotAtAppend(["# " + b.comment] + b.body, [""], k, ch);
      BlocksNotAt(bs[1..], k, ch);
      NotAtAppend(["# " + b.comment] + b.body + [""], BlockLines(bs[1..]), k, ch);
    }
  }

  lemma RunLinesNotAt(commands: string, k: nat, ch: char)
    requires k < 4 && "RUN "[k] != ch && Indent[k] != ch
    ensures NotAt(RunLines(commands), k, ch)
  {
    RunLinesShape(commands);
    var run := RunLines(commands);
    forall j | 0 <= j < |run| ensures k >= |run[j]| || run[j][k] != ch {
      if j == 0 {
        assert run[j][k] == "RUN "[k];
      } else {
        assert run[j][k] == Indent[k];
      }
    }
  }

  /** The value of a `<prefix><value>` line that follows lines differing from the prefix. */
  lemma FieldAfter(pre: seq<string>, prefix: string, v: string, post: seq<string>, k: nat)
    requires DiffersAt(pre, prefix, k)
    ensures FieldOf(pre + ([prefix + v] + post), prefix, "") == Some(v)
  {
    var ls := pre + ([prefix + v] + post);
    assert ls[|pre|] == prefix + v + "";
    assert ls[..|pre|] == pre;
    FieldOfAtDiffering(ls, |pre|, prefix, v, "", k);
  }

  /** The lines of `a + [x] + rest`, with `x`'s lines in the middle. */
  lemma BlockLinesAround(a: seq<Block>, x: Block, rest: seq<Block>)
    ensures BlockLines(a + [x] + rest) == (BlockLines(a) + ["# " + x.comment]) + (x.body + ([""] + BlockLines(rest)))
  {
    BlockLinesAppend(a + [x], rest);
    BlockLinesAppend(a, [x]);
    BlockLinesOne(x);
  }

  /** The lines before a block's body lack what its blocks' bodies lack at `k < 2`. */
  lemma BeforeBodyNotAt(a: seq<Block>, comment: string, k: nat, ch: char)
    requires k < 2 && "# "[k] != ch
    requires forall i :: 0 <= i < |a| ==> NotAt(a[i].body, k, ch)
    ensures NotAt(BlockLines(a) + ["# " + comment], k, ch)
  {
    BlocksNotAt(a, k, ch);
    assert ("# " + comment)[k] == "# "[k];
    NotAtAppend(BlockLines(a), ["# " + comment], k, ch);
  }

  /** The value of a one-line block `<prefix><v>` after blocks that differ from the prefix. */
  lemma FieldInBlock(a: seq<Block>, x: Block, rest: seq<Block>, prefix: string, v: string, k: nat)
    requires x.body == [prefix + v]
    requires k < 2 && k < |prefix| && "# "[k] != prefix[k]
    requires forall i :: 0 <= i < |a| ==> NotAt(a[i].body, k, prefix[k])
    ensures FieldOf(BlockLines(a + [x] + rest), prefix, "") == Some(v)
  {
    BeforeBodyNotAt(a, x.comment, k, prefix[k]);
    BlockLinesAround(a, x, rest);
    FieldAfter(BlockLines(a) + ["# " + x.comment], prefix, v, [""] + BlockLines(rest), k);
  }

  /** `EXPOSE` publishes the configured port. */
  lemma ExposeValue(c: DockerConfig)
    ensures FieldOf(DockerfileLines(c), "EXPOSE ", "") == Some(c.port)
  {
    var a := [FromBlock(c), WorkdirBlock(c), EnvBlock(c), PackageBlock, RunBlock(c), CopyBlock(c)];
    RunLinesNotAt(c.commands, 1, 'X');
    assert Blocks(c) == a + [ExposeBlock(c)] + [CmdBlock(c)];
    FieldInBlock(a, ExposeBlock(c), [CmdBlock(c)], "EXPOSE ", c.port, 1);
  }

  /** `ENV` sets the configured environment entry. */
  lemma EnvValue(c: DockerConfig)
    ensures FieldOf(DockerfileLines(c), "ENV ", "") == Some(c.env)
  {
    var a := [FromBlock(c), WorkdirBlock(c)];
    var rest := [PackageBlock, RunBlock(c), CopyBlock(c), ExposeBlock(c), CmdBlock(c)];
    assert Blocks(c) == a + [EnvBlock(c)] + rest;
    FieldInBlock(a, EnvBlock(c), rest, "ENV ", c.env, 1);
  }

  // ---------------------------------------------------------------------------
  // The Compose file

  /** `      - "<port>:<port>"`: the same port on the host and in the container. */
  function PortMapping(port: string): string
  {
    "      - \"" + port + ":" + port + "\""
  }

  const PortsKey := "    ports:"
  const EnvironmentKey := "    environment:"

  function AppService(c: DockerConfig): seq<string>
  {
    [ "version: '3.8'",
      "",
      "services:",
      "  app:",
      "    build: .",
      PortsKey,
      PortMapping(c.port),
      EnvironmentKey,
      "      - " + c.env,
      "    restart: unless-stopped",
      "    " ]
  }

  /** A line of the database service, commented out under `services:`. */
  function CommentedOut(l: string): string
  {
    "  # " + l
  }

  /** Every line commented out. */
  function CommentAll(ls: seq<string>): (r: seq<string>)
    ensures |r| == |ls|
    ensures forall j :: 0 <= j < |ls| ==> r[j] == CommentedOut(ls[j])
  {
    seq(|ls|, j requires 0 <= j < |ls| => CommentedOut(ls[j]))
  }

  /** The database service the Compose file suggests, before it is commented out. */
  const DatabaseService: seq<string> := [
    "Add additional services as needed",
    "database:",
    "  image: postgres:15",
    "  environment:",
    "    POSTGRES_DB: myapp",
    "    POSTGRES_USER: user" ]

  const DatabaseMounts: seq<string> := [
    "    POSTGRES_PASSWORD: password",
    "  volumes:",
    "    - postgres_data:/var/lib/postgresql/data",
    "  ports:",
    "    - \"5432:5432\"" ]

  /** The commented-out volumes and the closing empty line. */
  const VolumesScaffold: seq<string> := [
    "",
    "# volumes:",
    "#   postgres_data:",
    "" ]

  /** Everything after the app service. */
  const Scaffold: seq<string> := CommentAll(DatabaseService + DatabaseMounts) + VolumesScaffold

  function ComposeLines(c: DockerConfig): seq<string>
  {
    AppService(c) + Scaffold
  }

  /** `generateDockerCompose`. */
  function GenerateCompose(c: DockerConfig): string
  {
    Unlines(ComposeLines(c))
  }

  lemma ComposeSingle(c: DockerConfig)
    requires '\n' !in c.port && '\n' !in c.env
    ensures SingleLines(ComposeLines(c))
  {
    assert '\n' !in "      - \"" && '\n' !in ":" && '\n' !in "\"" && '\n' !in "      - ";
    assert SingleLines(AppService(c));
    ScaffoldSingle();
    SingleLinesAppend(AppService(c), Scaffold);
  }

  lemma DatabaseServiceSingle()
    ensures SingleLines(DatabaseService)
  {
  }

  lemma DatabaseMountsSingle()
    ensures SingleLines(DatabaseMounts)
  {
    assert '\n' !in DatabaseMounts[2];
  }

  /** Commenting out keeps every line on one line. */
  lemma CommentAllSingle(ls: seq<string>)
    requires SingleLines(ls)
    ensures SingleLines(CommentAll(ls))
  {
    forall j | 0 <= j < |ls| ensures '\n' !in CommentAll(ls)[j] {
      assert CommentAll(ls)[j] == "  # " + ls[j];
    }
  }

  lemma ScaffoldSingle()
    ensures SingleLines(Scaffold)
  {
    DatabaseServiceSingle();
    DatabaseMountsSingle();
    SingleLinesAppend(DatabaseService, DatabaseMounts);
    CommentAllSingle(DatabaseService + DatabaseMounts);
    assert SingleLines(VolumesScaffold);
    SingleLinesAppend(CommentAll(DatabaseService + DatabaseMounts), VolumesScaffold);
  }

  /** For single-line port and env the Compose file's lines are the model's lines. */
  lemma ComposeDocumentLines(c: DockerConfig)
    requires '\n' !in c.port && '\n' !in c.env
    ensures Lines(GenerateCompose(c)) == ComposeLines(c)
  {
    ComposeSingle(c);
    LinesOfUnlines(ComposeLines(c));
  }

  /** The Compose file ends with a line break. */
  lemma ComposeEndsWithNewline(c: DockerConfig)
    ensures |GenerateCompose(c)| > 0 && GenerateCompose(c)[|GenerateCompose(c)| - 1] == '\n'
  {
    EndsWithBreak(ComposeLines(c));
  }

  /** Blank, or a `#` comment once the indentation is skipped. */
  predicate CommentOrBlank(l: string)
    decreases |l|
  {
    |l| == 0 || l[0] == '#' || (l[0] == ' ' && CommentOrBlank(l[1..]))
  }

  /** Two spaces and a `#` start a comment whatever follows. */
  lemma IndentedComment(l: string)
    requires |l| >= 3 && l[0] == ' ' && l[1] == ' ' && l[2] == '#'
    ensures CommentOrBlank(l)
  {
    assert l[1..][1..][0] == '#';
  }

  /**
   * Every line after the app service is blank or a comment, and the same for
   * every configuration.
   */
  lemma ScaffoldCommented(c: DockerConfig)
    ensures |ComposeLines(c)| == |AppService(c)| + |Scaffold|
    ensures ComposeLines(c)[|AppService(c)|..] == Scaffold
    ensures forall j :: 0 <= j < |Scaffold| ==> CommentOrBlank(Scaffold[j])
  {
    CommentAllCommented(DatabaseService + DatabaseMounts);
    assert AllCommentOrBlank(VolumesScaffold);
    CommentedAppend(CommentAll(DatabaseService + DatabaseMounts), VolumesScaffold);
  }

  predicate AllCommentOrBlank(ls: seq<string>)
  {
    forall j :: 0 <= j < |ls| ==> CommentOrBlank(ls[j])
  }

  lemma CommentAllCommented(ls: seq<string>)
    ensures AllCommentOrBlank(CommentAll(ls))
  {
    forall j | 0 <= j < |ls| ensures CommentOrBlank(CommentAll(ls)[j]) {
      IndentedComment(CommentAll(ls)[j]);
    }
  }

  lemma CommentedAppend(a: seq<string>, b: seq<string>)
    requires AllCommentOrBlank(a) && AllCommentOrBlank(b)
    ensures AllCommentOrBlank(a + b)
  {
    forall j | 0 <= j < |a + b| ensures CommentOrBlank((a + b)[j]) {
      if j >= |a| { assert (a + b)[j] == b[j - |a|]; }
    }
  }

  lemma PortsKeyFirst(c: DockerConfig)
    ensures PortsKey !in AppService(c)[..5]
    ensures EnvironmentKey !in AppService(c)[..7]
  {
    assert NotAt(AppService(c)[..5], 6, 'r');
    NotAtAbsent(AppService(c)[..5], PortsKey, 6, 'r');
    assert PortMapping(c.port)[4] == ' ';
    assert NotAt(AppService(c)[..7], 4, 'e');
    NotAtAbsent(AppService(c)[..7], EnvironmentKey, 4, 'e');
  }

  /**
   * Under `ports:` the app maps the port to itself, and under `environment:`
   * it sets the env entry.
   */
  lemma ComposePortAndEnv(c: DockerConfig)
    requires '\n' !in c.port && '\n' !in c.env
    ensures |After(Lines(GenerateCompose(c)), PortsKey)| >= 1
    ensures After(Lines(GenerateCompose(c)), PortsKey)[0] == "      - \"" + c.port + ":" + c.port + "\""
    ensures |After(Lines(GenerateCompose(c)), EnvironmentKey)| >= 1
    ensures After(Lines(GenerateCompose(c)), EnvironmentKey)[0] == "      - " + c.env
  {
    ComposeDocumentLines(c);
    PortsKeyFirst(c);
    var a := AppService(c);
    assert ComposeLines(c) == a[..5] + [PortsKey] + (a[6..] + Scaffold);
    AfterMarkerLine(a[..5], PortsKey, a[6..] + Scaffold);
    assert ComposeLines(c) == a[..7] + [EnvironmentKey] + (a[8..] + Scaffold);
    AfterMarkerLine(a[..7], EnvironmentKey, a[8..] + Scaffold);
  }

  /**
   * The port and the env entry are shared: the port the Dockerfile exposes is
   * the one Compose maps on both sides, and the entry the Dockerfile sets is
   * the one Compose passes to the app.
   */
  lemma SharedPortAndEnv(c: DockerConfig)
    requires SingleLineFields(c)
    ensures FieldOf(Lines(GenerateDockerfile(c)), "EXPOSE ", "") == Some(c.port)
    ensures FieldOf(Lines(GenerateDockerfile(c)), "ENV ", "") == Some(c.env)
    ensures |After(Lines(GenerateCompose(c)), PortsKey)| >= 1
    ensures After(Lines(GenerateCompose(c)), PortsKey)[0] == "      - \"" + c.port + ":" + c.port + "\""
    ensures |After(Lines(GenerateCompose(c)), EnvironmentKey)| >= 1
    ensures After(Lines(GenerateCompose(c)), EnvironmentKey)[0] == "      - " + c.env
  {
    DockerfileDocumentLines(c);
    ExposeValue(c);
    EnvValue(c);
    ComposePortAndEnv(c);
  }
}
