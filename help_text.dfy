/** The text that the extended-help callback composes, as pure functions:
    the reindenting helper `pre`, the topic body built by `combine`, the
    command listing of the usage screen, and the header and footer lines.
    The callback itself (which writes these texts out) is module HelpExtended. */
module HelpText {
  import opened PhpStrings

  datatype Option<T> = None | Some(value: T)

  /** The `docs` section of a topic file; `examples` is optional. */
  datatype Docs = Docs(name: string, summary: string, usage: string, description: string, examples: Option<string>)

  /** One entry of a command's `options` list. */
  datatype OptionDoc = OptionDoc(docName: string, description: string)

  /** The `command` section of a topic file. */
  datatype CommandSection = CommandSection(aliases: Option<seq<string>>, options: Option<seq<OptionDoc>>)

  /** A well-formed topic file. */
  datatype TopicDef = TopicDef(docs: Docs, command: CommandSection)

  /** What the YAML loader gives for a topic path: a parsed topic, or its
      "miss" answer (in the source, the path string echoed back). */
  datatype LoadResult = NotFound | Loaded(def: TopicDef)

  /** One command of the registry, listed in the usage screen. */
  datatype RegistryEntry = RegistryEntry(name: string, aliases: Option<seq<string>>)

  /** The tool metadata read from `phrozn.yml`. */
  datatype ToolMetadata = ToolMetadata(name: string, version: string, author: string, description: string)

  /** A value of the callback's configuration parameters. */
  datatype Param = Null | Bool(b: bool) | Int(i: int) | Str(s: string)

  /** Width of the option-name field of the option table. */
  const NameWidth: nat := 30

  // ---------------------------------------------------------------------------
  // pre: reindenting a multi-line block

  /** `pre`: explode on newlines, implode with a newline and two spaces. */
  function Pre(block: string): string
  {
    Join(Split(block, '\n'), "\n  ")
  }

  /** Reference reading of `pre`: every newline becomes a newline followed by
      two spaces, every other character stays. */
  function Indent(s: string): string
  {
    if |s| == 0 then ""
    else (if s[0] == '\n' then "\n  " else [s[0]]) + Indent(s[1..])
  }

  /** Drops the two spaces that follow each newline. */
  function Unindent(t: string): string
    decreases |t|
  {
    if |t| == 0 then ""
    else if t[0] == '\n' && |t| >= 3 && t[1] == ' ' && t[2] == ' ' then "\n" + Unindent(t[3..])
    else [t[0]] + Unindent(t[1..])
  }

  lemma {:induction false} PreIsIndent(s: string)
    ensures Pre(s) == Indent(s)
  {
    if |s| > 0 {
      var rest := Split(s[1..], '\n');
      PreIsIndent(s[1..]);
      if s[0] == '\n' {
        assert Split(s, '\n') == [""] + rest;
        assert ([""] + rest)[1..] == rest;
      } else {
        JoinExtendFirst(s[0], rest, "\n  ");
      }
    }
  }

  /** A block without a newline is left as it is. */
  lemma PreWithoutNewline(s: string)
    requires '\n' !in s
    ensures Pre(s) == s
  {
    SplitWithoutSeparator(s, '\n');
  }

  lemma {:induction false} IndentCounts(s: string)
    ensures Count(Indent(s), '\n') == Count(s, '\n')
    ensures |Indent(s)| == |s| + 2 * Count(s, '\n')
  {
    if |s| > 0 {
      IndentCounts(s[1..]);
      var head := if s[0] == '\n' then "\n  " else [s[0]];
      assert Indent(s) == head + Indent(s[1..]);
      assert Count(head, '\n') == (if s[0] == '\n' then 1 else 0) by {
        if s[0] == '\n' {
          assert head == "\n" + "  ";
          CountAbsent("  ", '\n');
          CountAppend("\n", "  ", '\n');
        } else {
          assert head[1..] == "";
        }
      }
      CountAppend(head, Indent(s[1..]), '\n');
    }
  }

  /** `pre` keeps the number of newlines, hence of lines, and adds exactly two
      characters per newline. */
  lemma PreKeepsLineCount(s: string)
    ensures Count(Pre(s), '\n') == Count(s, '\n')
    ensures |Split(Pre(s), '\n')| == |Split(s, '\n')|
    ensures |Pre(s)| == |s| + 2 * Count(s, '\n')
  {
    PreIsIndent(s);
    IndentCounts(s);
    SplitLength(s, '\n');
    SplitLength(Pre(s), '\n');
  }

  /** Splitting a newline, two spaces and `u`: an empty first line, then the
      lines of `u` with two spaces before the first. */
  lemma SplitAfterNewlineIndent(u: string)
    ensures var p := Split(u, '\n');
      Split("\n" + ("  " + u), '\n') == [""] + (["  " + p[0]] + p[1..])
  {
    var p := Split(u, '\n');
    var t := "\n" + ("  " + u);
    assert t[1..] == "  " + u;
    assert t[1..][1..] == " " + u;
    assert t[1..][1..][1..] == u;
    var one := Split(t[1..][1..], '\n');
    assert one == [" " + p[0]] + p[1..];
    var two := Split(t[1..], '\n');
    assert two == [" " + one[0]] + one[1..];
    assert one[1..] == p[1..];
    assert " " + (" " + p[0]) == "  " + p[0];
  }

  lemma {:induction false} IndentLines(s: string)
    ensures var lines, out := Split(s, '\n'), Split(Indent(s), '\n');
      |out| == |lines| && out[0] == lines[0] &&
      forall i :: 1 <= i < |lines| ==> out[i] == "  " + lines[i]
  {
    if |s| > 0 {
      IndentLines(s[1..]);
      var rest, restOut := Split(s[1..], '\n'), Split(Indent(s[1..]), '\n');
      if s[0] == '\n' {
        assert Indent(s) == "\n" + ("  " + Indent(s[1..]));
        SplitAfterNewlineIndent(Indent(s[1..]));
        assert Split(s, '\n') == [""] + rest;
      } else {
        assert Indent(s) == [s[0]] + Indent(s[1..]);
        assert (Indent(s))[1..] == Indent(s[1..]);
      }
    }
  }

  /** Line by line: the first line of the block is kept, every later line
      gains two leading spaces. */
  lemma PreIndentsLaterLines(s: string)
    ensures var lines, out := Split(s, '\n'), Split(Pre(s), '\n');
      |out| == |lines| && out[0] == lines[0] &&
      forall i :: 1 <= i < |lines| ==> out[i] == "  " + lines[i]
  {
    PreIsIndent(s);
    IndentLines(s);
  }

  lemma {:induction false} UnindentIndent(s: string)
    ensures Unindent(Indent(s)) == s
  {
    if |s| > 0 {
      UnindentIndent(s[1..]);
      var t := Indent(s);
      if s[0] == '\n' {
        assert t == "\n  " + Indent(s[1..]);
        assert t[3..] == Indent(s[1..]);
      } else {
        assert t == [s[0]] + Indent(s[1..]);
        assert t[1..] == Indent(s[1..]);
      }
      assert s == [s[0]] + s[1..];
    }
  }

  /** Removing the two spaces after each newline recovers the block. */
  lemma PreRoundTrip(s: string)
    ensures Unindent(Pre(s)) == s
  {
    PreIsIndent(s);
    UnindentIndent(s);
  }

  // ---------------------------------------------------------------------------
  // combine: the body of a help topic

  /** Every option name fits the 30-column field (str_repeat is given a
      non-negative count). */
  predicate NamesFit(opts: seq<OptionDoc>)
  {
    forall i :: 0 <= i < |opts| ==> |opts[i].docName| <= NameWidth
  }

  predicate TopicFits(d: TopicDef)
  {
    d.command.options.Some? ==> NamesFit(d.command.options.value)
  }

  /** A loader answer whose option names all fit the field. */
  predicate LoadFits(r: LoadResult)
  {
    r.Loaded? ==> TopicFits(r.def)
  }

  /** One row of the option table. */
  function OptionLine(o: OptionDoc): string
    requires |o.docName| <= NameWidth
  {
    "  " + o.docName + " " + Repeat(' ', NameWidth - |o.docName|) + " : " + o.description + "\n"
  }

  /** The rows of the option table, in list order. */
  function OptionLines(opts: seq<OptionDoc>): string
    requires NamesFit(opts)
  {
    if |opts| == 0 then "" else OptionLines(opts[..|opts| - 1]) + OptionLine(opts[|opts| - 1])
  }

  /** The option table, omitted when `options` is absent or empty. */
  function OptionTable(options: Option<seq<OptionDoc>>): string
    requires options.Some? ==> NamesFit(options.value)
  {
    if options.Some? && |options.value| > 0 then "Available options:\n" + OptionLines(options.value) else ""
  }

  /** Name/summary line, usage line, blank line and reindented description. */
  function Heading(docs: Docs): string
  {
    (docs.name + ": " + docs.summary + "\n") + ("usage: " + docs.usage + "\n") + ("\n  " + Pre(docs.description) + "\n")
  }

  /** The examples block shown in verbose mode. */
  function ExamplesBlock(examples: string): string
  {
    "eg:" + ("\n  " + Pre(examples) + "\n")
  }

  /** The help body that `combine` returns for a loaded topic. */
  function Compose(d: TopicDef, verbose: bool): string
    requires TopicFits(d)
  {
    Heading(d.docs)
    + (if verbose && d.docs.examples.Some? then ExamplesBlock(d.docs.examples.value) else "")
    + OptionTable(d.command.options)
  }

  /** The body begins with the name/summary and usage lines and the
      reindented description; it is never a PHP-false string. */
  lemma ComposeBegins(d: TopicDef, verbose: bool)
    requires TopicFits(d)
    ensures var r, p := Compose(d, verbose),
      d.docs.name + ": " + d.docs.summary + "\nusage: " + d.docs.usage + "\n\n  " + Pre(d.docs.description) + "\n";
      |p| <= |r| && r[..|p|] == p && Truthy(r)
  {
    var r := Compose(d, verbose);
    var p := d.docs.name + ": " + d.docs.summary + "\nusage: " + d.docs.usage + "\n\n  " + Pre(d.docs.description) + "\n";
    assert Heading(d.docs) == p;
    assert r == p + (r[|p|..]);
    assert |r| >= 2;
  }

  /** The examples block is there exactly when verbose and examples are both
      present, right after the description; without verbose the examples make
      no difference. */
  lemma ComposeExamples(d: TopicDef, verbose: bool)
    requires TopicFits(d)
    ensures Compose(d, false) == Compose(d.(docs := d.docs.(examples := None)), verbose)
    ensures Compose(d, verbose) != Compose(d, false) <==> verbose && d.docs.examples.Some?
    ensures verbose && d.docs.examples.Some? ==>
      var r, h, b := Compose(d, verbose), |Heading(d.docs)|, "eg:\n  " + Pre(d.docs.examples.value) + "\n";
      h + |b| <= |r| && r[h..h + |b|] == b
  {
    var d0 := d.(docs := d.docs.(examples := None));
    assert Heading(d0.docs) == Heading(d.docs);
    if verbose && d.docs.examples.Some? {
      var h, b, t := Heading(d.docs), ExamplesBlock(d.docs.examples.value), OptionTable(d.command.options);
      assert Compose(d, verbose) == h + b + t;
      assert |Compose(d, verbose)| > |Compose(d, false)|;
      assert (h + b + t)[|h|..|h| + |b|] == b;
    }
  }

  /** The option table is the last part of the body, and it is there exactly
      when `options` is present and not empty. */
  lemma ComposeEndsWithTable(d: TopicDef, verbose: bool)
    requires TopicFits(d)
    ensures var r, t := Compose(d, verbose), OptionTable(d.command.options);
      |t| <= |r| && r[|r| - |t|..] == t &&
      (t != "" <==> d.command.options.Some? && |d.command.options.value| > 0) &&
      (t != "" ==> |t| >= 19 && t[..19] == "Available options:\n")
  {
  }

  /** The rows of the first i + 1 options extend those of the first i by one row. */
  lemma OptionLinesStep(opts: seq<OptionDoc>, i: nat)
    requires NamesFit(opts) && i < |opts|
    ensures NamesFit(opts[..i]) && NamesFit(opts[..i + 1])
    ensures OptionLines(opts[..i + 1]) == OptionLines(opts[..i]) + OptionLine(opts[i])
  {
    assert opts[..i + 1][..i] == opts[..i];
  }

  /** Proof helper: the names of two fitting lists still fit when joined. */
  lemma NamesFitAppend(a: seq<OptionDoc>, b: seq<OptionDoc>)
    requires NamesFit(a) && NamesFit(b)
    ensures NamesFit(a + b)
  {
    forall i | 0 <= i < |a + b| ensures |(a + b)[i].docName| <= NameWidth {
      if i >= |a| { assert (a + b)[i] == b[i - |a|]; }
    }
  }

  lemma {:induction false} OptionLinesAppend(a: seq<OptionDoc>, b: seq<OptionDoc>)
    requires NamesFit(a) && NamesFit(b)
    ensures NamesFit(a + b)
    ensures OptionLines(a + b) == OptionLines(a) + OptionLines(b)
    decreases |b|
  {
    NamesFitAppend(a, b);
    if |b| == 0 {
      assert a + b == a;
    } else {
      var b' := b[..|b| - 1];
      var last := b[|b| - 1];
      assert NamesFit(b');
      assert (a + b)[..|a + b| - 1] == a + b';
      assert (a + b)[|a + b| - 1] == last;
      OptionLinesAppend(a, b');
      assert OptionLines(b) == OptionLines(b') + OptionLine(last);
      assert OptionLines(a + b) == OptionLines(a + b') + OptionLine(last);
    }
  }

  /** Proof helper: a sequence is its part before k, its element k and its part after k. */
  lemma SplitAround<T>(s: seq<T>, k: nat)
    requires k < |s|
    ensures s[..k] + [s[k]] + s[k + 1..] == s
  {
  }

  /** One row per option, in list order: the rows before option k, then
      option k's row, then the rows after it. */
  lemma OptionLinesInOrder(opts: seq<OptionDoc>, k: nat)
    requires NamesFit(opts) && k < |opts|
    ensures OptionLines(opts) == OptionLines(opts[..k]) + OptionLine(opts[k]) + OptionLines(opts[k + 1..])
  {
    var pre, mid, post := opts[..k], [opts[k]], opts[k + 1..];
    assert NamesFit(pre) && NamesFit(mid) && NamesFit(post);
    assert mid[..0] == [];
    assert OptionLines(mid) == OptionLine(opts[k]);
    OptionLinesAppend(pre, mid);
    var pm := pre + mid;
    OptionLinesAppend(pm, post);
    SplitAround(opts, k);
  }

  /** Layout of one row: two spaces, the name, padding up to a ':' at
      0-based column 34, then the description from column 36 and a newline. */
  lemma OptionLineLayout(o: OptionDoc)
    requires |o.docName| <= NameWidth
    ensures var l, n := OptionLine(o), |o.docName|;
      |l| == 37 + |o.description| &&
      l[..2] == "  " && l[2..2 + n] == o.docName &&
      (forall j :: 2 + n <= j < 34 ==> l[j] == ' ') &&
      l[34] == ':' && l[35] == ' ' &&
      l[36..|l| - 1] == o.description && l[|l| - 1] == '\n'
  {
    var n := |o.docName|;
    var pad := Repeat(' ', NameWidth - n);
    var l := OptionLine(o);
    assert l == "  " + o.docName + " " + pad + " : " + o.description + "\n";
    forall j | 2 + n <= j < 34 ensures l[j] == ' ' {
      if 3 + n <= j < 33 { assert l[j] == pad[j - 3 - n]; }
    }
  }

  lemma OptionLineNewlines(o: OptionDoc)
    requires |o.docName| <= NameWidth
    requires '\n' !in o.docName && '\n' !in o.description
    ensures Count(OptionLine(o), '\n') == 1
  {
    var pad := Repeat(' ', NameWidth - |o.docName|);
    CountAbsent(o.docName, '\n');
    CountAbsent(o.description, '\n');
    CountAbsent(pad, '\n');
    CountAppend("  ", o.docName, '\n');
    CountAppend("  " + o.docName, " ", '\n');
    CountAppend("  " + o.docName + " ", pad, '\n');
    CountAppend("  " + o.docName + " " + pad, " : ", '\n');
    CountAppend("  " + o.docName + " " + pad + " : ", o.description, '\n');
    CountAppend("  " + o.docName + " " + pad + " : " + o.description, "\n", '\n');
  }

  /** With single-line names and descriptions the table has exactly one line
      per option. */
  lemma {:induction false} OptionLinesOnePerOption(opts: seq<OptionDoc>)
    requires NamesFit(opts)
    requires forall i :: 0 <= i < |opts| ==> '\n' !in opts[i].docName && '\n' !in opts[i].description
    ensures Count(OptionLines(opts), '\n') == |opts|
  {
    if |opts| > 0 {
      var init := opts[..|opts| - 1];
      OptionLinesOnePerOption(init);
      OptionLineNewlines(opts[|opts| - 1]);
      CountAppend(OptionLines(init), OptionLine(opts[|opts| - 1]), '\n');
    }
  }

  /** The table of an `init` topic with one option: its 7-character name gets
      23 padding spaces after the space that follows it. Written out, the
      expected text is
      "Available options:\n  --force                         : overwrite existing files\n"
      (the literal is kept in pieces below so that the solver compares pieces). */
  lemma InitExampleTable()
    ensures OptionTable(Some([OptionDoc("--force", "overwrite existing files")])) ==
      "Available options:\n" + ("  " + "--force" + " " + Repeat(' ', 23) + " : " + "overwrite existing files" + "\n")
  {
    var o := [OptionDoc("--force", "overwrite existing files")];
    assert o[..0] == [];
    assert OptionLines(o) == OptionLine(o[0]);
    assert |"--force"| == 7;
  }

  /** The whole body of an `init` topic with one option: single-line description, no
      examples, one option. Written out, the expected text is
      "init: initialize project\nusage: phrozn init <path>\n\n  Creates a new project.\n"
      + "Available options:\n  --force                         : overwrite existing files\n"
      (the literal is kept in pieces below so that the solver compares pieces). */
  lemma ComposeInitExample()
    ensures
      var d := TopicDef(
        Docs("init", "initialize project", "phrozn init <path>", "Creates a new project.", None),
        CommandSection(None, Some([OptionDoc("--force", "overwrite existing files")])));
      var head := ("init" + ": " + "initialize project" + "\n") + ("usage: " + "phrozn init <path>" + "\n")
        + ("\n  " + "Creates a new project." + "\n");
      var row := "  " + "--force" + " " + Repeat(' ', 23) + " : " + "overwrite existing files" + "\n";
      Compose(d, false) == head + "Available options:\n" + row
  {
    PreWithoutNewline("Creates a new project.");
    InitExampleTable();
    var head := ("init" + ": " + "initialize project" + "\n") + ("usage: " + "phrozn init <path>" + "\n")
      + ("\n  " + "Creates a new project." + "\n");
    var row := "  " + "--force" + " " + Repeat(' ', 23) + " : " + "overwrite existing files" + "\n";
    assert head + "" == head;
    ConcatAssoc(head, "Available options:\n", row);
  }

  // ---------------------------------------------------------------------------
  // displayUsage: the command listing

  /** The fixed part of the usage screen, up to the "Available commands:" line. */
  const UsagePreamble: string :=
    "usage: %bphrozn%n %g<command>%n [options] [args]\n\n"
    + "Type 'phrozn help <command>' for help on a specific command.\n"
    + "Type 'phrozn ? help' for help on using help.\n"
    + "Type 'phrozn --version' to see the program version and installed plugins.\n"
    + "\nAvailable commands:\n"

  /** One line of the command listing. */
  function CommandLine(e: RegistryEntry): string
  {
    "    " + e.name + (if e.aliases.Some? then " (" + Join(e.aliases.value, ", ") + ")" else "") + "\n"
  }

  /** The lines of the command listing, in registry order. */
  function CommandLines(registry: seq<RegistryEntry>): string
  {
    if |registry| == 0 then ""
    else CommandLines(registry[..|registry| - 1]) + CommandLine(registry[|registry| - 1])
  }

  /** The whole usage screen built when colours are on. */
  function Listing(registry: seq<RegistryEntry>): string
  {
    UsagePreamble + CommandLines(registry)
  }

  /** A command line is the indented name, followed by the comma-separated
      aliases in parentheses exactly when the alias list is not null (so an
      empty list shows as "()"). */
  lemma CommandLineForms(e: RegistryEntry)
    ensures e.aliases.None? ==> CommandLine(e) == "    " + e.name + "\n"
    ensures e.aliases == Some([]) ==> CommandLine(e) == "    " + e.name + " ()\n"
    ensures e.aliases.Some? && |e.aliases.value| == 1 ==>
      CommandLine(e) == "    " + e.name + " (" + e.aliases.value[0] + ")\n"
    ensures e.aliases.Some? && |e.aliases.value| >= 2 ==>
      CommandLine(e) == "    " + e.name + " (" + e.aliases.value[0] + ", " + Join(e.aliases.value[1..], ", ") + ")\n"
    ensures |CommandLine(e)| == 5 + |e.name| <==> e.aliases.None?
  {
  }

  /** The lines of the first i + 1 entries extend those of the first i by one line. */
  lemma CommandLinesStep(registry: seq<RegistryEntry>, i: nat)
    requires i < |registry|
    ensures CommandLines(registry[..i + 1]) == CommandLines(registry[..i]) + CommandLine(registry[i])
  {
    assert registry[..i + 1][..i] == registry[..i];
  }

  lemma {:induction false} CommandLinesAppend(a: seq<RegistryEntry>, b: seq<RegistryEntry>)
    ensures CommandLines(a + b) == CommandLines(a) + CommandLines(b)
    decreases |b|
  {
    if |b| == 0 {
      assert a + b == a;
    } else {
      var b' := b[..|b| - 1];
      assert (a + b)[..|a + b| - 1] == a + b';
      CommandLinesAppend(a, b');
    }
  }

  /** One line per registry entry, in registry order. */
  lemma CommandLinesInOrder(registry: seq<RegistryEntry>, k: nat)
    requires k < |registry|
    ensures CommandLines(registry) ==
      CommandLines(registry[..k]) + CommandLine(registry[k]) + CommandLines(registry[k + 1..])
  {
    var pre, mid, post := registry[..k], [registry[k]], registry[k + 1..];
    SplitAround(registry, k);
    assert mid[..0] == [];
    assert CommandLines(mid) == CommandLine(registry[k]);
    CommandLinesAppend(pre, mid);
    CommandLinesAppend(pre + mid, post);
  }

  lemma {:induction false} JoinWithoutChar(parts: seq<string>, glue: string, c: char)
    requires c !in glue
    requires forall i :: 0 <= i < |parts| ==> c !in parts[i]
    ensures c !in Join(parts, glue)
  {
    if |parts| > 1 {
      JoinWithoutChar(parts[1..], glue, c);
    }
  }

  lemma CommandLineNewlines(e: RegistryEntry)
    requires '\n' !in e.name
    requires e.aliases.Some? ==> forall i :: 0 <= i < |e.aliases.value| ==> '\n' !in e.aliases.value[i]
    ensures Count(CommandLine(e), '\n') == 1
  {
    var tail := if e.aliases.Some? then " (" + Join(e.aliases.value, ", ") + ")" else "";
    if e.aliases.Some? {
      JoinWithoutChar(e.aliases.value, ", ", '\n');
    }
    assert '\n' !in "    " + e.name + tail;
    CountAbsent("    " + e.name + tail, '\n');
    CountAppend("    " + e.name + tail, "\n", '\n');
  }

  /** With single-line names and aliases the listing has exactly one line per
      registry entry. */
  lemma {:induction false} CommandLinesOnePerEntry(registry: seq<RegistryEntry>)
    requires forall i :: 0 <= i < |registry| ==> '\n' !in registry[i].name
    requires forall i :: 0 <= i < |registry| ==> registry[i].aliases.Some? ==>
      forall j :: 0 <= j < |registry[i].aliases.value| ==> '\n' !in registry[i].aliases.value[j]
    ensures Count(CommandLines(registry), '\n') == |registry|
  {
    if |registry| > 0 {
      var init := registry[..|registry| - 1];
      CommandLinesOnePerEntry(init);
      CommandLineNewlines(registry[|registry| - 1]);
      CountAppend(CommandLines(init), CommandLine(registry[|registry| - 1]), '\n');
    }
  }

  /** A "build" command with alias "b" and a "watch" command without aliases
      give the lines "    build (b)\n" and then "    watch\n" after the preamble
      (the literal is kept in pieces below so that the solver compares pieces). */
  lemma ListingBuildWatchExample()
    ensures
      var build := "    " + "build" + (" (" + "b" + ")") + "\n";
      var watch := "    " + "watch" + "\n";
      Listing([RegistryEntry("build", Some(["b"])), RegistryEntry("watch", None)]) == UsagePreamble + build + watch
  {
    var reg := [RegistryEntry("build", Some(["b"])), RegistryEntry("watch", None)];
    var build := "    " + "build" + (" (" + "b" + ")") + "\n";
    var watch := "    " + "watch" + "\n";
    assert reg[..1] == [reg[0]];
    assert reg[..1][..0] == [];
    assert Join(["b"], ", ") == "b";
    assert CommandLine(reg[0]) == build;
    assert "    " + "watch" + "" == "    " + "watch";
    assert CommandLine(reg[1]) == watch;
    assert CommandLines(reg[..1]) == build;
    assert CommandLines(reg) == build + watch;
  }

  /** An empty registry gives the fixed preamble alone. */
  lemma ListingEmptyRegistry()
    ensures Listing([]) == UsagePreamble
  {
  }

  // ---------------------------------------------------------------------------
  // Header, footer, messages and inputs

  /** The banner written before everything else. */
  function Header(meta: ToolMetadata): string
  {
    "%P" + meta.name + " " + meta.version + " by " + meta.author + "\n%n"
  }

  /** The closing note written after everything else. */
  function Footer(meta: ToolMetadata): string
  {
    "\n" + meta.description + "\n" + "For additional information, see %9http://phrozn.info%n\n"
  }

  /** The message written when a topic cannot be loaded. */
  function NotFoundMessage(topic: string): string
  {
    "%rHelp topic '" + topic + "' not found..%n\n"
  }

  /** The path the topic is loaded from, below the configuration directory. */
  function TopicPath(configsDir: string, topic: string): string
  {
    configsDir + "commands/" + topic + ".yml"
  }

  /** True only when the `use_colors` parameter is present and its value is
      the boolean true (a strict comparison: no other truthy value counts). */
  predicate UseColors(params: map<string, Param>)
  {
    "use_colors" in params && params["use_colors"] == Bool(true)
  }

  /** Only the boolean `true` turns the listing on: 1, "true" and null do not. */
  lemma UseColorsIsStrict()
    ensures UseColors(map["use_colors" := Bool(true)])
    ensures !UseColors(map["use_colors" := Int(1)])
    ensures !UseColors(map["use_colors" := Str("true")])
    ensures !UseColors(map["use_colors" := Null])
    ensures !UseColors(map[])
  {
  }

  /** The `topic` argument: null when the command has no arguments at all,
      and also when the `topic` key is missing or holds null. */
  function TopicArg(args: Option<map<string, Option<string>>>): Option<string>
  {
    if args.Some? && "topic" in args.value then args.value["topic"] else None
  }
}
