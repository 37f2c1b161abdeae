/** The extended-help callback: it writes the header, then one body (the
    command listing, the parser's own usage screen, a topic's help or the
    "not found" message), then the footer. Each write is recorded with the
    text as it is handed to the colour converter. */
module HelpExtended {
  import opened PhpStrings
  import opened HelpText

  /** What the callback does to the parser: write a string to its outputter,
      or ask the parser to display its own usage screen. */
  datatype Event = Write(text: string) | DelegatedUsage

  /** The command-line parser with its outputter, seen as the list of
      events it has received. */
  class Parser {
    var trace: seq<Event>

    constructor ()
      ensures trace == []
    {
      trace := [];
    }

    /** A write of `text` to the parser's standard-output outputter. */
    method Stdout(text: string)
      modifies this
      ensures trace == old(trace) + [Write(text)]
    {
      trace := trace + [Write(text)];
    }

    /** The hand-over to the parser's own usage screen, whose output is not modelled. */
    method DisplayUsage()
      modifies this
      ensures trace == old(trace) + [DelegatedUsage]
    {
      trace := trace + [DelegatedUsage];
    }
  }

  /** `combine`: loads the topic file and builds its help body step by step;
      `None` stands for the source's `false` ("not found"). */
  method Combine(topic: string, verbose: bool, configsDir: string, load: string -> LoadResult)
    returns (help: Option<string>)
    requires LoadFits(load(TopicPath(configsDir, topic)))
    ensures help.None? <==> load(TopicPath(configsDir, topic)).NotFound?
    ensures help.Some? ==> help.value == Compose(load(TopicPath(configsDir, topic)).def, verbose)
  {
    var file := TopicPath(configsDir, topic);
    var data := load(file);
    if data.NotFound? {
      return None;
    }
    var docs := data.def.docs;
    var command := data.def.command;

    var out := "";
    out := out + (docs.name + ": " + docs.summary + "\n");
    out := out + ("usage: " + docs.usage + "\n");
    out := out + ("\n  " + Pre(docs.description) + "\n");
    assert out == Heading(docs);
    if verbose && docs.examples.Some? {
      out := out + "eg:";
      out := out + ("\n  " + Pre(docs.examples.value) + "\n");
      assert out == Heading(docs) + ExamplesBlock(docs.examples.value);
    }
    ghost var body := out;
    assert body == Heading(docs) + (if verbose && docs.examples.Some? then ExamplesBlock(docs.examples.value) else "");

    if command.options.Some? && |command.options.value| > 0 {
      out := out + "Available options:\n";
      out := AppendOptionRows(out, command.options.value);
      ConcatAssoc(body, "Available options:\n", OptionLines(command.options.value));
    }
    assert out == body + OptionTable(command.options);
    return Some(out);
  }

  /** The `foreach` over the options in `combine`: appends one row per
      option, in list order, to the text built so far. */
  method AppendOptionRows(start: string, opts: seq<OptionDoc>) returns (out: string)
    requires NamesFit(opts)
    ensures out == start + OptionLines(opts)
  {
    out := start;
    var i := 0;
    while i < |opts|
      invariant 0 <= i <= |opts|
      invariant out == start + OptionLines(opts[..i])
    {
      var opt := opts[i];
      var spaces := Repeat(' ', NameWidth - |opt.docName|);
      OptionLinesStep(opts, i);
      out := out + ("  " + opt.docName + " " + spaces + " : " + opt.description + "\n");
      i := i + 1;
    }
    assert opts[..i] == opts;
  }

  /** The listing branch of `displayUsage`, building the usage screen line by
      line in registry order. */
  method BuildListing(registry: seq<RegistryEntry>) returns (out: string)
    ensures out == Listing(registry)
  {
    out := "usage: %bphrozn%n %g<command>%n [options] [args]\n\n";
    out := out + "Type 'phrozn help <command>' for help on a specific command.\n";
    out := out + "Type 'phrozn ? help' for help on using help.\n";
    out := out + "Type 'phrozn --version' to see the program version and installed plugins.\n";

    out := out + "\nAvailable commands:\n";
    assert out == UsagePreamble;
    var i := 0;
    while i < |registry|
      invariant 0 <= i <= |registry|
      invariant out == UsagePreamble + CommandLines(registry[..i])
    {
      var entry := registry[i];
      ghost var done := out;
      ghost var tail := if entry.aliases.Some? then " (" + Join(entry.aliases.value, ", ") + ")" else "";
      out := out + ("    " + entry.name);
      if entry.aliases.Some? {
        out := out + (" (" + Join(entry.aliases.value, ", ") + ")");
      }
      out := out + "\n";
      assert out == done + ("    " + entry.name) + tail + "\n";
      ConcatAssoc(done, "    " + entry.name, tail);
      ConcatAssoc(done, "    " + entry.name + tail, "\n");
      CommandLinesStep(registry, i);
      ConcatAssoc(UsagePreamble, CommandLines(registry[..i]), CommandLine(entry));
      i := i + 1;
    }
    assert registry[..i] == registry;
  }

  /** The body `displayTopic` writes: the help of a loaded topic, or the
      "not found" message. */
  function TopicBody(topic: string, verbose: bool, configsDir: string, load: string -> LoadResult): Event
    requires LoadFits(load(TopicPath(configsDir, topic)))
  {
    var data := load(TopicPath(configsDir, topic));
    if data.Loaded? then Write(Compose(data.def, verbose)) else Write(NotFoundMessage(topic))
  }

  /** The body `displayUsage` produces: the listing when `use_colors` is
      strictly true, the parser's own usage screen otherwise. */
  function UsageBody(params: map<string, Param>, registry: seq<RegistryEntry>): Event
  {
    if UseColors(params) then Write(Listing(registry)) else DelegatedUsage
  }

  /** The one body `execute` writes between header and footer: usage mode
      when no topic argument is given, topic mode otherwise. */
  function Body(args: Option<map<string, Option<string>>>, verbose: bool, params: map<string, Param>,
                registry: seq<RegistryEntry>, configsDir: string, load: string -> LoadResult): Event
    requires TopicArg(args).Some? ==> LoadFits(load(TopicPath(configsDir, TopicArg(args).value)))
  {
    match TopicArg(args)
    case None => UsageBody(params, registry)
    case Some(topic) => TopicBody(topic, verbose, configsDir, load)
  }

  /** `displayTopic`: writes the composed help if `combine` gives a PHP-true
      string, the "not found" message otherwise. */
  method DisplayTopic(parser: Parser, topic: string, verbose: bool, configsDir: string, load: string -> LoadResult)
    requires LoadFits(load(TopicPath(configsDir, topic)))
    modifies parser
    ensures parser.trace == old(parser.trace) + [TopicBody(topic, verbose, configsDir, load)]
    ensures load(TopicPath(configsDir, topic)).NotFound? ==>
      parser.trace == old(parser.trace) + [Write(NotFoundMessage(topic))]
    ensures load(TopicPath(configsDir, topic)).Loaded? ==>
      parser.trace == old(parser.trace) + [Write(Compose(load(TopicPath(configsDir, topic)).def, verbose))]
  {
    var help := Combine(topic, verbose, configsDir, load);
    if help.Some? {
      ComposeBegins(load(TopicPath(configsDir, topic)).def, verbose);
    }
    if help.Some? && Truthy(help.value) {
      parser.Stdout(help.value);
      return;
    }
    parser.Stdout(NotFoundMessage(topic));
  }

  /** `displayUsage`. */
  method DisplayUsage(parser: Parser, params: map<string, Param>, registry: seq<RegistryEntry>)
    modifies parser
    ensures parser.trace == old(parser.trace) + [UsageBody(params, registry)]
  {
    if "use_colors" in params && params["use_colors"] == Bool(true) {
      var out := BuildListing(registry);
      parser.Stdout(out);
    } else {
      parser.DisplayUsage();
    }
  }

  /** `header`. */
  method WriteHeader(parser: Parser, meta: ToolMetadata)
    modifies parser
    ensures parser.trace == old(parser.trace) + [Write(Header(meta))]
  {
    var out := "%P" + meta.name + " " + meta.version + " by " + meta.author + "\n%n";
    parser.Stdout(out);
  }

  /** `footer`. */
  method WriteFooter(parser: Parser, meta: ToolMetadata)
    modifies parser
    ensures parser.trace == old(parser.trace) + [Write(Footer(meta))]
  {
    var out := "\n" + meta.description + "\n";
    out := out + "For additional information, see %9http://phrozn.info%n\n";
    parser.Stdout(out);
  }

  /** `execute`: header, exactly one body, footer. The metadata is what
      `phrozn.yml` holds; `args` and `verbose` come from the parse result. */
  method Execute(parser: Parser, meta: ToolMetadata, args: Option<map<string, Option<string>>>, verbose: bool,
                 params: map<string, Param>, registry: seq<RegistryEntry>, configsDir: string,
                 load: string -> LoadResult)
    requires TopicArg(args).Some? ==> LoadFits(load(TopicPath(configsDir, TopicArg(args).value)))
    modifies parser
    ensures parser.trace ==
      old(parser.trace) + [Write(Header(meta)), Body(args, verbose, params, registry, configsDir, load), Write(Footer(meta))]
  {
    WriteHeader(parser, meta);
    var topic := if args.Some? && "topic" in args.value then args.value["topic"] else None;
    if topic.None? {
      DisplayUsage(parser, params, registry);
    } else {
      DisplayTopic(parser, topic.value, verbose, configsDir, load);
    }
    WriteFooter(parser, meta);
  }

  /** The body is the parser's own usage screen exactly in usage mode with
      colours off; in every other case it is one write. */
  lemma BodyDelegatesOnlyWithoutColours(args: Option<map<string, Option<string>>>, verbose: bool,
                                        params: map<string, Param>, registry: seq<RegistryEntry>,
                                        configsDir: string, load: string -> LoadResult)
    requires TopicArg(args).Some? ==> LoadFits(load(TopicPath(configsDir, TopicArg(args).value)))
    ensures Body(args, verbose, params, registry, configsDir, load) == DelegatedUsage <==>
      TopicArg(args).None? && !UseColors(params)
    ensures TopicArg(args).None? && UseColors(params) ==>
      Body(args, verbose, params, registry, configsDir, load) == Write(Listing(registry))
  {
  }
}
