# Extended help for the Phrozn command line

This project models `HelpExtended`, the callback that the Phrozn static-site
tool runs for `phrozn help`, `phrozn help <topic>` and `phrozn ? help`. The
model is written in Dafny and its properties are proved.

One run of the callback does three things in order:

1. It writes a banner: `"%P{name} {version} by {author}\n%n"`.
2. It writes one body:
   - With no topic argument, it writes the command listing when the
     `use_colors` parameter is exactly the boolean `true`. Otherwise it
     hands over to the parser's own usage screen.
   - With a topic, it loads `commands/<topic>.yml`. If that works, it
     writes the help composed by `combine`. If it does not, it writes
     `"%rHelp topic '<topic>' not found..%n\n"`.
3. It writes a closing note with the tool description and the project URL.

The `combine` body contains, in order:

- a `name: summary` line;
- a `usage:` line;
- a blank line;
- the description, reindented by `pre`;
- in verbose mode only, when the topic has examples, an `eg:` block;
- when the topic has a non-empty option list, an aligned option table.

`pre` puts two spaces after every newline.

Files:

- `php_strings.dfy` (module `PhpStrings`) holds the PHP built-ins the code
  relies on, on `seq<char>`:
  - `explode` as `Split`;
  - `implode` as `Join`;
  - `str_repeat` as `Repeat`;
  - PHP's string truthiness as `Truthy`.
- `help_text.dfy` (module `HelpText`) has the data model and the texts as
  pure functions:
  - `Pre` and its reference reading `Indent`, which replaces each newline;
  - `Compose`, with its parts `Heading`, `ExamplesBlock`, `OptionTable`,
    `OptionLines` and `OptionLine`;
  - `Listing`, with its parts `CommandLines` and `CommandLine`;
  - `Header`, `Footer` and `NotFoundMessage`.

  It also has the lemmas about these functions.
- `help_extended.dfy` (module `HelpExtended`) has the callback in imperative
  form:
  - a `Parser` class that records each write, and each hand-over to the
    parser's usage screen, in a `trace`;
  - `Combine`, which builds the body with successive appends, and
    `AppendOptionRows`, which holds its `foreach` over the options;
  - `BuildListing`, the listing loop of `displayUsage`;
  - `DisplayTopic`, `DisplayUsage`, `WriteHeader`, `WriteFooter` and
    `Execute`.

  Each of these methods is proved against the functions of `HelpText`.

## Inputs

Collaborators outside the callback are inputs to the model:

- The topic loader is a function `string -> LoadResult` applied to the
  path `configsDir + "commands/" + topic + ".yml"`, where `configsDir`
  stands for `PHROZN_PATH_CONFIGS`. The source tests for a miss with
  `$data === $file`, meaning the loader handed back the path itself. The
  model gives that case its own constructor, `NotFound`.
- The tool metadata from `phrozn.yml` is a `ToolMetadata` value.
- The command registry is a sequence of `RegistryEntry` values, in
  iteration order.
- The parse result is given as two values. The command arguments are an
  optional map, and a missing `topic` key reads as null. The `verbose`
  option is a boolean.
- The configuration parameters are a map to `Param` values.

Each text in the trace is the string handed to `Color::convert`. The style
markers (`%P`, `%n`, `%r`, `%b`, `%g`, `%9`) stay as literal text.

## Layout details of the code

- **Option rows.** The code writes
  `"  {doc_name} {spaces} : {description}\n"`, where `spaces` holds
  30 − |doc_name| spaces. One space comes before the padding, so the
  `':'` sits at 0-based column 34 and the description starts at column 36,
  whatever the length of the name up to 30.
- **Long option names.** A name longer than 30 characters gives
  `str_repeat` a negative count. See "Left out".
- **Not-found message.** The message wraps the text in the `%r` and `%n`
  markers and ends with a newline.

## Model

| member | source | states |
|---|---|---|
| `PhpStrings.Split` | library/Phrozn/Runner/CommandLine/Callback/HelpExtended.php:131 | `explode` on a one-character separator always yields at least one piece, and no piece contains the separator |
| `PhpStrings.Repeat` | library/Phrozn/Runner/CommandLine/Callback/HelpExtended.php:122 | `str_repeat(' ', n)` has length n and every character is the repeated one |
| `PhpStrings.SplitLength` | library/Phrozn/Runner/CommandLine/Callback/HelpExtended.php:131 | `explode` yields exactly one piece more than the separator occurs |
| `PhpStrings.JoinSplit` | library/Phrozn/Runner/CommandLine/Callback/HelpExtended.php:131 | `implode` with the separator as glue inverts `explode` |
| `HelpText.PreIsIndent` | library/Phrozn/Runner/CommandLine/Callback/HelpExtended.php:129-132 | `pre` (explode on newline, implode with newline plus two spaces) equals replacing every newline with a newline and two spaces, leaving every other character as it is |
| `HelpText.PreWithoutNewline` | library/Phrozn/Runner/CommandLine/Callback/HelpExtended.php:129-132 | a block with no newline comes back unchanged |
| `HelpText.PreKeepsLineCount` | library/Phrozn/Runner/CommandLine/Callback/HelpExtended.php:129-132 | `pre` keeps the number of newlines and of lines, and makes the text two characters longer per newline |
| `HelpText.PreIndentsLaterLines` | library/Phrozn/Runner/CommandLine/Callback/HelpExtended.php:129-132 | line by line: the first line is unchanged and every later line gains two leading spaces |
| `HelpText.PreRoundTrip` | library/Phrozn/Runner/CommandLine/Callback/HelpExtended.php:129-132 | dropping the two spaces after each newline recovers the original block |
| `HelpText.ComposeBegins` | library/Phrozn/Runner/CommandLine/Callback/HelpExtended.php:110-113 | the body starts with `"{name}: {summary}\nusage: {usage}\n\n  " + pre(description) + "\n"`; it is never `""` or `"0"`, so the truthiness test at line 66 always passes |
| `HelpText.ComposeExamples` | library/Phrozn/Runner/CommandLine/Callback/HelpExtended.php:114-117 | the body differs from the non-verbose body exactly when verbose is on and examples are present; the block `"eg:\n  " + pre(examples) + "\n"` then follows the description directly; without verbose, the output does not depend on whether examples are present |
| `HelpText.ComposeEndsWithTable` | library/Phrozn/Runner/CommandLine/Callback/HelpExtended.php:119-127 | the option table is the last part of the body; it is non-empty exactly when `options` is present and non-empty, and then it starts with `"Available options:\n"` |
| `HelpText.OptionLinesInOrder` | library/Phrozn/Runner/CommandLine/Callback/HelpExtended.php:121-124 | the rows are, for every k, the rows of options before k, then option k's row, then the rows of the options after k (list order, one row per option) |
| `HelpText.OptionLineLayout` | library/Phrozn/Runner/CommandLine/Callback/HelpExtended.php:122-123 | a row is two spaces, the name, spaces up to column 34, `':'` at 0-based column 34, a space, the description from column 36, and a newline; its length is 37 plus the description's length, whatever the name's length up to 30 |
| `HelpText.OptionLinesOnePerOption` | library/Phrozn/Runner/CommandLine/Callback/HelpExtended.php:119-125 | with single-line names and descriptions, the table rows contain exactly one newline per option |
| `HelpText.InitExampleTable` | library/Phrozn/Runner/CommandLine/Callback/HelpExtended.php:119-124 | for the single option `--force`, the table is the header line plus `"  --force "`, then 23 spaces, then `" : overwrite existing files\n"` |
| `HelpText.ComposeInitExample` | library/Phrozn/Runner/CommandLine/Callback/HelpExtended.php:110-127 | the complete non-verbose body of an `init` topic with one option |
| `HelpText.CommandLineForms` | library/Phrozn/Runner/CommandLine/Callback/HelpExtended.php:86-90 | a listing line is `"    " + name`, followed by `" (" + implode(", ", aliases) + ")"` exactly when aliases is not null (so an empty list gives `" ()"`), then a newline |
| `HelpText.CommandLinesInOrder` | library/Phrozn/Runner/CommandLine/Callback/HelpExtended.php:84-91 | one listing line per registry entry, in registry order |
| `HelpText.CommandLinesOnePerEntry` | library/Phrozn/Runner/CommandLine/Callback/HelpExtended.php:84-91 | with single-line names and aliases, the listing lines contain exactly one newline per registry entry |
| `HelpText.ListingBuildWatchExample` | library/Phrozn/Runner/CommandLine/Callback/HelpExtended.php:78-91 | the registry `build` (alias `b`) then `watch` (null aliases) lists `"    build (b)\n"` then `"    watch\n"` after the fixed preamble |
| `HelpText.ListingEmptyRegistry` | library/Phrozn/Runner/CommandLine/Callback/HelpExtended.php:78-91 | an empty registry gives the fixed preamble alone |
| `HelpText.UseColorsIsStrict` | library/Phrozn/Runner/CommandLine/Callback/HelpExtended.php:75 | only the boolean `true` enables the listing; `1`, `"true"`, null and a missing key do not |
| `PhpStrings.Join` | library/Phrozn/Runner/CommandLine/Callback/HelpExtended.php:131 | `implode`; no contract of its own: `JoinSplit` proves it inverts `Split`, and `PreIsIndent` and `CommandLineForms` use it |
| `PhpStrings.Truthy` | library/Phrozn/Runner/CommandLine/Callback/HelpExtended.php:66 | PHP's string-to-boolean conversion used by the `if ($help = …)` test; no contract of its own: `ComposeBegins` proves every composed body passes it |
| `HelpText.Pre` | library/Phrozn/Runner/CommandLine/Callback/HelpExtended.php:129-132 | defines `pre`; no contract of its own: properties in `PreIsIndent`, `PreWithoutNewline`, `PreKeepsLineCount`, `PreIndentsLaterLines`, `PreRoundTrip` |
| `HelpText.Heading` | library/Phrozn/Runner/CommandLine/Callback/HelpExtended.php:111-113 | defines the name/summary line, the usage line and the reindented description; no contract of its own: `ComposeBegins` states the prefix |
| `HelpText.ExamplesBlock` | library/Phrozn/Runner/CommandLine/Callback/HelpExtended.php:115-116 | defines the `eg:` block; no contract of its own: `ComposeExamples` states when and where it appears |
| `HelpText.OptionLine` | library/Phrozn/Runner/CommandLine/Callback/HelpExtended.php:122-123 | defines one option row; no contract of its own: `OptionLineLayout` fixes it column by column |
| `HelpText.OptionLines` | library/Phrozn/Runner/CommandLine/Callback/HelpExtended.php:121-124 | defines the option rows in list order; no contract of its own: `AppendOptionRows` is proved to append it, `OptionLinesInOrder` and `OptionLinesOnePerOption` describe it |
| `HelpText.OptionTable` | library/Phrozn/Runner/CommandLine/Callback/HelpExtended.php:119-125 | defines the option table; no contract of its own: `ComposeEndsWithTable`, `OptionLinesInOrder` and `OptionLinesOnePerOption` describe it |
| `HelpText.Compose` | library/Phrozn/Runner/CommandLine/Callback/HelpExtended.php:110-127 | defines the body `combine` returns; no contract of its own: properties in `ComposeBegins`, `ComposeExamples`, `ComposeEndsWithTable`, `ComposeInitExample`, and `Combine` is proved equal to it |
| `HelpText.CommandLine` | library/Phrozn/Runner/CommandLine/Callback/HelpExtended.php:86-90 | defines one listing line; no contract of its own: `CommandLineForms` states its forms |
| `HelpText.CommandLines` | library/Phrozn/Runner/CommandLine/Callback/HelpExtended.php:84-91 | defines the listing lines; no contract of its own: `CommandLinesInOrder` and `CommandLinesOnePerEntry` describe them |
| `HelpText.Listing` | library/Phrozn/Runner/CommandLine/Callback/HelpExtended.php:78-91 | defines the usage screen, `UsagePreamble` (the fixed text of lines 78-83) followed by the command lines; no contract of its own: `BuildListing` is proved equal to it, and `ListingBuildWatchExample` and `ListingEmptyRegistry` describe it |
| `HelpText.Header` | library/Phrozn/Runner/CommandLine/Callback/HelpExtended.php:137 | defines the banner text; no contract of its own: `WriteHeader` and `Execute` write it first |
| `HelpText.Footer` | library/Phrozn/Runner/CommandLine/Callback/HelpExtended.php:143-144 | defines the closing text; no contract of its own: `WriteFooter` and `Execute` write it last |
| `HelpText.NotFoundMessage` | library/Phrozn/Runner/CommandLine/Callback/HelpExtended.php:69 | defines the not-found text; no contract of its own: `DisplayTopic` is proved to write it exactly when the loader misses |
| `HelpText.TopicPath` | library/Phrozn/Runner/CommandLine/Callback/HelpExtended.php:101 | defines the topic path `configsDir + "commands/" + topic + ".yml"`; no contract of its own: the key `Combine` hands to the loader |
| `HelpText.UseColors` | library/Phrozn/Runner/CommandLine/Callback/HelpExtended.php:75 | defines the strict `use_colors === true` test; no contract of its own: `UseColorsIsStrict` and `DisplayUsage` use it |
| `HelpText.TopicArg` | library/Phrozn/Runner/CommandLine/Callback/HelpExtended.php:54 | defines the topic argument, null when `args` or its `topic` key is missing; no contract of its own: `Execute` dispatches on it |
| `HelpExtended.TopicBody` | library/Phrozn/Runner/CommandLine/Callback/HelpExtended.php:64-71 | defines the one event `displayTopic` produces; no contract of its own: `DisplayTopic` is proved to produce it |
| `HelpExtended.UsageBody` | library/Phrozn/Runner/CommandLine/Callback/HelpExtended.php:73-97 | defines the one event `displayUsage` produces; no contract of its own: `DisplayUsage` is proved to produce it |
| `HelpExtended.Body` | library/Phrozn/Runner/CommandLine/Callback/HelpExtended.php:54-60 | defines the one body `execute` writes between header and footer; no contract of its own: `Execute` and `BodyDelegatesOnlyWithoutColours` describe it |
| `HelpExtended.Parser.Stdout` | library/Phrozn/Runner/CommandLine/Callback/HelpExtended.php:67 | a write to the outputter appends exactly that text to the trace |
| `HelpExtended.Parser.DisplayUsage` | library/Phrozn/Runner/CommandLine/Callback/HelpExtended.php:95 | the hand-over to the parser's usage screen appends one event to the trace |
| `HelpExtended.Combine` | library/Phrozn/Runner/CommandLine/Callback/HelpExtended.php:99-128 | returns "not found" exactly when the loader misses on `configsDir + "commands/" + topic + ".yml"`; otherwise returns the body `Compose` describes for the loaded topic and the verbose flag |
| `HelpExtended.AppendOptionRows` | library/Phrozn/Runner/CommandLine/Callback/HelpExtended.php:121-124 | the loop appends exactly the option rows, in list order, to the text built so far |
| `HelpExtended.BuildListing` | library/Phrozn/Runner/CommandLine/Callback/HelpExtended.php:78-92 | the loop builds exactly the preamble followed by one line per registry entry, in order |
| `HelpExtended.DisplayTopic` | library/Phrozn/Runner/CommandLine/Callback/HelpExtended.php:64-71 | exactly one write: when the loader misses on `configsDir + "commands/" + topic + ".yml"`, the message `"%rHelp topic '{topic}' not found..%n\n"`; when the topic loads, its help as `Compose` gives it for the verbose flag (the truthiness test of line 66 always passes for it) |
| `HelpExtended.DisplayUsage` | library/Phrozn/Runner/CommandLine/Callback/HelpExtended.php:73-97 | exactly one event: a write of the listing when `use_colors` is strictly true, otherwise only the hand-over to the parser (nothing composed) |
| `HelpExtended.WriteHeader` | library/Phrozn/Runner/CommandLine/Callback/HelpExtended.php:135-139 | writes exactly `"%P{name} {version} by {author}\n%n"` |
| `HelpExtended.WriteFooter` | library/Phrozn/Runner/CommandLine/Callback/HelpExtended.php:141-146 | writes exactly `"\n{description}\nFor additional information, see %9http://phrozn.info%n\n"` |
| `HelpExtended.Execute` | library/Phrozn/Runner/CommandLine/Callback/HelpExtended.php:49-62 | appends exactly three events: the header, one body (usage mode when the `topic` argument is absent or null, topic mode otherwise), then the footer |
| `HelpExtended.BodyDelegatesOnlyWithoutColours` | library/Phrozn/Runner/CommandLine/Callback/HelpExtended.php:56-57 | the body is the hand-over to the parser exactly in usage mode with colours not strictly on; in usage mode with colours on, it is the listing |

## Left out

- YAML loading (`Yaml::load` for `phrozn.yml` and for the topic files) is outside the model. The metadata is an input, and the loader is a function parameter. Neither failure of `phrozn.yml` is modelled: a parse error, which makes `Yaml::load` throw, and a missing file, which comes back as its path string, so that `header` indexes into a string instead of an array.
- The `$data === $file` test treats a topic file whose parsed content is its own path string as a miss. The model's explicit `NotFound` does not reproduce that corner.
- Topic files missing `docs` keys make PHP raise undefined-index notices. The model assumes every loaded topic is complete.
- `Color::convert` is not modelled. The trace holds the text before conversion.
- The output of `$parser->displayUsage()` is not modelled. It is recorded as one `DelegatedUsage` event.
- The registry singleton `Commands::getInstance()` is replaced by a sequence passed in. A YAML alias list holding non-string values is not modelled.
- HelpExtended.Combine: requires every option name to be at most 30 characters. `str_repeat` with a negative count warns and returns null on older PHP and throws on newer PHP; the model does not pick one of these behaviours.
- HelpExtended.DisplayTopic: carries the same requirement, that every option name of the loaded topic is at most 30 characters, for the same reason.
- HelpExtended.Execute: carries the same requirement, that every option name of the loaded topic is at most 30 characters, for the same reason.
- HelpExtended.TopicBody: carries the same requirement, that every option name of the loaded topic is at most 30 characters, for the same reason.
- HelpExtended.Body and HelpExtended.BodyDelegatesOnlyWithoutColours: carry the same requirement, that every option name of the loaded topic is at most 30 characters, for the same reason.
- HelpExtended.AppendOptionRows, HelpText.OptionLine, HelpText.OptionLines, HelpText.OptionTable, HelpText.Compose, HelpText.ComposeBegins, HelpText.ComposeExamples, HelpText.ComposeEndsWithTable, HelpText.OptionLinesInOrder, HelpText.OptionLineLayout and HelpText.OptionLinesOnePerOption: require every option name they format to be at most 30 characters, because `str_repeat` with a negative count warns and returns null on older PHP and throws on newer PHP, and the model does not pick one of these behaviours.
- `strlen` counts bytes, and the model counts characters, so a name with multi-byte characters is not padded as PHP would pad it.
- The truthiness of the `verbose` option value is modelled as a boolean.
- `$value` and `$option` are not used. Of `$params`, only `use_colors` is read, and the model's `params` is used only for that.
- The values that `displayTopic` and `displayUsage` return are discarded by `execute`, and they are not modelled.
- HelpExtended.Parser.DisplayUsage: the parser's usage display is assumed to return to the callback. If it ends the process instead, the footer that `Execute` promises after it is not written in usage mode without colours; the parser's code is not part of this model.
