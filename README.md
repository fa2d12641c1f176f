# logplease — a Dafny model of the leveled logger

logplease is a small JavaScript logger (`src/index.js`). A logger is
created for a *category* with a set of options. It has four entry points:
`debug`, `info`, `warn` and `error`.

Each call is first filtered against one process-wide threshold, which
`setLogLevel` sets. A call that passes this filter does two things:

- it builds a plain *file line* and writes it, with a line break, to the
  file stream, if the logger opened one;
- it builds a styled *console line* and passes it to one `console.log`
  call.

The styling depends on the target:

- **Node** uses ANSI SGR escape sequences.
- **Browser** uses `%c` placeholders followed by CSS arguments.

Line layout:

- Each line is made of up to four segments: timestamp, level tag,
  category and text.
- The timestamp and level-tag segments can be switched off.
- The tags of INFO and WARN carry one extra space, so all four entry-point
  tags are eight characters wide.

The model is split into these files:

- `values.dfy` (module `Values`): the JavaScript values that option fields
  and the threshold can hold. It covers truthiness and string conversion,
  with numbers written in decimal. It also proves that the decimal digits
  round-trip.
- `levels.dfy` (module `Levels`):
  - the level order from `LogLevels`;
  - `indexOf` over the level names, with -1 for anything unknown;
  - the `_shouldLog` filter and its properties;
  - the `Registry` class, which holds `GlobalLogLevel` and `setLogLevel`.
- `palette.dfy` (module `Palette`): the two `Colors` palettes and
  `loglevelColors`.
- `config.dfy` (module `Config`):
  - `defaultOptions`;
  - the `Object.assign` overlay of the caller's options, with options as a
    map from option names to values;
  - how a flag or a setting is read.
- `format.dfy` (module `Format`):
  - `_format`, as the four style tokens;
  - `_createLogMessage`;
  - a reference layout: a list of (marker, content) segments and its
    rendering. Both lines are proved against this layout.
  - the token values on each target, escape and `%` counts, and the
    arguments of the console call;
  - some concrete lines.
- `logging.dfy` (module `Logging`):
  - the `Console` sink;
  - the `Logger` class: its constructor, `_write` and the four entry
    points, each proved to perform exactly the effect described by the
    two-state predicate `Logger.Logged`;
  - two end-to-end scenarios.

The model has two parameters that the original reads from its
environment:

- **The target.** The original detects it from `process.env.NODE`.
- **The clock readings.** `_write` calls `_createLogMessage` twice, and
  each call reads the clock when `showTimestamp` is on
  (src/index.js:165-166). The file line therefore gets the first reading
  and the console line the second (`firstClock`, `secondClock`); with
  timestamps off neither reading is used.

Two behaviours of the code worth knowing:

- A warning from category `Net` with the timestamp off, the level on and
  colours off prints `[WARN]  Net: retry`, two spaces after the tag
  (src/index.js:170-171).
- On the browser the file line also carries the `%c` placeholders
  (src/index.js:155-161; `Format.BrowserLinesFollowFields`).

## Model

| member | source | states |
|---|---|---|
| Values.Digits | src/index.js:127-128 | a number's decimal text is non-empty, all digits, and one digit long exactly when the number is below 10 |
| Values.Truthy | src/index.js:64-65 | JavaScript truthiness of an option value (`if(x)`, `x ? :`, `x \|\|`): null, false, 0 and the empty string are falsy; its consequences are stated by `Config.OmittedOptionsTakeDefaults` and `Config.FileOptionsFollowCaller` |
| Values.DigitsRoundTrip | src/index.js:127-128 | reading the decimal text of a number back gives the number |
| Values.ToText | src/index.js:124-137 | the string form of a number is all digits and the string form of a string is the string itself |
| Levels.IndexOf | src/index.js:180-182 | `indexOf` returns -1 exactly when the name is absent, otherwise an index holding the name with no earlier occurrence |
| Levels.Position | src/index.js:180-182 | a value's position in the level list is -1 exactly when it is not a level name, otherwise the index of that name |
| Levels.PositionOfName | src/index.js:7-13 | the position of each level's name is its rank in DEBUG < INFO < WARN < ERROR < NONE |
| Levels.ShouldLog | src/index.js:179-184 | `_shouldLog`: the level's position is at least the threshold's; its meaning is stated by `Levels.ShouldLogByRank`, `Levels.UnrecognisedThresholdPassesAll` and `Levels.ShouldLogMonotone` |
| Levels.ShouldLogByRank | src/index.js:179-184 | with a recognised threshold a level passes iff its rank is at least the threshold's (both directions) |
| Levels.UnrecognisedThresholdPassesAll | src/index.js:181-183 | a threshold that is not a level name (index -1) lets every level through |
| Levels.NoneSilencesEmitting | src/index.js:179-184 | with the threshold NONE, no level of the four entry points passes |
| Levels.DebugPassesAll | src/index.js:53 | the initial threshold DEBUG lets every level through |
| Levels.ShouldLogMonotone | src/index.js:179-184 | under any threshold, if a level passes then every more severe level passes too |
| Levels.Registry.constructor | src/index.js:53 | the threshold starts at DEBUG |
| Levels.Registry.SetLogLevel | src/index.js:196 | `setLogLevel` stores any value, unchecked |
| Levels.Registry.Active | src/index.js:86-88 | the filter `_write` applies under the current `GlobalLogLevel`; stated through `Levels.SetLogLevelTwice` and `Logging.Logger.Logged` |
| Levels.SetLogLevelTwice | src/index.js:196 | setting a threshold twice leaves it, and the filter, as setting it once |
| Palette.ColorValue | src/index.js:15-41 | Node colours are numbers below 10; browser colours are non-empty CSS names without `%` |
| Palette.LevelColors | src/index.js:52 | there is one level colour per level |
| Palette.LevelColorsDistinct | src/index.js:52 | the four entry-point levels have pairwise different colours on both targets |
| Config.Defaults | src/index.js:43-50 | every option has a default: colours, timestamp, level and appending on, no file name |
| Config.Assign | src/index.js:59-61 | after `Object.assign` the keys are the union, with the copied object's values winning |
| Config.Resolve | src/index.js:59-62 | every option is defined; a given option overrides its default and an omitted one takes it |
| Config.Flag | src/index.js:64-65 | `if(options.k)`: a flag is on iff the option is present and truthy; stated by `Config.FileOptionsFollowCaller` |
| Config.Setting | src/index.js:121-128 | the string an option contributes to a token (`undefined` when absent); stated by `Format.DefaultColorText` and `Format.NodeStyleTokens` |
| Config.OmittedOptionsTakeDefaults | src/index.js:43-50 | without options: colours, timestamp and level on, no file, append mode, category colour `Colors.Default` |
| Config.FileOptionsFollowCaller | src/index.js:64-65 | a file is opened iff the caller gave a truthy filename; it appends iff `appendFile` was omitted or truthy |
| Format.AnsiStyles | src/index.js:119-129 | the Node tokens: level token an SGR sequence, timestamp token an SGR sequence exactly when shown, text token the reset plus `": "` |
| Format.CssStyles | src/index.js:130-138 | the browser tokens: level and category tokens CSS colour declarations, timestamp token one exactly when shown, text token `": "` |
| Format.FormatStyles | src/index.js:112-147 | without colours the tokens are empty with text token `": "`; the timestamp token is non-empty iff colours and timestamps are on |
| Format.CreateLogMessage | src/index.js:149-177 | `_createLogMessage`; both lines are tied to the segment layout by `Format.NodeLinesFollowFields` and `Format.BrowserLinesFollowFields` |
| Format.Unformatted | src/index.js:91 | the file line, `_createLogMessage` without formats; stated by `Format.NodeLinesFollowFields`, `Format.BrowserLinesFollowFields` and `Format.NodeFileLineAddsNoEscapes` |
| Format.Formatted | src/index.js:92 | the console line, `_createLogMessage` with the `_format` tokens; stated by `Format.NodeLinesFollowFields`, `Format.BrowserLinesFollowFields` and `Format.NodeConsoleLineEscapes` |
| Format.LevelTag | src/index.js:170-171 | the bracketed level with the INFO/WARN padding; stated by `Format.LevelTags`, `Format.LevelTagAligned` and `Format.LevelTagIsPlain` |
| Format.MarkersOfFields | src/index.js:100-108 | the markers of a line are the shown optional tokens followed by the category and text tokens |
| Format.RenderFields | src/index.js:163-176 | a rendered line is the shown timestamp and level segments, then category and text, each after its marker |
| Format.NodeMessage | src/index.js:149-176 | on Node, `_createLogMessage` puts each `||`-defaulted format argument directly before its segment |
| Format.NodeLinesFollowFields | src/index.js:90-92 | on Node the file line is the layout with no markers and the console line the layout with the `_format` tokens as markers |
| Format.BrowserMessage | src/index.js:155-176 | on the browser every format argument becomes `%c`, the timestamp one only when the timestamp is shown |
| Format.BrowserLinesFollowFields | src/index.js:155-161 | on the browser both the file line and the console line are the `%c` template |
| Format.NodeColourlessLinesAgree | src/index.js:118 | on Node without colours the console line equals the file line |
| Format.LevelTags | src/index.js:170-171 | the tags are `[DEBUG] `, `[INFO]  `, `[WARN]  `, `[ERROR] ` and `[NONE] `, with INFO and WARN padded |
| Format.LevelTagAligned | src/index.js:170-171 | each entry-point level's tag is eight characters and starts with the bracketed name |
| Format.LevelTagIsPlain | src/index.js:170-171 | a level tag contains neither an escape character nor `%` |
| Format.NodeFileLineAddsNoEscapes | src/index.js:150-176 | on Node the file line's escape characters are exactly those of the shown clock reading, the category and the text |
| Format.GreyTexts | src/index.js:124-135 | the timestamp colour Grey reads `7` on Node and `DimGrey` on the browser |
| Format.FullNodeConsoleLine | src/index.js:163-176 | on Node with timestamp and level shown, the console line is the four segments, each after its token |
| Format.DefaultColorText | src/index.js:45 | on Node the default category colour reads `9` |
| Format.LevelColorTexts | src/index.js:52 | the entry-point level colours read 6, 2, 3, 1 on Node and SkyBlue, LimeGreen, Orange, IndianRed on the browser |
| Format.NodeStyleTokens | src/index.js:118-129 | Node tokens with colours on: `ESC[37m` when shown, `ESC[3` + level colour + `;22m`, `ESC[3` + color + `;1m`, `ESC[0m: ` |
| Format.BrowserStyleTokens | src/index.js:130-138 | browser tokens with colours on: `color:DimGrey` when shown, `color:` + level colour, `color:` + color + `; font-weight: bold`, `": "` |
| Format.NodeConsoleLineEscapes | src/index.js:118-129 | with colours on, the Node console line has the file line's escapes plus one per shown timestamp and level token, two more, and those of the colour |
| Format.AnsiTokenEscapes | src/index.js:124-129 | each Node token holds one escape character, the category token plus those of the colour |
| Format.AnsiStylesEscapes | src/index.js:124-129 | the escape count of each token built from a level colour |
| Format.ConsoleCall | src/index.js:97-108 | the `console.log` argument list: the console line, then on the browser the markers of the layout; stated by `Format.BrowserConsoleArguments`, `Format.PlaceholdersMatchArguments` and `Logging.ConsoleArguments` |
| Format.BrowserConsoleArguments | src/index.js:100-108 | the browser `console.log` arguments in each of the four cases of the timestamp and level options |
| Format.PlaceholdersMatchArguments | src/index.js:100-108 | the browser call passes 2 + [timestamp shown] + [level shown] style arguments, one per `%c` in the template; any other `%` in the template comes from the shown clock reading, the category or the text |
| Format.WarnWithoutTimestampOrColours | src/index.js:78-80 | Node, timestamp off, level on, colours off: `warn("retry")` from `Net` logs `[WARN]  Net: retry` |
| Format.PlainWarnLine | src/index.js:163-176 | with only the level shown and no colours a warning reads `[WARN]  ` + category + `": "` + text |
| Format.DefaultInfoFileLine | src/index.js:163-176 | with default layout options an info file line is the clock reading, a space, `[INFO]  `, the category, `": "` and the text |
| Format.DefaultInfoConsoleLine | src/index.js:118-129 | with default options an info console line on Node is grey timestamp, green level, category in colour 9, reset, text |
| Format.InfoConsoleLine | src/index.js:118-129 | the info console line on Node with every segment shown and category colour 9, token by token |
| Logging.Console.Log | src/index.js:98 | `console.log` records one more argument list and leaves the earlier calls alone |
| Logging.Logger.Logged | src/index.js:86-109 | the effect of one `_write` call on the file stream and the console; established by `Logging.Logger.Write` |
| Logging.Logger.constructor | src/index.js:56-67 | the logger keeps the category and the overlaid options; a stream is opened iff the file name is truthy, with flag `a` iff `appendFile` else `w` |
| Logging.Logger.Write | src/index.js:86-109 | a filtered call changes nothing; otherwise the file line plus `\n` is written iff a stream exists and exactly one console call is made |
| Logging.Logger.Debug | src/index.js:70-72 | `debug` logs at DEBUG |
| Logging.Logger.Info | src/index.js:74-76 | `info` logs at INFO |
| Logging.Logger.Warn | src/index.js:78-80 | `warn` logs at WARN |
| Logging.Logger.Error | src/index.js:82-84 | `error` logs at ERROR |
| Logging.ConsoleArguments | src/index.js:97-108 | the four-way branch picks exactly the arguments of the console call for each target and option pair |
| Logging.SilencedByNone | src/index.js:196 | after `setLogLevel('NONE')` no entry point writes to the file or the console |
| Logging.NetWarnScenario | src/index.js:196-197 | threshold INFO, a Node logger `Net` with timestamp off and colours off: `warn("retry")` makes one console call `[WARN]  Net: retry` and writes no file |

## Left out

- File streams: `fs.createWriteStream` and `write` are modelled by the opened path and flags (`FileHandle`) and by the sequence of strings handed to the stream. What appending or truncating does to the file's contents is not modelled, nor is a stream that fails to open.
- How `console.log` renders its arguments: the model records the argument lists only. Terminal rendering of ANSI sequences and browser rendering of `%c`/CSS are also not modelled.
- `new Date().toISOString()`: the clock readings are parameters. Their ISO format is not modelled.
- `process.env.NODE`: the target is a parameter (`Palette.Target`) and the palette is chosen from it.
- JavaScript numbers: a number option value is a natural number written in decimal. Negative, fractional and non-finite numbers are not modelled.
- The category and the text are strings. JavaScript's conversion of other values passed there is not modelled.
- The options object has only the six recognised keys. Extra keys, inherited properties and an explicitly passed `undefined` are not modelled, so a given key always overrides its default.
- The commented-out alternative exports and the unused `_format` text argument have no counterpart.
- The exported `Colors` and `LogLevel` objects are not modelled as separate members. They are the palettes of `Palette` and the level names of `Levels`.
